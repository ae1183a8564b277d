# Faces-config dispenser and resource resolver, in Dafny

A Dafny model of two pieces of Apache MyFaces.

**The faces-config dispenser.** `DigesterFacesConfigDispenserImpl` folds any number of parsed
`faces-config` documents, in the order they are fed, into one aggregate, and answers read-only
queries about it. Each field follows one of four rules:

- list fields are concatenated in feed order, keeping duplicates;
- the three single values are set by the last `<application>` that supplies one;
- the id-keyed maps are overwritten key by key;
- render kits are kept in an insertion-ordered table. A declaration without an id is filed under
  `HTML_BASIC`. The first declaration of an id is stored, and each later one is merged into it.

**The resource EL resolver.** `ResourceResolver` resolves `#{resource['library:name']}` (JSR 314,
sections 5.6.1.3 and 5.6.2.4). It splits the reference on its single `:`, rejects a second `:`, and
replaces the library `this` with the library of the current composite component. It then marks the
property resolved and yields the resource's request path.

Modules:

- `Wrappers` (`wrappers.dfy`): `Option` (Java `null` is `None`) and `Result`.
- `FacesConfigElements` (`elements.dfy`): the parsed document handed to the dispenser.
- `Folds` (`folds.dfy`): the three accumulation rules as folds over a document's elements, with
  their laws.
  - `Collect` is `addAll` for each element.
  - `LastSupplied` is "if the list is non-empty, take its last entry".
  - `PutEach` is `put` for each element.
- `RenderKitMerge` (`render_kit_merge.dfy`): the structural merge of two declarations of one render
  kit.
- `RenderKitRegistry` (`render_kit_registry.dfy`): the `LinkedHashMap` of render kits, as the key
  order plus a map.
- `FacesConfigAggregate` (`aggregate.dfy`): the dispenser's state as a value. `Fed(a, config)` is
  what feeding one document does to it.
- `FacesConfigDispenser` (`dispenser.dfy`): the dispenser class.
  - It has the 25 fields of the Java class.
  - `Feed` and its loops are imperative methods, each proved against the matching fold of
    `FacesConfigAggregate`: `Snapshot() == Fed(old(Snapshot()), config)`.
  - The getters are functions that read the fields.
- `FacesConfigRules` (`rules.dfy`): the rules `Fed` obeys.
  - Every list is the old list followed by the document's lists, in order.
  - Every single value is the last one supplied.
  - Each map key takes the last value written for it.
  - Converters are routed by whether they have an id.
  - Feeding two documents in turn is feeding their concatenation.
- `ResourceResolution` (`resource_resolver.dfy`): the reference splitting as pure functions with a
  round-trip proof. `GetValue` is a method on an `ELContext` object whose `propertyResolved` flag it
  sets.

Unknown keys are not treated alike by the queries. The map lookups answer null, but
`getRenderKitClass` and `getRenderers` (lines 443-454) dereference the result of `renderKits.get`
directly. The model keeps that difference: an unknown render-kit id is a
`Failure(NullPointerException)`.

## Model

| member | source | states |
|---|---|---|
| FacesConfigDispenser.DigesterFacesConfigDispenser.constructor | impl/src/main/java/org/apache/myfaces/config/impl/digester/DigesterFacesConfigDispenserImpl.java:49-73 | A new dispenser has every list and map empty and every single value null, and its render-kit table is well formed. |
| FacesConfigDispenser.DigesterFacesConfigDispenser.Feed | impl/src/main/java/org/apache/myfaces/config/impl/digester/DigesterFacesConfigDispenserImpl.java:81-161 | Feeding a document changes the whole state to `Fed(old state, document)`. The render-kit table stays well formed: each id appears once in the key order. FedRules states what `Fed` is field by field. |
| FacesConfigDispenser.DigesterFacesConfigDispenser.FeedFactories | impl/src/main/java/org/apache/myfaces/config/impl/digester/DigesterFacesConfigDispenserImpl.java:83-89 | The `<factory>` loop leaves the four factory lists equal to the fold `AddFactories` over the factories in order. Only those four fields change. |
| FacesConfigDispenser.DigesterFacesConfigDispenser.FeedApplications | impl/src/main/java/org/apache/myfaces/config/impl/digester/DigesterFacesConfigDispenserImpl.java:94-121 | The `<application>` loop leaves the three single values equal to `SetAllApplicationValues` and the nine lists equal to `AddAllApplicationLists`, over the applications in order. |
| FacesConfigDispenser.DigesterFacesConfigDispenser.FeedApplicationValues | impl/src/main/java/org/apache/myfaces/config/impl/digester/DigesterFacesConfigDispenserImpl.java:96-110 | For one application, each single value whose list is non-empty becomes that list's last entry, and the others are kept. Only the three single-value fields change. |
| FacesConfigDispenser.DigesterFacesConfigDispenser.FeedApplicationLists | impl/src/main/java/org/apache/myfaces/config/impl/digester/DigesterFacesConfigDispenserImpl.java:112-120 | For one application, each of the nine lists becomes the old list followed by that application's matching list. Only those nine fields change. |
| FacesConfigDispenser.DigesterFacesConfigDispenser.FeedConverters | impl/src/main/java/org/apache/myfaces/config/impl/digester/DigesterFacesConfigDispenserImpl.java:123-135 | The `<converter>` loop leaves the three converter maps equal to the fold `AddConverters` over the converters in order. |
| FacesConfigDispenser.DigesterFacesConfigDispenser.FeedRenderKits | impl/src/main/java/org/apache/myfaces/config/impl/digester/DigesterFacesConfigDispenserImpl.java:137-156 | The `<render-kit>` loop leaves the render-kit table equal to `PutRenderKits` over the declarations in order, and keeps it well formed. |
| FacesConfigDispenser.DigesterFacesConfigDispenser.FeedApplicationFactory | impl/src/main/java/org/apache/myfaces/config/impl/digester/DigesterFacesConfigDispenserImpl.java:169-172 | Appends exactly the given class name to the application factories. Nothing else changes. |
| FacesConfigDispenser.DigesterFacesConfigDispenser.FeedFacesContextFactory | impl/src/main/java/org/apache/myfaces/config/impl/digester/DigesterFacesConfigDispenserImpl.java:180-183 | Appends exactly the given class name to the faces-context factories. Nothing else changes. |
| FacesConfigDispenser.DigesterFacesConfigDispenser.FeedLifecycleFactory | impl/src/main/java/org/apache/myfaces/config/impl/digester/DigesterFacesConfigDispenserImpl.java:191-194 | Appends exactly the given class name to the lifecycle factories. Nothing else changes. |
| FacesConfigDispenser.DigesterFacesConfigDispenser.FeedRenderKitFactory | impl/src/main/java/org/apache/myfaces/config/impl/digester/DigesterFacesConfigDispenserImpl.java:202-205 | Appends exactly the given class name to the render-kit factories. Nothing else changes. |
| FacesConfigDispenser.DigesterFacesConfigDispenser.GetApplicationFactoryIterator | impl/src/main/java/org/apache/myfaces/config/impl/digester/DigesterFacesConfigDispenserImpl.java:210-213 | Returns the aggregate's application-factory list. By Feed and FactoryListsCollected, that is every class name fed, in feed order. |
| FacesConfigDispenser.DigesterFacesConfigDispenser.GetFacesContextFactoryIterator | impl/src/main/java/org/apache/myfaces/config/impl/digester/DigesterFacesConfigDispenserImpl.java:218-221 | Returns the aggregate's faces-context factory list. |
| FacesConfigDispenser.DigesterFacesConfigDispenser.GetLifecycleFactoryIterator | impl/src/main/java/org/apache/myfaces/config/impl/digester/DigesterFacesConfigDispenserImpl.java:226-229 | Returns the aggregate's lifecycle factory list. |
| FacesConfigDispenser.DigesterFacesConfigDispenser.GetRenderKitFactoryIterator | impl/src/main/java/org/apache/myfaces/config/impl/digester/DigesterFacesConfigDispenserImpl.java:234-237 | Returns the aggregate's render-kit factory list. |
| FacesConfigDispenser.DigesterFacesConfigDispenser.GetActionListenerIterator | impl/src/main/java/org/apache/myfaces/config/impl/digester/DigesterFacesConfigDispenserImpl.java:242-245 | Returns the aggregate's action-listener list, duplicates included. |
| FacesConfigDispenser.DigesterFacesConfigDispenser.GetDefaultRenderKitId | impl/src/main/java/org/apache/myfaces/config/impl/digester/DigesterFacesConfigDispenserImpl.java:250-253 | Returns the aggregate's default render-kit id: the last one supplied, or null if none was. |
| FacesConfigDispenser.DigesterFacesConfigDispenser.GetMessageBundle | impl/src/main/java/org/apache/myfaces/config/impl/digester/DigesterFacesConfigDispenserImpl.java:258-261 | Returns the aggregate's message bundle: the last one supplied, or null if none was. |
| FacesConfigDispenser.DigesterFacesConfigDispenser.GetNavigationHandlerIterator | impl/src/main/java/org/apache/myfaces/config/impl/digester/DigesterFacesConfigDispenserImpl.java:266-269 | Returns the aggregate's navigation-handler list. |
| FacesConfigDispenser.DigesterFacesConfigDispenser.GetResourceHandlerIterator | impl/src/main/java/org/apache/myfaces/config/impl/digester/DigesterFacesConfigDispenserImpl.java:274-277 | Returns the aggregate's resource-handler list. |
| FacesConfigDispenser.DigesterFacesConfigDispenser.GetViewHandlerIterator | impl/src/main/java/org/apache/myfaces/config/impl/digester/DigesterFacesConfigDispenserImpl.java:282-285 | Returns the aggregate's view-handler list. |
| FacesConfigDispenser.DigesterFacesConfigDispenser.GetStateManagerIterator | impl/src/main/java/org/apache/myfaces/config/impl/digester/DigesterFacesConfigDispenserImpl.java:290-293 | Returns the aggregate's state-manager list. |
| FacesConfigDispenser.DigesterFacesConfigDispenser.GetPropertyResolverIterator | impl/src/main/java/org/apache/myfaces/config/impl/digester/DigesterFacesConfigDispenserImpl.java:298-301 | Returns the aggregate's property-resolver list. |
| FacesConfigDispenser.DigesterFacesConfigDispenser.GetVariableResolverIterator | impl/src/main/java/org/apache/myfaces/config/impl/digester/DigesterFacesConfigDispenserImpl.java:306-310 | Returns the aggregate's variable-resolver list. |
| FacesConfigDispenser.DigesterFacesConfigDispenser.GetDefaultLocale | impl/src/main/java/org/apache/myfaces/config/impl/digester/DigesterFacesConfigDispenserImpl.java:315-322 | Null when no locale config was fed. Otherwise the default locale of the last locale config fed. |
| FacesConfigDispenser.DigesterFacesConfigDispenser.GetSupportedLocalesIterator | impl/src/main/java/org/apache/myfaces/config/impl/digester/DigesterFacesConfigDispenserImpl.java:327-340 | The empty list when no locale config was fed. Otherwise the supported locales of the last locale config fed. |
| FacesConfigDispenser.DigesterFacesConfigDispenser.GetComponentTypes | impl/src/main/java/org/apache/myfaces/config/impl/digester/DigesterFacesConfigDispenserImpl.java:345-348 | Exactly the component types for which GetComponentClass answers non-null. |
| FacesConfigDispenser.DigesterFacesConfigDispenser.GetComponentClass | impl/src/main/java/org/apache/myfaces/config/impl/digester/DigesterFacesConfigDispenserImpl.java:353-356 | Non-null exactly when the type is registered, in which case it is the registered class. An unknown type gives null, not a failure. |
| FacesConfigDispenser.DigesterFacesConfigDispenser.GetConverterIds | impl/src/main/java/org/apache/myfaces/config/impl/digester/DigesterFacesConfigDispenserImpl.java:361-364 | Exactly the ids for which GetConverterClassById answers non-null. |
| FacesConfigDispenser.DigesterFacesConfigDispenser.GetConverterClasses | impl/src/main/java/org/apache/myfaces/config/impl/digester/DigesterFacesConfigDispenserImpl.java:369-372 | Exactly the target classes, null included, for which GetConverterClassByClass answers non-null. |
| FacesConfigDispenser.DigesterFacesConfigDispenser.GetConverterConfigurationByClassName | impl/src/main/java/org/apache/myfaces/config/impl/digester/DigesterFacesConfigDispenserImpl.java:374-377 | Exactly the converter class names for which GetConverterConfiguration answers non-null. |
| FacesConfigDispenser.DigesterFacesConfigDispenser.GetConverterConfiguration | impl/src/main/java/org/apache/myfaces/config/impl/digester/DigesterFacesConfigDispenserImpl.java:379-382 | Non-null exactly when the class name is known, in which case it is the stored declaration. Otherwise null. |
| FacesConfigDispenser.DigesterFacesConfigDispenser.GetConverterClassById | impl/src/main/java/org/apache/myfaces/config/impl/digester/DigesterFacesConfigDispenserImpl.java:387-390 | Non-null exactly when the id is known, in which case it is the class stored for it. Otherwise null. |
| FacesConfigDispenser.DigesterFacesConfigDispenser.GetConverterClassByClass | impl/src/main/java/org/apache/myfaces/config/impl/digester/DigesterFacesConfigDispenserImpl.java:395-398 | Non-null exactly when the target class (possibly null) is known, in which case it is the class stored for it. Otherwise null. |
| FacesConfigDispenser.DigesterFacesConfigDispenser.GetValidatorIds | impl/src/main/java/org/apache/myfaces/config/impl/digester/DigesterFacesConfigDispenserImpl.java:403-406 | Exactly the validator ids for which GetValidatorClass answers non-null. |
| FacesConfigDispenser.DigesterFacesConfigDispenser.GetValidatorClass | impl/src/main/java/org/apache/myfaces/config/impl/digester/DigesterFacesConfigDispenserImpl.java:411-414 | Non-null exactly when the id is registered, in which case it is the registered class. Otherwise null. |
| FacesConfigDispenser.DigesterFacesConfigDispenser.GetManagedBeans | impl/src/main/java/org/apache/myfaces/config/impl/digester/DigesterFacesConfigDispenserImpl.java:419-422 | Returns the aggregate's managed-bean list. |
| FacesConfigDispenser.DigesterFacesConfigDispenser.GetNavigationRules | impl/src/main/java/org/apache/myfaces/config/impl/digester/DigesterFacesConfigDispenserImpl.java:427-430 | Returns the aggregate's navigation-rule list. |
| FacesConfigDispenser.DigesterFacesConfigDispenser.GetRenderKitIds | impl/src/main/java/org/apache/myfaces/config/impl/digester/DigesterFacesConfigDispenserImpl.java:435-438 | Exactly the registry's key order, which PutRenderKit and PutRenderKitsKeys show grows only by appending each new id once: the ids in first-declaration order, each once. They are exactly the ids for which GetRenderKitClass and GetRenderers succeed. |
| FacesConfigDispenser.DigesterFacesConfigDispenser.GetRenderKitClass | impl/src/main/java/org/apache/myfaces/config/impl/digester/DigesterFacesConfigDispenserImpl.java:443-446 | Fails with a null dereference exactly when the id is unknown. Otherwise it is the class of the merged render kit. |
| FacesConfigDispenser.DigesterFacesConfigDispenser.GetRenderers | impl/src/main/java/org/apache/myfaces/config/impl/digester/DigesterFacesConfigDispenserImpl.java:451-454 | Fails with a null dereference exactly when the id is unknown. Otherwise it is the renderer list of the merged render kit. |
| FacesConfigDispenser.DigesterFacesConfigDispenser.GetLifecyclePhaseListeners | impl/src/main/java/org/apache/myfaces/config/impl/digester/DigesterFacesConfigDispenserImpl.java:459-462 | Returns the aggregate's phase-listener list. |
| FacesConfigDispenser.DigesterFacesConfigDispenser.GetResourceBundles | impl/src/main/java/org/apache/myfaces/config/impl/digester/DigesterFacesConfigDispenserImpl.java:464-467 | Returns the aggregate's resource-bundle list. |
| FacesConfigDispenser.DigesterFacesConfigDispenser.GetElResolvers | impl/src/main/java/org/apache/myfaces/config/impl/digester/DigesterFacesConfigDispenserImpl.java:469-472 | Returns the aggregate's EL-resolver list. |
| FacesConfigDispenser.Lookup | impl/src/main/java/org/apache/myfaces/config/impl/digester/DigesterFacesConfigDispenserImpl.java:355 | `Map.get` is present exactly when the key is in the map, and then it is the mapped value. |
| FacesConfigAggregate.Fed | impl/src/main/java/org/apache/myfaces/config/impl/digester/DigesterFacesConfigDispenserImpl.java:81-161 | Feeding a document keeps the render-kit table well formed: the key order lists every stored id exactly once. |
| Folds.CollectAppend | impl/src/main/java/org/apache/myfaces/config/impl/digester/DigesterFacesConfigDispenserImpl.java:112-120 | Collecting the lists of `xs + ys` is collecting those of xs, followed by those of ys. |
| Folds.CollectLength | impl/src/main/java/org/apache/myfaces/config/impl/digester/DigesterFacesConfigDispenserImpl.java:112-120 | The collected list is as long as all contributed lists together: nothing is dropped or de-duplicated. |
| Folds.LastSuppliedNone | impl/src/main/java/org/apache/myfaces/config/impl/digester/DigesterFacesConfigDispenserImpl.java:96-110 | When no element supplies a value, the setting keeps its old value. |
| Folds.LastSuppliedWins | impl/src/main/java/org/apache/myfaces/config/impl/digester/DigesterFacesConfigDispenserImpl.java:96-110 | When element j is the last to supply a value, the setting ends as the last entry of j's list. |
| Folds.SomeLastSupplier | impl/src/main/java/org/apache/myfaces/config/impl/digester/DigesterFacesConfigDispenserImpl.java:94-110 | If some element supplies a value, there is a last element that does. |
| Folds.LastSuppliedRule | impl/src/main/java/org/apache/myfaces/config/impl/digester/DigesterFacesConfigDispenserImpl.java:94-110 | The whole last-one-wins rule. The value is kept when nothing is supplied. Otherwise a last supplier exists, and the value is the last entry of its list. |
| Folds.LastSuppliedAppend | impl/src/main/java/org/apache/myfaces/config/impl/digester/DigesterFacesConfigDispenserImpl.java:94-110 | Walking `xs + ys` is walking xs, then ys from where xs left off. |
| Folds.PutEachKeys | impl/src/main/java/org/apache/myfaces/config/impl/digester/DigesterFacesConfigDispenserImpl.java:123-135 | After a sequence of `put`s, a key is present exactly when it was already present or some element carries it. |
| Folds.PutEachLastWins | impl/src/main/java/org/apache/myfaces/config/impl/digester/DigesterFacesConfigDispenserImpl.java:123-135 | The last element carrying a key decides that key's value. |
| Folds.PutEachUntouched | impl/src/main/java/org/apache/myfaces/config/impl/digester/DigesterFacesConfigDispenserImpl.java:123-135 | A key that no element carries keeps its old entry, or stays absent. |
| Folds.PutEachAppend | impl/src/main/java/org/apache/myfaces/config/impl/digester/DigesterFacesConfigDispenserImpl.java:123-135 | Putting the entries of `xs + ys` is putting those of xs, then those of ys. |
| RenderKitMerge.FindRenderer | impl/src/main/java/org/apache/myfaces/config/impl/digester/DigesterFacesConfigDispenserImpl.java:154 | The position of the first renderer with a given (family, type), or -1 exactly when there is none. |
| RenderKitMerge.PutRenderer | impl/src/main/java/org/apache/myfaces/config/impl/digester/DigesterFacesConfigDispenserImpl.java:154 | An incoming renderer whose key is known replaces the first stored renderer with that key, in its slot, and every other slot is kept. Otherwise it is appended. The key set gains the incoming key. |
| RenderKitMerge.MergeRenderKit | impl/src/main/java/org/apache/myfaces/config/impl/digester/DigesterFacesConfigDispenserImpl.java:154 | The merged kit keeps the stored id. An incoming class replaces the stored class, and an absent one keeps it. |
| RenderKitMerge.MergeRenderKitRenderers | impl/src/main/java/org/apache/myfaces/config/impl/digester/DigesterFacesConfigDispenserImpl.java:154 | The merged kit's renderers are the stored ones merged with the incoming ones. They carry the keys of both, and stay duplicate-free when the stored list is. |
| RenderKitMerge.PutRendererUnique | impl/src/main/java/org/apache/myfaces/config/impl/digester/DigesterFacesConfigDispenserImpl.java:154 | Putting a renderer keeps a duplicate-free renderer list duplicate-free. |
| RenderKitMerge.MergeRenderersKeys | impl/src/main/java/org/apache/myfaces/config/impl/digester/DigesterFacesConfigDispenserImpl.java:154 | The merged renderers carry exactly the keys of both lists, and stay duplicate-free. |
| RenderKitMerge.MergeRenderersKeepsOthers | impl/src/main/java/org/apache/myfaces/config/impl/digester/DigesterFacesConfigDispenserImpl.java:154 | A stored renderer whose key no incoming renderer has stays at its position. |
| RenderKitMerge.MergeRenderersLastWins | impl/src/main/java/org/apache/myfaces/config/impl/digester/DigesterFacesConfigDispenserImpl.java:154 | The last incoming renderer with a given key is in the merged list, whatever the stored list holds, repeated keys included. |
| RenderKitMerge.SameRendererReplaced | impl/src/main/java/org/apache/myfaces/config/impl/digester/DigesterFacesConfigDispenserImpl.java:154 | When one renderer is declared twice under the same (family, type), the merged kit holds only the later one. |
| RenderKitMerge.DisjointRenderersKept | impl/src/main/java/org/apache/myfaces/config/impl/digester/DigesterFacesConfigDispenserImpl.java:154 | When two renderers have different keys, the merged kit holds both, the earlier one first. |
| RenderKitRegistry.EffectiveId | impl/src/main/java/org/apache/myfaces/config/impl/digester/DigesterFacesConfigDispenserImpl.java:139-144 | A declaration without an id is filed under `HTML_BASIC`. Otherwise it is filed under its own id. |
| RenderKitRegistry.PutRenderKit | impl/src/main/java/org/apache/myfaces/config/impl/digester/DigesterFacesConfigDispenserImpl.java:146-155 | For a new id, the declaration is stored as-is and the id is appended to the key order. For a known id, the stored kit is merged and the key order is unchanged. The table stays well formed. |
| RenderKitRegistry.PutRenderKits | impl/src/main/java/org/apache/myfaces/config/impl/digester/DigesterFacesConfigDispenserImpl.java:137-156 | Filing a sequence of declarations keeps the table well formed. |
| RenderKitRegistry.PutRenderKitsKeys | impl/src/main/java/org/apache/myfaces/config/impl/digester/DigesterFacesConfigDispenserImpl.java:137-156 | The old key order is a prefix of the new one. The known ids are the old ones plus the ids the new declarations are filed under. |
| RenderKitRegistry.KnownIdMerged | impl/src/main/java/org/apache/myfaces/config/impl/digester/DigesterFacesConfigDispenserImpl.java:152-155 | A declaration of a known id never replaces the stored kit. The key set and key order are unchanged, and the entry becomes the merge of the two. |
| RenderKitRegistry.AnonymousKitsShareDefault | impl/src/main/java/org/apache/myfaces/config/impl/digester/DigesterFacesConfigDispenserImpl.java:139-155 | Two declarations without an id share one `HTML_BASIC` entry, the second merged into the first. |
| RenderKitRegistry.PutRenderKitsAppend | impl/src/main/java/org/apache/myfaces/config/impl/digester/DigesterFacesConfigDispenserImpl.java:137-156 | Filing `xs + ys` is filing xs, then ys. |
| FacesConfigRules.FactoryListsCollected | impl/src/main/java/org/apache/myfaces/config/impl/digester/DigesterFacesConfigDispenserImpl.java:83-89 | Each factory list becomes the old list followed by that kind's lists from every `<factory>`, in order. |
| FacesConfigRules.ApplicationValuesLastSupplied | impl/src/main/java/org/apache/myfaces/config/impl/digester/DigesterFacesConfigDispenserImpl.java:94-110 | Each single value follows the last-one-wins rule over the applications. |
| FacesConfigRules.ApplicationListsCollected | impl/src/main/java/org/apache/myfaces/config/impl/digester/DigesterFacesConfigDispenserImpl.java:112-120 | Each of the nine application lists becomes the old list followed by the matching lists of every application, in order. |
| FacesConfigRules.ConverterMapsPut | impl/src/main/java/org/apache/myfaces/config/impl/digester/DigesterFacesConfigDispenserImpl.java:123-135 | Converters are put by id when they have one, otherwise by for-class, and always by converter class, in order. |
| FacesConfigRules.FedRules | impl/src/main/java/org/apache/myfaces/config/impl/digester/DigesterFacesConfigDispenserImpl.java:81-161 | The closed form of feeding, field by field. Lists use Collect, single values LastSupplied and converter maps PutEach. Components and validators are map overrides, the top-level lists are appended, and render kits are filed. |
| FacesConfigRules.SingleValuesRule | impl/src/main/java/org/apache/myfaces/config/impl/digester/DigesterFacesConfigDispenserImpl.java:96-110 | For each single value: it is unchanged if no application supplies one. Otherwise it is the last entry of the last application that does. |
| FacesConfigRules.ComponentsAndValidatorsOverridden | impl/src/main/java/org/apache/myfaces/config/impl/digester/DigesterFacesConfigDispenserImpl.java:91-92 | A key the document declares takes the document's class. Every other key keeps its old class, and no key is lost. |
| FacesConfigRules.ConverterKeys | impl/src/main/java/org/apache/myfaces/config/impl/digester/DigesterFacesConfigDispenserImpl.java:123-135 | An id is known exactly when it was known or some converter declares it. A target class is known exactly when it was known or some converter without an id declares it. |
| FacesConfigRules.ConverterWithIdNotByClass | impl/src/main/java/org/apache/myfaces/config/impl/digester/DigesterFacesConfigDispenserImpl.java:125-132 | A converter with an id never reaches the by-class map, even when it names a for-class. |
| FacesConfigRules.ConverterByIdLastWins | impl/src/main/java/org/apache/myfaces/config/impl/digester/DigesterFacesConfigDispenserImpl.java:125-128 | The last converter declaring an id decides that id's class. |
| FacesConfigRules.ConverterByClassLastWins | impl/src/main/java/org/apache/myfaces/config/impl/digester/DigesterFacesConfigDispenserImpl.java:129-132 | Among converters without an id, the last one naming a target class decides that class's converter. |
| FacesConfigRules.ConverterConfigurationLastWins | impl/src/main/java/org/apache/myfaces/config/impl/digester/DigesterFacesConfigDispenserImpl.java:134 | Every converter is filed under its converter class, and the last one with that class wins. |
| FacesConfigRules.DuplicateListenersKept | impl/src/main/java/org/apache/myfaces/config/impl/digester/DigesterFacesConfigDispenserImpl.java:112 | An action listener named by two applications is kept twice. |
| FacesConfigRules.FeedingTwiceIsFeedingJoined | impl/src/main/java/org/apache/myfaces/config/impl/digester/DigesterFacesConfigDispenserImpl.java:81-161 | Feeding two documents in turn leaves the same aggregate as feeding one document holding both, in that order. |
| ResourceResolution.IndexOf | impl/src/main/java/org/apache/myfaces/el/unified/resolver/ResourceResolver.java:80 | `indexOf` is -1 exactly when the character is absent. Otherwise it is a position holding the character, with no occurrence before it. |
| ResourceResolution.LastIndexOf | impl/src/main/java/org/apache/myfaces/el/unified/resolver/ResourceResolver.java:90 | `lastIndexOf` is -1 exactly when the character is absent. Otherwise it is a position holding the character, with no occurrence after it. |
| ResourceResolution.SplitReference | impl/src/main/java/org/apache/myfaces/el/unified/resolver/ResourceResolver.java:80-100 | The split fails, as malformed, exactly when the reference has two colons. Without a colon the whole reference is the name. With one colon, the colon-free library and name rebuild the reference around the `:`. |
| ResourceResolution.SplitJoin | impl/src/main/java/org/apache/myfaces/el/unified/resolver/ResourceResolver.java:100-112 | Round trip: `lib + ":" + name`, with both colon-free, splits back into `(lib, name)`. |
| ResourceResolution.JoinSplit | impl/src/main/java/org/apache/myfaces/el/unified/resolver/ResourceResolver.java:80-100 | Round trip: a reference that splits is rebuilt exactly by joining its parts. |
| ResourceResolution.NoColonNoLibrary | impl/src/main/java/org/apache/myfaces/el/unified/resolver/ResourceResolver.java:83-87 | A colon-free reference is the resource name, with no library. |
| ResourceResolution.LocateResource | impl/src/main/java/org/apache/myfaces/el/unified/resolver/ResourceResolver.java:80-113 | A malformed split is passed on. The library `this` becomes the composite component's library, or fails when there is no composite component. Any other split is kept as it is. |
| ResourceResolution.ThisIsCompositeLibrary | impl/src/main/java/org/apache/myfaces/el/unified/resolver/ResourceResolver.java:102-109 | `this:name` designates `name` in the composite component's library, whatever that library is. |
| ResourceResolution.OtherLibraryKept | impl/src/main/java/org/apache/myfaces/el/unified/resolver/ResourceResolver.java:100-112 | For colon-free `lib` other than `this` and a colon-free name, `lib:name` designates exactly `(lib, name)`. |
| ResourceResolution.GetCommonPropertyType | impl/src/main/java/org/apache/myfaces/el/unified/resolver/ResourceResolver.java:53-57 | `Object` exactly when the base is null. Otherwise null. |
| ResourceResolution.GetFeatureDescriptors | impl/src/main/java/org/apache/myfaces/el/unified/resolver/ResourceResolver.java:60-64 | Always null. |
| ResourceResolution.GetType | impl/src/main/java/org/apache/myfaces/el/unified/resolver/ResourceResolver.java:67-71 | Always null. |
| ResourceResolution.IsReadOnly | impl/src/main/java/org/apache/myfaces/el/unified/resolver/ResourceResolver.java:132-137 | Always false. |
| ResourceResolution.SetValue | impl/src/main/java/org/apache/myfaces/el/unified/resolver/ResourceResolver.java:140-144 | Has no effect on the EL context. |
| ResourceResolution.GetValue | impl/src/main/java/org/apache/myfaces/el/unified/resolver/ResourceResolver.java:74-123 | A null base, a null property or a base other than a resource handler gives null and leaves the flag alone. A non-string property is a cast failure. A malformed reference, or `this` without a composite component, fails before the flag is set. Otherwise the flag becomes true and the result is the request path of the resource created for the located (library, name), or null when there is no such resource. |

## Left out

- `RenderKit.merge` is not part of this model: RenderKit.java is not among the modelled files. `MergeRenderKit` takes the intended rule for it. An incoming class replaces the stored one. Each incoming renderer replaces, in place, the stored renderer with the same (component family, renderer type), or is appended when there is none. Whether `RenderKit.merge` behaves this way is not checked here.
- Reference sharing is not modelled. Some getters return the internal lists and others return copies, but Dafny sequences are values, so the difference does not show. The same holds for `existing.merge(...)` updating the stored render kit in place: the model replaces the map entry with the merged value.
- Key sets of `HashMap` fields are modelled as sets, because their iteration order is unspecified. Only the render-kit `LinkedHashMap` keeps key order, as `Registry.ids`.
- `FacesConfigDispenser.DigesterFacesConfigDispenser.FeedFactories` and `FacesConfigDispenser.DigesterFacesConfigDispenser.FeedConverters` accumulate into local variables and assign the fields once after the loop. `FeedApplications` and `FeedRenderKits` write the fields on every iteration, as the Java code does. The body of the `<application>` loop is split into one method for the single values and one for the lists. The fields reached at the end of `feed` are the same as in the Java code, which changes them element by element.
- A null converter class is not modelled: `Converter.converterClass` is a non-null string. A null converter id or for-class is modelled as `None`.
- `ResourceResolution.GetValue`: the one-argument `createResource(name)` is modelled as `createResource(name, null)` on the same function. The resource handler's `createResource`, `Resource.getRequestPath` and the composite-component lookup are calls into code outside this model. They are inputs here: a function carried by the base, and the composite component's resource carried by the EL context. A missing composite component, or one without a resource, is a single null-dereference failure.
- The EL exception's message text and the Java exception classes are reduced to the `ResolveError` and `JavaException` constructors.
- Parsing of faces-config documents, the discovery of configuration files on the class path (`DefaultFacesConfigResourceProvider`), `TagValueExpression` and the browser-side `Impl.js` are not part of this model. They are I/O, foreign calls or thin delegation.
