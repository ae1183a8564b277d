/**
 * The rules feeding a document obeys, field by field: every list is the old
 * list followed by the matching lists of the document's elements in order,
 * every single value is the last one supplied, every map is overwritten key
 * by key, and converters are routed by whether they carry an id.
 */
module FacesConfigRules {
  import opened Wrappers
  import opened FacesConfigElements
  import opened Folds
  import opened RenderKitRegistry
  import opened FacesConfigAggregate

  /** Each factory list grows by the matching lists of every `<factory>`, in order. */
  lemma {:induction false} FactoryListsCollected(g: FactoryLists, fs: seq<Factory>)
    ensures AddFactories(g, fs) == FactoryLists(
      g.applicationFactories + Collect(fs, ApplicationFactoryOf),
      g.facesContextFactories + Collect(fs, FacesContextFactoryOf),
      g.lifecycleFactories + Collect(fs, LifecycleFactoryOf),
      g.renderKitFactories + Collect(fs, RenderKitFactoryOf))
  {
    if fs == [] {
      AppendNothing(g.applicationFactories);
      AppendNothing(g.facesContextFactories);
      AppendNothing(g.lifecycleFactories);
      AppendNothing(g.renderKitFactories);
    } else {
      var n := |fs| - 1;
      var prefix := fs[..n];
      FactoryListsCollected(g, prefix);
      var f := fs[n];
      AppendRegroup(g.applicationFactories, Collect(prefix, ApplicationFactoryOf), f.applicationFactory);
      AppendRegroup(g.facesContextFactories, Collect(prefix, FacesContextFactoryOf), f.facesContextFactory);
      AppendRegroup(g.lifecycleFactories, Collect(prefix, LifecycleFactoryOf), f.lifecycleFactory);
      AppendRegroup(g.renderKitFactories, Collect(prefix, RenderKitFactoryOf), f.renderKitFactory);
    }
  }

  /** Each single value is overwritten by the last entry of the last `<application>` that supplies one. */
  lemma {:induction false} ApplicationValuesLastSupplied(g: ApplicationValues, apps: seq<Application>)
    ensures SetAllApplicationValues(g, apps) == ApplicationValues(
      LastSupplied(apps, DefaultRenderKitIdOf, g.defaultRenderKitId),
      LastSupplied(apps, MessageBundleOf, g.messageBundle),
      LastSupplied(apps, LocaleConfigOf, g.localeConfig))
  {
    if apps != [] {
      ApplicationValuesLastSupplied(g, apps[..|apps| - 1]);
    }
  }

  /** Each application list grows by the matching lists of every `<application>`, in order. */
  lemma {:induction false} ApplicationListsCollected(g: ApplicationLists, apps: seq<Application>)
    ensures AddAllApplicationLists(g, apps) == ApplicationLists(
      g.actionListeners + Collect(apps, ActionListenerOf),
      g.navigationHandlers + Collect(apps, NavigationHandlerOf),
      g.resourceHandlers + Collect(apps, ResourceHandlerOf),
      g.viewHandlers + Collect(apps, ViewHandlerOf),
      g.stateManagers + Collect(apps, StateManagerOf),
      g.propertyResolver + Collect(apps, PropertyResolverOf),
      g.variableResolver + Collect(apps, VariableResolverOf),
      g.resourceBundles + Collect(apps, ResourceBundleOf),
      g.elResolvers + Collect(apps, ElResolverOf))
  {
    if apps == [] {
      AppendNothing(g.actionListeners);
      AppendNothing(g.navigationHandlers);
      AppendNothing(g.resourceHandlers);
      AppendNothing(g.viewHandlers);
      AppendNothing(g.stateManagers);
      AppendNothing(g.propertyResolver);
      AppendNothing(g.variableResolver);
      AppendNothing(g.resourceBundles);
      AppendNothing(g.elResolvers);
    } else {
      var n := |apps| - 1;
      var prefix := apps[..n];
      ApplicationListsCollected(g, prefix);
      var app := apps[n];
      AppendRegroup(g.actionListeners, Collect(prefix, ActionListenerOf), app.actionListener);
      AppendRegroup(g.navigationHandlers, Collect(prefix, NavigationHandlerOf), app.navigationHandler);
      AppendRegroup(g.resourceHandlers, Collect(prefix, ResourceHandlerOf), app.resourceHandler);
      AppendRegroup(g.viewHandlers, Collect(prefix, ViewHandlerOf), app.viewHandler);
      AppendRegroup(g.stateManagers, Collect(prefix, StateManagerOf), app.stateManager);
      AppendRegroup(g.propertyResolver, Collect(prefix, PropertyResolverOf), app.propertyResolver);
      AppendRegroup(g.variableResolver, Collect(prefix, VariableResolverOf), app.variableResolver);
      AppendRegroup(g.resourceBundles, Collect(prefix, ResourceBundleOf), app.resourceBundle);
      AppendRegroup(g.elResolvers, Collect(prefix, ElResolverOf), app.elResolver);
    }
  }

  lemma AppendNothing<T>(s: seq<T>)
    ensures s + [] == s
  {
  }

  lemma AppendRegroup<T>(a: seq<T>, b: seq<T>, c: seq<T>)
    ensures (a + b) + c == a + (b + c)
  {
  }

  /**
   * The three converter maps: by id for converters with an id, by for-class
   * (possibly null) for the others, and by converter class for all of them.
   */
  lemma {:induction false} ConverterMapsPut(g: ConverterMaps, cs: seq<Converter>)
    ensures AddConverters(g, cs) == ConverterMaps(
      PutEach(g.converterById, cs, ByIdKey, ClassOf),
      PutEach(g.converterByClass, cs, ByClassKey, ClassOf),
      PutEach(g.converterConfigurationByClassName, cs, ByClassNameKey, Self))
  {
    if cs != [] {
      ConverterMapsPut(g, cs[..|cs| - 1]);
    }
  }

  /** Feeding a document, field by field, in terms of the three accumulation rules. */
  lemma FedRules(a: Aggregate, config: FacesConfig)
    requires a.Valid()
    ensures Fed(a, config) == Aggregate(
      FactoryLists(
        a.factories.applicationFactories + Collect(config.factories, ApplicationFactoryOf),
        a.factories.facesContextFactories + Collect(config.factories, FacesContextFactoryOf),
        a.factories.lifecycleFactories + Collect(config.factories, LifecycleFactoryOf),
        a.factories.renderKitFactories + Collect(config.factories, RenderKitFactoryOf)),
      a.components + config.components,
      a.validators + config.validators,
      ApplicationValues(
        LastSupplied(config.applications, DefaultRenderKitIdOf, a.applicationValues.defaultRenderKitId),
        LastSupplied(config.applications, MessageBundleOf, a.applicationValues.messageBundle),
        LastSupplied(config.applications, LocaleConfigOf, a.applicationValues.localeConfig)),
      ApplicationLists(
        a.applicationLists.actionListeners + Collect(config.applications, ActionListenerOf),
        a.applicationLists.navigationHandlers + Collect(config.applications, NavigationHandlerOf),
        a.applicationLists.resourceHandlers + Collect(config.applications, ResourceHandlerOf),
        a.applicationLists.viewHandlers + Collect(config.applications, ViewHandlerOf),
        a.applicationLists.stateManagers + Collect(config.applications, StateManagerOf),
        a.applicationLists.propertyResolver + Collect(config.applications, PropertyResolverOf),
        a.applicationLists.variableResolver + Collect(config.applications, VariableResolverOf),
        a.applicationLists.resourceBundles + Collect(config.applications, ResourceBundleOf),
        a.applicationLists.elResolvers + Collect(config.applications, ElResolverOf)),
      ConverterMaps(
        PutEach(a.converters.converterById, config.converters, ByIdKey, ClassOf),
        PutEach(a.converters.converterByClass, config.converters, ByClassKey, ClassOf),
        PutEach(a.converters.converterConfigurationByClassName, config.converters, ByClassNameKey, Self)),
      PutRenderKits(a.renderKits, config.renderKits),
      a.lifecyclePhaseListeners + config.lifecyclePhaseListener,
      a.managedBeans + config.managedBeans,
      a.navigationRules + config.navigationRules)
  {
    FactoryListsCollected(a.factories, config.factories);
    ApplicationValuesLastSupplied(a.applicationValues, config.applications);
    ApplicationListsCollected(a.applicationLists, config.applications);
    ConverterMapsPut(a.converters, config.converters);
  }

  /**
   * The three single values: each keeps its old value when no `<application>`
   * supplies one, and otherwise becomes the last entry of the last
   * `<application>` that supplies one.
   */
  lemma SingleValuesRule(a: Aggregate, config: FacesConfig)
    requires a.Valid()
    ensures var apps, r := config.applications, Fed(a, config).applicationValues;
      && (NoneSupplied(apps, DefaultRenderKitIdOf) ==> r.defaultRenderKitId == a.applicationValues.defaultRenderKitId)
      && (forall j :: LastSupplier(apps, DefaultRenderKitIdOf, j) ==> r.defaultRenderKitId == Some(Last(apps[j].defaultRenderKitId)))
      && (NoneSupplied(apps, MessageBundleOf) ==> r.messageBundle == a.applicationValues.messageBundle)
      && (forall j :: LastSupplier(apps, MessageBundleOf, j) ==> r.messageBundle == Some(Last(apps[j].messageBundle)))
      && (NoneSupplied(apps, LocaleConfigOf) ==> r.localeConfig == a.applicationValues.localeConfig)
      && (forall j :: LastSupplier(apps, LocaleConfigOf, j) ==> r.localeConfig == Some(Last(apps[j].localeConfig)))
  {
    FedRules(a, config);
    LastSuppliedRule(config.applications, DefaultRenderKitIdOf, a.applicationValues.defaultRenderKitId);
    LastSuppliedRule(config.applications, MessageBundleOf, a.applicationValues.messageBundle);
    LastSuppliedRule(config.applications, LocaleConfigOf, a.applicationValues.localeConfig);
  }

  /**
   * Components and validators: a key the document declares takes the
   * document's class, every other key keeps its old class, and no key is lost.
   */
  lemma ComponentsAndValidatorsOverridden(a: Aggregate, config: FacesConfig, key: string)
    requires a.Valid()
    ensures var r := Fed(a, config);
      && (key in r.components <==> key in a.components || key in config.components)
      && (key in config.components ==> r.components[key] == config.components[key])
      && (key !in config.components && key in a.components ==> r.components[key] == a.components[key])
      && (key in r.validators <==> key in a.validators || key in config.validators)
      && (key in config.validators ==> r.validators[key] == config.validators[key])
      && (key !in config.validators && key in a.validators ==> r.validators[key] == a.validators[key])
  {
  }

  /**
   * Converter routing, by key: an id is known afterwards exactly when it was
   * known or some converter declares it; a target class (possibly null) is
   * known exactly when it was known or some converter WITHOUT an id declares
   * it, so a converter with an id never reaches the by-class map.
   */
  lemma ConverterKeys(a: Aggregate, config: FacesConfig, id: string, forClass: Option<string>)
    requires a.Valid()
    ensures var cs, r := config.converters, Fed(a, config).converters;
      && (id in r.converterById <==>
            id in a.converters.converterById || exists i :: 0 <= i < |cs| && cs[i].converterId == Some(id))
      && (forClass in r.converterByClass <==>
            forClass in a.converters.converterByClass ||
            exists i :: 0 <= i < |cs| && cs[i].converterId.None? && cs[i].forClass == forClass)
  {
    var cs := config.converters;
    FedRules(a, config);
    PutEachKeys(a.converters.converterById, cs, ByIdKey, ClassOf, id);
    PutEachKeys(a.converters.converterByClass, cs, ByClassKey, ClassOf, forClass);
    assert forall i :: 0 <= i < |cs| ==> (ByClassKey(cs[i]) == Some(forClass) <==> cs[i].converterId.None? && cs[i].forClass == forClass);
  }

  /**
   * A target class that only converters with an id mention keeps its old
   * by-class entry (or stays absent): declaring an id takes a converter out of
   * by-class routing even when it names a for-class.
   */
  lemma ConverterWithIdNotByClass(a: Aggregate, config: FacesConfig, forClass: Option<string>)
    requires a.Valid()
    requires forall i :: 0 <= i < |config.converters| && config.converters[i].forClass == forClass ==>
               config.converters[i].converterId.Some?
    ensures var r := Fed(a, config).converters;
      && (forClass in r.converterByClass <==> forClass in a.converters.converterByClass)
      && (forClass in a.converters.converterByClass ==>
            r.converterByClass[forClass] == a.converters.converterByClass[forClass])
  {
    FedRules(a, config);
    PutEachUntouched(a.converters.converterByClass, config.converters, ByClassKey, ClassOf, forClass);
  }

  /** The last converter declaring an id decides that id's class. */
  lemma ConverterByIdLastWins(a: Aggregate, config: FacesConfig, j: int)
    requires a.Valid()
    requires 0 <= j < |config.converters| && config.converters[j].converterId.Some?
    requires forall i :: j < i < |config.converters| ==> config.converters[i].converterId != config.converters[j].converterId
    ensures var c, r := config.converters[j], Fed(a, config).converters;
      c.converterId.value in r.converterById && r.converterById[c.converterId.value] == c.converterClass
  {
    FedRules(a, config);
    PutEachLastWins(a.converters.converterById, config.converters, ByIdKey, ClassOf, j);
  }

  /** The last converter without an id naming a target class decides that class's converter. */
  lemma ConverterByClassLastWins(a: Aggregate, config: FacesConfig, j: int)
    requires a.Valid()
    requires 0 <= j < |config.converters| && config.converters[j].converterId.None?
    requires forall i :: j < i < |config.converters| && config.converters[i].converterId.None? ==>
               config.converters[i].forClass != config.converters[j].forClass
    ensures var c, r := config.converters[j], Fed(a, config).converters;
      c.forClass in r.converterByClass && r.converterByClass[c.forClass] == c.converterClass
  {
    FedRules(a, config);
    PutEachLastWins(a.converters.converterByClass, config.converters, ByClassKey, ClassOf, j);
  }

  /** Every converter is filed under its converter class; the last one with that class wins. */
  lemma ConverterConfigurationLastWins(a: Aggregate, config: FacesConfig, j: int)
    requires a.Valid()
    requires 0 <= j < |config.converters|
    requires forall i :: j < i < |config.converters| ==>
               config.converters[i].converterClass != config.converters[j].converterClass
    ensures var c, r := config.converters[j], Fed(a, config).converters;
      c.converterClass in r.converterConfigurationByClassName && r.converterConfigurationByClassName[c.converterClass] == c
  {
    FedRules(a, config);
    PutEachLastWins(a.converters.converterConfigurationByClassName, config.converters, ByClassNameKey, Self, j);
  }

  /** Lists are not de-duplicated: an action listener named by two applications is kept twice. */
  lemma DuplicateListenersKept(a: Aggregate, config: FacesConfig, listener: string)
    requires a.Valid()
    requires |config.applications| == 2
    requires config.applications[0].actionListener == [listener]
    requires config.applications[1].actionListener == [listener]
    ensures Fed(a, config).applicationLists.actionListeners == a.applicationLists.actionListeners + [listener, listener]
  {
    var apps := config.applications;
    FedRules(a, config);
    assert apps == [apps[0]] + [apps[1]];
    CollectAppend([apps[0]], [apps[1]], ActionListenerOf);
    CollectOne(apps[0], ActionListenerOf);
    CollectOne(apps[1], ActionListenerOf);
  }

  /** One document holding the elements of `first` followed by those of `second`. */
  function Joined(first: FacesConfig, second: FacesConfig): (joined: FacesConfig)
    ensures |joined.applications| == |first.applications| + |second.applications|
    ensures joined.components.Keys == first.components.Keys + second.components.Keys
  {
    FacesConfig(
      first.factories + second.factories,
      first.components + second.components,
      first.validators + second.validators,
      first.applications + second.applications,
      first.converters + second.converters,
      first.renderKits + second.renderKits,
      first.lifecyclePhaseListener + second.lifecyclePhaseListener,
      first.managedBeans + second.managedBeans,
      first.navigationRules + second.navigationRules)
  }

  lemma {:induction false} AddFactoriesAppend(g: FactoryLists, xs: seq<Factory>, ys: seq<Factory>)
    ensures AddFactories(g, xs + ys) == AddFactories(AddFactories(g, xs), ys)
  {
    if ys == [] {
      assert xs + ys == xs;
    } else {
      var n := |ys| - 1;
      assert (xs + ys)[..|xs + ys| - 1] == xs + ys[..n];
      assert (xs + ys)[|xs + ys| - 1] == ys[n];
      AddFactoriesAppend(g, xs, ys[..n]);
    }
  }

  lemma {:induction false} SetAllApplicationValuesAppend(g: ApplicationValues, xs: seq<Application>, ys: seq<Application>)
    ensures SetAllApplicationValues(g, xs + ys) == SetAllApplicationValues(SetAllApplicationValues(g, xs), ys)
  {
    if ys == [] {
      assert xs + ys == xs;
    } else {
      var n := |ys| - 1;
      assert (xs + ys)[..|xs + ys| - 1] == xs + ys[..n];
      assert (xs + ys)[|xs + ys| - 1] == ys[n];
      SetAllApplicationValuesAppend(g, xs, ys[..n]);
    }
  }

  lemma {:induction false} AddAllApplicationListsAppend(g: ApplicationLists, xs: seq<Application>, ys: seq<Application>)
    ensures AddAllApplicationLists(g, xs + ys) == AddAllApplicationLists(AddAllApplicationLists(g, xs), ys)
  {
    if ys == [] {
      assert xs + ys == xs;
    } else {
      var n := |ys| - 1;
      assert (xs + ys)[..|xs + ys| - 1] == xs + ys[..n];
      assert (xs + ys)[|xs + ys| - 1] == ys[n];
      AddAllApplicationListsAppend(g, xs, ys[..n]);
    }
  }

  lemma {:induction false} AddConvertersAppend(g: ConverterMaps, xs: seq<Converter>, ys: seq<Converter>)
    ensures AddConverters(g, xs + ys) == AddConverters(AddConverters(g, xs), ys)
  {
    if ys == [] {
      assert xs + ys == xs;
    } else {
      var n := |ys| - 1;
      assert (xs + ys)[..|xs + ys| - 1] == xs + ys[..n];
      assert (xs + ys)[|xs + ys| - 1] == ys[n];
      AddConvertersAppend(g, xs, ys[..n]);
    }
  }

  lemma MapOverrideRegroup<K, V>(m: map<K, V>, first: map<K, V>, second: map<K, V>)
    ensures (m + first) + second == m + (first + second)
  {
  }

  /**
   * Feeding is incremental: feeding two documents one after the other leaves
   * the same aggregate as feeding one document holding both, in that order.
   */
  lemma FeedingTwiceIsFeedingJoined(a: Aggregate, first: FacesConfig, second: FacesConfig)
    requires a.Valid()
    ensures Fed(Fed(a, first), second) == Fed(a, Joined(first, second))
  {
    AddFactoriesAppend(a.factories, first.factories, second.factories);
    SetAllApplicationValuesAppend(a.applicationValues, first.applications, second.applications);
    AddAllApplicationListsAppend(a.applicationLists, first.applications, second.applications);
    AddConvertersAppend(a.converters, first.converters, second.converters);
    PutRenderKitsAppend(a.renderKits, first.renderKits, second.renderKits);
    MapOverrideRegroup(a.components, first.components, second.components);
    MapOverrideRegroup(a.validators, first.validators, second.validators);
    AppendRegroup(a.lifecyclePhaseListeners, first.lifecyclePhaseListener, second.lifecyclePhaseListener);
    AppendRegroup(a.managedBeans, first.managedBeans, second.managedBeans);
    AppendRegroup(a.navigationRules, first.navigationRules, second.navigationRules);
  }
}
