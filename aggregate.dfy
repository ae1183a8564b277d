/**
 * The dispenser's state as a value, and what feeding a document does to it,
 * as a specification for the dispenser class. Feeding walks the document in
 * the same order as the class does: factories, component and validator maps,
 * applications, converters, render kits, then the top-level lists.
 */
module FacesConfigAggregate {
  import opened Wrappers
  import opened FacesConfigElements
  import opened Folds
  import opened RenderKitMerge
  import opened RenderKitRegistry

  /** The four factory lists. */
  datatype FactoryLists = FactoryLists(
    applicationFactories: seq<string>,
    facesContextFactories: seq<string>,
    lifecycleFactories: seq<string>,
    renderKitFactories: seq<string>)

  /** The three single values `<application>` elements set. */
  datatype ApplicationValues = ApplicationValues(
    defaultRenderKitId: Option<string>,
    messageBundle: Option<string>,
    localeConfig: Option<LocaleConfig>)

  /** The nine lists `<application>` elements extend. */
  datatype ApplicationLists = ApplicationLists(
    actionListeners: seq<string>,
    navigationHandlers: seq<string>,
    resourceHandlers: seq<string>,
    viewHandlers: seq<string>,
    stateManagers: seq<string>,
    propertyResolver: seq<string>,
    variableResolver: seq<string>,
    resourceBundles: seq<ResourceBundle>,
    elResolvers: seq<string>)

  /** The three converter maps. */
  datatype ConverterMaps = ConverterMaps(
    converterById: map<string, string>,
    converterByClass: map<Option<string>, string>,
    converterConfigurationByClassName: map<string, Converter>)

  datatype Aggregate = Aggregate(
    factories: FactoryLists,
    components: map<string, string>,
    validators: map<string, string>,
    applicationValues: ApplicationValues,
    applicationLists: ApplicationLists,
    converters: ConverterMaps,
    renderKits: Registry,
    lifecyclePhaseListeners: seq<string>,
    managedBeans: seq<ManagedBean>,
    navigationRules: seq<NavigationRule>)
  {
    ghost predicate Valid() {
      renderKits.Valid()
    }
  }

  /** Nothing fed yet: every list and map empty, every single value null. */
  const Initial: Aggregate := Aggregate(
    FactoryLists([], [], [], []), map[], map[],
    ApplicationValues(None, None, None), ApplicationLists([], [], [], [], [], [], [], [], []),
    ConverterMaps(map[], map[], map[]), RenderKitRegistry.Empty, [], [], [])

  // The lists each element contributes, as functions for the folds.
  function ApplicationFactoryOf(f: Factory): seq<string> { f.applicationFactory }
  function FacesContextFactoryOf(f: Factory): seq<string> { f.facesContextFactory }
  function LifecycleFactoryOf(f: Factory): seq<string> { f.lifecycleFactory }
  function RenderKitFactoryOf(f: Factory): seq<string> { f.renderKitFactory }

  function DefaultRenderKitIdOf(a: Application): seq<string> { a.defaultRenderKitId }
  function MessageBundleOf(a: Application): seq<string> { a.messageBundle }
  function LocaleConfigOf(a: Application): seq<LocaleConfig> { a.localeConfig }
  function ActionListenerOf(a: Application): seq<string> { a.actionListener }
  function NavigationHandlerOf(a: Application): seq<string> { a.navigationHandler }
  function ResourceHandlerOf(a: Application): seq<string> { a.resourceHandler }
  function ViewHandlerOf(a: Application): seq<string> { a.viewHandler }
  function StateManagerOf(a: Application): seq<string> { a.stateManager }
  function PropertyResolverOf(a: Application): seq<string> { a.propertyResolver }
  function VariableResolverOf(a: Application): seq<string> { a.variableResolver }
  function ResourceBundleOf(a: Application): seq<ResourceBundle> { a.resourceBundle }
  function ElResolverOf(a: Application): seq<string> { a.elResolver }

  // Where a converter is filed: by id when it has one, otherwise by the
  // class it converts (which may itself be null); always by its class name.
  function ByIdKey(c: Converter): Option<string> { c.converterId }
  function ByClassKey(c: Converter): Option<Option<string>> { if c.converterId.None? then Some(c.forClass) else None }
  function ByClassNameKey(c: Converter): Option<string> { Some(c.converterClass) }
  function ClassOf(c: Converter): string { c.converterClass }
  function Self(c: Converter): Converter { c }

  /** One `<factory>` element: each of its four lists is appended to the matching list. */
  function AddFactory(g: FactoryLists, f: Factory): FactoryLists
  {
    FactoryLists(
      g.applicationFactories + f.applicationFactory,
      g.facesContextFactories + f.facesContextFactory,
      g.lifecycleFactories + f.lifecycleFactory,
      g.renderKitFactories + f.renderKitFactory)
  }

  function AddFactories(g: FactoryLists, fs: seq<Factory>): FactoryLists
  {
    if fs == [] then g else AddFactory(AddFactories(g, fs[..|fs| - 1]), fs[|fs| - 1])
  }

  lemma AddFactoriesStep(g: FactoryLists, fs: seq<Factory>, i: nat)
    requires i < |fs|
    ensures AddFactories(g, fs[..i + 1]) == AddFactory(AddFactories(g, fs[..i]), fs[i])
  {
    assert fs[..i + 1][..i] == fs[..i];
  }

  /** A single-valued setting: overwritten by the last entry of a non-empty list. */
  function Overwrite<T>(current: Option<T>, supplied: seq<T>): Option<T>
  {
    if supplied != [] then Some(Last(supplied)) else current
  }

  /** One `<application>` element: each single value it supplies replaces the stored one. */
  function SetApplicationValues(g: ApplicationValues, app: Application): ApplicationValues
  {
    ApplicationValues(
      Overwrite(g.defaultRenderKitId, app.defaultRenderKitId),
      Overwrite(g.messageBundle, app.messageBundle),
      Overwrite(g.localeConfig, app.localeConfig))
  }

  function SetAllApplicationValues(g: ApplicationValues, apps: seq<Application>): ApplicationValues
  {
    if apps == [] then g else SetApplicationValues(SetAllApplicationValues(g, apps[..|apps| - 1]), apps[|apps| - 1])
  }

  lemma SetAllApplicationValuesStep(g: ApplicationValues, apps: seq<Application>, i: nat)
    requires i < |apps|
    ensures SetAllApplicationValues(g, apps[..i + 1]) == SetApplicationValues(SetAllApplicationValues(g, apps[..i]), apps[i])
  {
    assert apps[..i + 1][..i] == apps[..i];
  }

  /** One `<application>` element: each of its nine lists is appended to the matching list. */
  function AddApplicationLists(g: ApplicationLists, app: Application): ApplicationLists
  {
    ApplicationLists(
      g.actionListeners + app.actionListener,
      g.navigationHandlers + app.navigationHandler,
      g.resourceHandlers + app.resourceHandler,
      g.viewHandlers + app.viewHandler,
      g.stateManagers + app.stateManager,
      g.propertyResolver + app.propertyResolver,
      g.variableResolver + app.variableResolver,
      g.resourceBundles + app.resourceBundle,
      g.elResolvers + app.elResolver)
  }

  function AddAllApplicationLists(g: ApplicationLists, apps: seq<Application>): ApplicationLists
  {
    if apps == [] then g else AddApplicationLists(AddAllApplicationLists(g, apps[..|apps| - 1]), apps[|apps| - 1])
  }

  lemma AddAllApplicationListsStep(g: ApplicationLists, apps: seq<Application>, i: nat)
    requires i < |apps|
    ensures AddAllApplicationLists(g, apps[..i + 1]) == AddApplicationLists(AddAllApplicationLists(g, apps[..i]), apps[i])
  {
    assert apps[..i + 1][..i] == apps[..i];
  }

  /** One `<converter>`: filed by id if it has one, else by for-class; always by class name. */
  function AddConverter(g: ConverterMaps, c: Converter): ConverterMaps
  {
    ConverterMaps(
      if c.converterId.Some? then g.converterById[c.converterId.value := c.converterClass] else g.converterById,
      if c.converterId.Some? then g.converterByClass else g.converterByClass[c.forClass := c.converterClass],
      g.converterConfigurationByClassName[c.converterClass := c])
  }

  function AddConverters(g: ConverterMaps, cs: seq<Converter>): ConverterMaps
  {
    if cs == [] then g else AddConverter(AddConverters(g, cs[..|cs| - 1]), cs[|cs| - 1])
  }

  lemma AddConvertersStep(g: ConverterMaps, cs: seq<Converter>, i: nat)
    requires i < |cs|
    ensures AddConverters(g, cs[..i + 1]) == AddConverter(AddConverters(g, cs[..i]), cs[i])
  {
    assert cs[..i + 1][..i] == cs[..i];
  }

  /** Feeding one whole document. */
  function Fed(a: Aggregate, config: FacesConfig): (r: Aggregate)
    requires a.Valid()
    ensures r.Valid()
  {
    Aggregate(
      AddFactories(a.factories, config.factories),
      a.components + config.components,
      a.validators + config.validators,
      SetAllApplicationValues(a.applicationValues, config.applications),
      AddAllApplicationLists(a.applicationLists, config.applications),
      AddConverters(a.converters, config.converters),
      PutRenderKits(a.renderKits, config.renderKits),
      a.lifecyclePhaseListeners + config.lifecyclePhaseListener,
      a.managedBeans + config.managedBeans,
      a.navigationRules + config.navigationRules)
  }
}
