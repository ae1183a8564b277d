/**
 * The faces-config dispenser: it folds any number of parsed faces-config
 * documents, in the order they are fed, into one aggregate and answers
 * queries about it. Each method is specified by the value-level fold in
 * FacesConfigAggregate; the rules that fold obeys are proved in
 * FacesConfigRules.
 */
module FacesConfigDispenser {
  import opened Wrappers
  import opened FacesConfigElements
  import opened RenderKitMerge
  import opened RenderKitRegistry
  import opened FacesConfigAggregate

  /** The unchecked exceptions the queries can end in. */
  datatype JavaException = NullPointerException

  /** `map.get(key)`: the entry, or None (Java null) when the key is absent. */
  function Lookup<K, V>(m: map<K, V>, key: K): (r: Option<V>)
    ensures r.Some? <==> key in m
    ensures r.Some? ==> r.value == m[key]
  {
    if key in m then Some(m[key]) else None
  }

  class DigesterFacesConfigDispenser {
    var applicationFactories: seq<string>
    var facesContextFactories: seq<string>
    var lifecycleFactories: seq<string>
    var renderKitFactories: seq<string>
    var components: map<string, string>
    var validators: map<string, string>
    var defaultRenderKitId: Option<string>
    var localeConfig: Option<LocaleConfig>
    var actionListeners: seq<string>
    var lifecyclePhaseListeners: seq<string>
    var messageBundle: Option<string>
    var navigationHandlers: seq<string>
    var viewHandlers: seq<string>
    var resourceHandlers: seq<string>
    var stateManagers: seq<string>
    var propertyResolver: seq<string>
    var variableResolver: seq<string>
    var converterById: map<string, string>
    var converterByClass: map<Option<string>, string>
    var converterConfigurationByClassName: map<string, Converter>
    var renderKits: Registry
    var managedBeans: seq<ManagedBean>
    var navigationRules: seq<NavigationRule>
    var resourceBundles: seq<ResourceBundle>
    var elResolvers: seq<string>

    /** The four factory-list fields, as one value. */
    ghost function FactoryPart(): FactoryLists
      reads this
    {
      FactoryLists(applicationFactories, facesContextFactories, lifecycleFactories, renderKitFactories)
    }

    /** The single values `<application>` elements set, as one value. */
    ghost function ApplicationValuesPart(): ApplicationValues
      reads this`defaultRenderKitId, this`messageBundle, this`localeConfig
    {
      ApplicationValues(defaultRenderKitId, messageBundle, localeConfig)
    }

    /** The lists `<application>` elements extend, as one value. */
    ghost function ApplicationListsPart(): ApplicationLists
      reads this`actionListeners, this`navigationHandlers, this`resourceHandlers, this`viewHandlers,
        this`stateManagers, this`propertyResolver, this`variableResolver, this`resourceBundles, this`elResolvers
    {
      ApplicationLists(
        actionListeners, navigationHandlers, resourceHandlers, viewHandlers, stateManagers,
        propertyResolver, variableResolver, resourceBundles, elResolvers)
    }

    /** The three converter maps, as one value. */
    ghost function ConverterPart(): ConverterMaps
      reads this
    {
      ConverterMaps(converterById, converterByClass, converterConfigurationByClassName)
    }

    /** All fields, as one value. */
    ghost function Snapshot(): Aggregate
      reads this
    {
      Aggregate(
        FactoryPart(), components, validators, ApplicationValuesPart(), ApplicationListsPart(), ConverterPart(),
        renderKits, lifecyclePhaseListeners, managedBeans, navigationRules)
    }

    /** The render-kit key order lists every render kit id exactly once. */
    ghost predicate Valid()
      reads this
    {
      renderKits.Valid()
    }

    /** A fresh dispenser: every list and map empty, every single value null. */
    constructor ()
      ensures Valid() && Snapshot() == Initial
    {
      applicationFactories, facesContextFactories, lifecycleFactories, renderKitFactories := [], [], [], [];
      components, validators := map[], map[];
      defaultRenderKitId, localeConfig, messageBundle := None, None, None;
      actionListeners, lifecyclePhaseListeners, navigationHandlers, viewHandlers := [], [], [], [];
      resourceHandlers, stateManagers, propertyResolver, variableResolver := [], [], [], [];
      converterById, converterByClass, converterConfigurationByClassName := map[], map[], map[];
      renderKits := RenderKitRegistry.Empty;
      managedBeans, navigationRules, resourceBundles, elResolvers := [], [], [], [];
    }

    /** Adds one more parsed faces-config document to the aggregate. */
    method Feed(config: FacesConfig)
      requires Valid()
      modifies this
      ensures Valid()
      ensures Snapshot() == Fed(old(Snapshot()), config)
    {
      ghost var s := Snapshot();
      FeedFactories(config.factories);
      s := s.(factories := FactoryPart());
      assert Snapshot() == s;
      components := components + config.components;
      validators := validators + config.validators;
      s := s.(components := components, validators := validators);
      assert Snapshot() == s;
      FeedApplications(config.applications);
      s := s.(applicationValues := ApplicationValuesPart(), applicationLists := ApplicationListsPart());
      assert Snapshot() == s;
      FeedConverters(config.converters);
      s := s.(converters := ConverterPart());
      assert Snapshot() == s;
      FeedRenderKits(config.renderKits);
      s := s.(renderKits := renderKits);
      assert Snapshot() == s;
      lifecyclePhaseListeners := lifecyclePhaseListeners + config.lifecyclePhaseListener;
      managedBeans := managedBeans + config.managedBeans;
      navigationRules := navigationRules + config.navigationRules;
    }

    /** The `<factory>` loop of Feed. */
    method FeedFactories(factories: seq<Factory>)
      modifies this`applicationFactories, this`facesContextFactories, this`lifecycleFactories, this`renderKitFactories
      ensures FactoryPart() == AddFactories(old(FactoryPart()), factories)
    {
      ghost var init := FactoryPart();
      var application, facesContext, lifecycle, renderKit :=
        applicationFactories, facesContextFactories, lifecycleFactories, renderKitFactories;
      for i := 0 to |factories|
        invariant FactoryLists(application, facesContext, lifecycle, renderKit) == AddFactories(init, factories[..i])
      {
        var factory := factories[i];
        AddFactoriesStep(init, factories, i);
        application := application + factory.applicationFactory;
        facesContext := facesContext + factory.facesContextFactory;
        lifecycle := lifecycle + factory.lifecycleFactory;
        renderKit := renderKit + factory.renderKitFactory;
      }
      assert factories[..|factories|] == factories;
      applicationFactories, facesContextFactories, lifecycleFactories, renderKitFactories :=
        application, facesContext, lifecycle, renderKit;
    }

    /** The `<application>` loop of Feed. */
    method FeedApplications(applications: seq<Application>)
      modifies this`defaultRenderKitId, this`messageBundle, this`localeConfig, this`actionListeners,
        this`navigationHandlers, this`resourceHandlers, this`viewHandlers, this`stateManagers,
        this`propertyResolver, this`variableResolver, this`resourceBundles, this`elResolvers
      ensures ApplicationValuesPart() == SetAllApplicationValues(old(ApplicationValuesPart()), applications)
      ensures ApplicationListsPart() == AddAllApplicationLists(old(ApplicationListsPart()), applications)
    {
      for i := 0 to |applications|
        invariant ApplicationValuesPart() == SetAllApplicationValues(old(ApplicationValuesPart()), applications[..i])
        invariant ApplicationListsPart() == AddAllApplicationLists(old(ApplicationListsPart()), applications[..i])
      {
        SetAllApplicationValuesStep(old(ApplicationValuesPart()), applications, i);
        AddAllApplicationListsStep(old(ApplicationListsPart()), applications, i);
        FeedApplicationValues(applications[i]);
        FeedApplicationLists(applications[i]);
      }
      assert applications[..|applications|] == applications;
    }

    /** The body of the `<application>` loop for one element: the single values it sets. */
    method FeedApplicationValues(application: Application)
      modifies this`defaultRenderKitId, this`messageBundle, this`localeConfig
      ensures ApplicationValuesPart() == SetApplicationValues(old(ApplicationValuesPart()), application)
    {
      if application.defaultRenderKitId != [] {
        defaultRenderKitId := Some(application.defaultRenderKitId[|application.defaultRenderKitId| - 1]);
      }
      if application.messageBundle != [] {
        messageBundle := Some(application.messageBundle[|application.messageBundle| - 1]);
      }
      if application.localeConfig != [] {
        localeConfig := Some(application.localeConfig[|application.localeConfig| - 1]);
      }
    }

    /** The body of the `<application>` loop for one element: the lists it extends. */
    method FeedApplicationLists(application: Application)
      modifies this`actionListeners, this`navigationHandlers, this`resourceHandlers, this`viewHandlers,
        this`stateManagers, this`propertyResolver, this`variableResolver, this`resourceBundles, this`elResolvers
      ensures ApplicationListsPart() == AddApplicationLists(old(ApplicationListsPart()), application)
    {
      actionListeners := actionListeners + application.actionListener;
      navigationHandlers := navigationHandlers + application.navigationHandler;
      resourceHandlers := resourceHandlers + application.resourceHandler;
      viewHandlers := viewHandlers + application.viewHandler;
      stateManagers := stateManagers + application.stateManager;
      propertyResolver := propertyResolver + application.propertyResolver;
      variableResolver := variableResolver + application.variableResolver;
      resourceBundles := resourceBundles + application.resourceBundle;
      elResolvers := elResolvers + application.elResolver;
    }

    /** The `<converter>` loop of Feed. */
    method FeedConverters(converters: seq<Converter>)
      modifies this`converterById, this`converterByClass, this`converterConfigurationByClassName
      ensures ConverterPart() == AddConverters(old(ConverterPart()), converters)
    {
      ghost var init := ConverterPart();
      var byId, byClass, byClassName := converterById, converterByClass, converterConfigurationByClassName;
      for i := 0 to |converters|
        invariant ConverterMaps(byId, byClass, byClassName) == AddConverters(init, converters[..i])
      {
        var converter := converters[i];
        AddConvertersStep(init, converters, i);
        if converter.converterId.Some? {
          byId := byId[converter.converterId.value := converter.converterClass];
        } else {
          byClass := byClass[converter.forClass := converter.converterClass];
        }
        byClassName := byClassName[converter.converterClass := converter];
      }
      assert converters[..|converters|] == converters;
      converterById, converterByClass, converterConfigurationByClassName := byId, byClass, byClassName;
    }

    /** The `<render-kit>` loop of Feed. */
    method FeedRenderKits(declared: seq<RenderKit>)
      requires Valid()
      modifies this`renderKits
      ensures Valid()
      ensures renderKits == PutRenderKits(old(renderKits), declared)
    {
      for i := 0 to |declared|
        invariant renderKits.Valid()
        invariant renderKits == PutRenderKits(old(renderKits), declared[..i])
      {
        var renderKit := declared[i];
        PutRenderKitsStep(old(renderKits), declared, i);
        var renderKitId := EffectiveId(renderKit);
        if renderKitId !in renderKits.kits {
          renderKits := Registry(renderKits.ids + [renderKitId], renderKits.kits[renderKitId := renderKit]);
        } else {
          var existing := renderKits.kits[renderKitId];
          renderKits := renderKits.(kits := renderKits.kits[renderKitId := MergeRenderKit(existing, renderKit)]);
        }
      }
      assert declared[..|declared|] == declared;
    }

    /** Registers one more application factory class name; nothing else changes. */
    method FeedApplicationFactory(factoryClassName: string)
      modifies this`applicationFactories
      ensures applicationFactories == old(applicationFactories) + [factoryClassName]
    {
      applicationFactories := applicationFactories + [factoryClassName];
    }

    /** Registers one more faces-context factory class name; nothing else changes. */
    method FeedFacesContextFactory(factoryClassName: string)
      modifies this`facesContextFactories
      ensures facesContextFactories == old(facesContextFactories) + [factoryClassName]
    {
      facesContextFactories := facesContextFactories + [factoryClassName];
    }

    /** Registers one more lifecycle factory class name; nothing else changes. */
    method FeedLifecycleFactory(factoryClassName: string)
      modifies this`lifecycleFactories
      ensures lifecycleFactories == old(lifecycleFactories) + [factoryClassName]
    {
      lifecycleFactories := lifecycleFactories + [factoryClassName];
    }

    /** Registers one more render-kit factory class name; nothing else changes. */
    method FeedRenderKitFactory(factoryClassName: string)
      modifies this`renderKitFactories
      ensures renderKitFactories == old(renderKitFactories) + [factoryClassName]
    {
      renderKitFactories := renderKitFactories + [factoryClassName];
    }

    // Queries. The list getters hand back what has been accumulated so far,
    // in feed order; the map getters answer from the merged maps.

    function GetApplicationFactoryIterator(): (r: seq<string>)
      reads this
      ensures r == Snapshot().factories.applicationFactories
    {
      applicationFactories
    }

    function GetFacesContextFactoryIterator(): (r: seq<string>)
      reads this
      ensures r == Snapshot().factories.facesContextFactories
    {
      facesContextFactories
    }

    function GetLifecycleFactoryIterator(): (r: seq<string>)
      reads this
      ensures r == Snapshot().factories.lifecycleFactories
    {
      lifecycleFactories
    }

    function GetRenderKitFactoryIterator(): (r: seq<string>)
      reads this
      ensures r == Snapshot().factories.renderKitFactories
    {
      renderKitFactories
    }

    function GetActionListenerIterator(): (r: seq<string>)
      reads this
      ensures r == Snapshot().applicationLists.actionListeners
    {
      actionListeners
    }

    /** The last default render-kit id supplied, or None if none was. */
    function GetDefaultRenderKitId(): (r: Option<string>)
      reads this
      ensures r == Snapshot().applicationValues.defaultRenderKitId
    {
      defaultRenderKitId
    }

    /** The last message bundle supplied, or None if none was. */
    function GetMessageBundle(): (r: Option<string>)
      reads this
      ensures r == Snapshot().applicationValues.messageBundle
    {
      messageBundle
    }

    function GetNavigationHandlerIterator(): (r: seq<string>)
      reads this
      ensures r == Snapshot().applicationLists.navigationHandlers
    {
      navigationHandlers
    }

    function GetResourceHandlerIterator(): (r: seq<string>)
      reads this
      ensures r == Snapshot().applicationLists.resourceHandlers
    {
      resourceHandlers
    }

    function GetViewHandlerIterator(): (r: seq<string>)
      reads this
      ensures r == Snapshot().applicationLists.viewHandlers
    {
      viewHandlers
    }

    function GetStateManagerIterator(): (r: seq<string>)
      reads this
      ensures r == Snapshot().applicationLists.stateManagers
    {
      stateManagers
    }

    function GetPropertyResolverIterator(): (r: seq<string>)
      reads this
      ensures r == Snapshot().applicationLists.propertyResolver
    {
      propertyResolver
    }

    function GetVariableResolverIterator(): (r: seq<string>)
      reads this
      ensures r == Snapshot().applicationLists.variableResolver
    {
      variableResolver
    }

    /** The default locale of the last locale config supplied; None when there is none. */
    function GetDefaultLocale(): (r: Option<string>)
      reads this
      ensures localeConfig.None? ==> r.None?
      ensures localeConfig.Some? ==> r == localeConfig.value.defaultLocale
    {
      if localeConfig.Some? then localeConfig.value.defaultLocale else None
    }

    /** The supported locales of the last locale config supplied; empty when there is none. */
    function GetSupportedLocalesIterator(): (r: seq<string>)
      reads this
      ensures localeConfig.None? ==> r == []
      ensures localeConfig.Some? ==> r == localeConfig.value.supportedLocales
    {
      if localeConfig.Some? then localeConfig.value.supportedLocales else []
    }

    /** Exactly the component types GetComponentClass answers for. */
    function GetComponentTypes(): (r: set<string>)
      reads this
      ensures forall t :: t in r <==> GetComponentClass(t).Some?
    {
      components.Keys
    }

    /** The class registered for a component type; None when the type is unknown. */
    function GetComponentClass(componentType: string): (r: Option<string>)
      reads this
      ensures r.Some? <==> componentType in components
      ensures r.Some? ==> r.value == components[componentType]
    {
      Lookup(components, componentType)
    }

    /** Exactly the converter ids GetConverterClassById answers for. */
    function GetConverterIds(): (r: set<string>)
      reads this
      ensures forall id :: id in r <==> GetConverterClassById(id).Some?
    {
      converterById.Keys
    }

    /** Exactly the (possibly null) classes GetConverterClassByClass answers for. */
    function GetConverterClasses(): (r: set<Option<string>>)
      reads this
      ensures forall c :: c in r <==> GetConverterClassByClass(c).Some?
    {
      converterByClass.Keys
    }

    /** Exactly the converter class names GetConverterConfiguration answers for. */
    function GetConverterConfigurationByClassName(): (r: set<string>)
      reads this
      ensures forall c :: c in r <==> GetConverterConfiguration(c).Some?
    {
      converterConfigurationByClassName.Keys
    }

    /** The last converter declared with this converter class; None when there is none. */
    function GetConverterConfiguration(converterClassName: string): (r: Option<Converter>)
      reads this
      ensures r.Some? <==> converterClassName in converterConfigurationByClassName
      ensures r.Some? ==> r.value == converterConfigurationByClassName[converterClassName]
    {
      Lookup(converterConfigurationByClassName, converterClassName)
    }

    /** The converter class registered for an id; None when the id is unknown. */
    function GetConverterClassById(converterId: string): (r: Option<string>)
      reads this
      ensures r.Some? <==> converterId in converterById
      ensures r.Some? ==> r.value == converterById[converterId]
    {
      Lookup(converterById, converterId)
    }

    /** The converter class registered for a target class; None when there is none. */
    function GetConverterClassByClass(className: Option<string>): (r: Option<string>)
      reads this
      ensures r.Some? <==> className in converterByClass
      ensures r.Some? ==> r.value == converterByClass[className]
    {
      Lookup(converterByClass, className)
    }

    /** Exactly the validator ids GetValidatorClass answers for. */
    function GetValidatorIds(): (r: set<string>)
      reads this
      ensures forall id :: id in r <==> GetValidatorClass(id).Some?
    {
      validators.Keys
    }

    /** The validator class registered for an id; None when the id is unknown. */
    function GetValidatorClass(validatorId: string): (r: Option<string>)
      reads this
      ensures r.Some? <==> validatorId in validators
      ensures r.Some? ==> r.value == validators[validatorId]
    {
      Lookup(validators, validatorId)
    }

    function GetManagedBeans(): (r: seq<ManagedBean>)
      reads this
      ensures r == Snapshot().managedBeans
    {
      managedBeans
    }

    function GetNavigationRules(): (r: seq<NavigationRule>)
      reads this
      ensures r == Snapshot().navigationRules
    {
      navigationRules
    }

    /**
     * The render-kit ids in first-declaration order, each once, and exactly
     * the ids GetRenderKitClass and GetRenderers answer for.
     */
    function GetRenderKitIds(): (r: seq<string>)
      requires Valid()
      reads this
      ensures r == Snapshot().renderKits.ids
      ensures Distinct(r)
      ensures forall id :: id in r <==> GetRenderKitClass(id).Success?
      ensures forall id :: id in r <==> GetRenderers(id).Success?
    {
      renderKits.ids
    }

    /** The class of the (merged) render kit with this id; an unknown id dereferences null. */
    function GetRenderKitClass(renderKitId: string): (r: Result<Option<string>, JavaException>)
      reads this
      ensures r.Failure? <==> renderKitId !in renderKits.kits
      ensures r.Failure? ==> r.error == NullPointerException
      ensures r.Success? ==> r.value == renderKits.kits[renderKitId].renderKitClass
    {
      if renderKitId in renderKits.kits then Success(renderKits.kits[renderKitId].renderKitClass)
      else Failure(NullPointerException)
    }

    /** The renderers of the (merged) render kit with this id; an unknown id dereferences null. */
    function GetRenderers(renderKitId: string): (r: Result<seq<Renderer>, JavaException>)
      reads this
      ensures r.Failure? <==> renderKitId !in renderKits.kits
      ensures r.Failure? ==> r.error == NullPointerException
      ensures r.Success? ==> r.value == renderKits.kits[renderKitId].renderers
    {
      if renderKitId in renderKits.kits then Success(renderKits.kits[renderKitId].renderers)
      else Failure(NullPointerException)
    }

    function GetLifecyclePhaseListeners(): (r: seq<string>)
      reads this
      ensures r == Snapshot().lifecyclePhaseListeners
    {
      lifecyclePhaseListeners
    }

    function GetResourceBundles(): (r: seq<ResourceBundle>)
      reads this
      ensures r == Snapshot().applicationLists.resourceBundles
    {
      resourceBundles
    }

    function GetElResolvers(): (r: seq<string>)
      reads this
      ensures r == Snapshot().applicationLists.elResolvers
    {
      elResolvers
    }
  }
}
