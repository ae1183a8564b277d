/**
 * The parsed faces-config document and its elements, as the XML parser hands
 * them to the dispenser. Every list keeps document order and duplicates; a
 * Java `null` is `None`.
 */
module FacesConfigElements {
  import opened Wrappers

  /** One `<factory>` element: class names for each of the four factory kinds. */
  datatype Factory = Factory(
    applicationFactory: seq<string>,
    facesContextFactory: seq<string>,
    lifecycleFactory: seq<string>,
    renderKitFactory: seq<string>)

  /** `<locale-config>`: an optional default locale and the supported locales. */
  datatype LocaleConfig = LocaleConfig(defaultLocale: Option<string>, supportedLocales: seq<string>)

  /** `<resource-bundle>`: carried through unchanged. */
  datatype ResourceBundle = ResourceBundle(baseName: string, varName: string)

  /**
   * One `<application>` element. The single-valued settings are lists because
   * a document may repeat the element; the dispenser keeps the last one.
   */
  datatype Application = Application(
    actionListener: seq<string>,
    defaultRenderKitId: seq<string>,
    messageBundle: seq<string>,
    navigationHandler: seq<string>,
    viewHandler: seq<string>,
    resourceHandler: seq<string>,
    stateManager: seq<string>,
    propertyResolver: seq<string>,
    variableResolver: seq<string>,
    localeConfig: seq<LocaleConfig>,
    resourceBundle: seq<ResourceBundle>,
    elResolver: seq<string>)

  /** `<converter>`: identified by an id or by the class it converts. */
  datatype Converter = Converter(converterId: Option<string>, forClass: Option<string>, converterClass: string)

  /** `<renderer>`: identified within its render kit by (component family, renderer type). */
  datatype Renderer = Renderer(componentFamily: string, rendererType: string, rendererClass: string)

  /** `<render-kit>`: an optional id, an optional implementation class and its renderers. */
  datatype RenderKit = RenderKit(id: Option<string>, renderKitClass: Option<string>, renderers: seq<Renderer>)

  /** `<managed-bean>`: opaque payload for the dispenser. */
  datatype ManagedBean = ManagedBean(name: string, beanClass: string, scope: string)

  /** `<navigation-rule>`: opaque payload for the dispenser. */
  datatype NavigationRule = NavigationRule(fromViewId: Option<string>, toViewIds: seq<string>)

  /** One whole parsed faces-config document. */
  datatype FacesConfig = FacesConfig(
    factories: seq<Factory>,
    components: map<string, string>,
    validators: map<string, string>,
    applications: seq<Application>,
    converters: seq<Converter>,
    renderKits: seq<RenderKit>,
    lifecyclePhaseListener: seq<string>,
    managedBeans: seq<ManagedBean>,
    navigationRules: seq<NavigationRule>)
}
