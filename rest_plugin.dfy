/**
 * The REST plugin's bookkeeping: the scanned resource and provider classes,
 * the Jackson providers and exception mappers it adds or removes, the root
 * resources by variant, and the sets it hands out.
 *
 * Classes are their names. Hypermedia scanning and the Jersey module are not
 * modelled; the servlet context is only present or absent.
 */
module RestModel {
  import opened Wrappers

  const JSON_MAPPING_EXCEPTION_MAPPER: string := "JsonMappingExceptionMapper"
  const JSON_PARSE_EXCEPTION_MAPPER: string := "JsonParseExceptionMapper"
  const JACKSON_JSON_PROVIDER: string := "JacksonJsonProvider"
  const JACKSON_JAXB_JSON_PROVIDER: string := "JacksonJaxbJsonProvider"
  const AUTHENTICATION_EXCEPTION_MAPPER: string := "AuthenticationExceptionMapper"
  const AUTHORIZATION_EXCEPTION_MAPPER: string := "AuthorizationExceptionMapper"
  const WEB_APPLICATION_EXCEPTION_MAPPER: string := "WebApplicationExceptionMapper"
  const INTERNAL_ERROR_EXCEPTION_MAPPER: string := "InternalErrorExceptionMapper"
  const ROOT_RESOURCE_DISPATCHER: string := "RootResourceDispatcher"
  const JSON_HOME_ROOT_RESOURCE: string := "JsonHomeRootResource"

  /** The four providers `addJacksonProviders` adds. */
  const JACKSON_PROVIDERS: set<string> :=
    {JSON_MAPPING_EXCEPTION_MAPPER, JSON_PARSE_EXCEPTION_MAPPER, JACKSON_JSON_PROVIDER, JACKSON_JAXB_JSON_PROVIDER}

  const SECURITY_MAPPERS: set<string> := {AUTHENTICATION_EXCEPTION_MAPPER, AUTHORIZATION_EXCEPTION_MAPPER}
  const GENERAL_MAPPERS: set<string> := {WEB_APPLICATION_EXCEPTION_MAPPER, INTERNAL_ERROR_EXCEPTION_MAPPER}

  /** The flags of the REST configuration the plugin reads (all true by default). */
  datatype RestConfig = RestConfig(jsonHome: bool, security: bool, all: bool)

  const DEFAULT_REST_CONFIG: RestConfig := RestConfig(true, true, true)

  /** A content variant: media type, language and encoding. */
  datatype Variant = Variant(mediaType: string, language: Option<string>, encoding: Option<string>)

  const JSON_VARIANT: Variant := Variant("application/json", None, None)

  /** The Jackson providers are exactly four classes. */
  lemma JacksonProvidersAreFour()
    ensures |JACKSON_PROVIDERS| == 4
  {
    var a := {JSON_MAPPING_EXCEPTION_MAPPER};
    var b := a + {JSON_PARSE_EXCEPTION_MAPPER};
    var c := b + {JACKSON_JSON_PROVIDER};
    assert JSON_PARSE_EXCEPTION_MAPPER !in a;
    assert JACKSON_JSON_PROVIDER !in b;
    assert JACKSON_JAXB_JSON_PROVIDER !in c;
    assert JACKSON_PROVIDERS == c + {JACKSON_JAXB_JSON_PROVIDER};
  }

  /** The providers after `configureExceptionMappers`. */
  function ConfiguredProviders(providers: set<string>, config: RestConfig): (r: set<string>)
    ensures r <= providers
    ensures forall p :: p in providers && p !in SECURITY_MAPPERS && p !in GENERAL_MAPPERS ==> p in r
    ensures forall p :: p in SECURITY_MAPPERS ==> (p in r <==> p in providers && config.security)
    ensures forall p :: p in GENERAL_MAPPERS ==> (p in r <==> p in providers && config.all)
  {
    var afterSecurity := if !config.security then providers - SECURITY_MAPPERS else providers;
    if !config.all then afterSecurity - GENERAL_MAPPERS else afterSecurity
  }

  /** With both flags set nothing is removed. */
  lemma DefaultMappersKept(providers: set<string>)
    ensures ConfiguredProviders(providers, DEFAULT_REST_CONFIG) == providers
  {
  }

  /** Removing mappers never removes a Jackson provider. */
  lemma JacksonSurvivesConfiguration(providers: set<string>, config: RestConfig)
    ensures JACKSON_PROVIDERS <= ConfiguredProviders(providers + JACKSON_PROVIDERS, config)
  {
    assert JACKSON_PROVIDERS !! SECURITY_MAPPERS;
    assert JACKSON_PROVIDERS !! GENERAL_MAPPERS;
  }

  /**
   * The resource classes handed to the module: unchanged when some root
   * resource variant exists, else without the root resource dispatcher.
   */
  function FilterResourceClasses(variants: map<Variant, string>, resourceClasses: set<string>): (r: set<string>)
    ensures variants != map[] ==> r == resourceClasses
    ensures r <= resourceClasses && resourceClasses - r <= {ROOT_RESOURCE_DISPATCHER}
    ensures variants == map[] ==> ROOT_RESOURCE_DISPATCHER !in r
  {
    if variants != map[] then resourceClasses else resourceClasses - {ROOT_RESOURCE_DISPATCHER}
  }

  datatype InitError = NullProviders   // the providers are added to a collection the scan did not give

  class RestPlugin {
    const servletContext: bool
    var restConfig: RestConfig
    var rootResourcesByVariant: map<Variant, string>
    var enabled: bool
    var resources: Option<set<string>>
    var providers: Option<set<string>>

    /** The plugin after `setup`, which only learns whether there is a servlet context. */
    constructor(servletContext: bool)
      ensures this.servletContext == servletContext
      ensures rootResourcesByVariant == map[] && !enabled && resources.None? && providers.None?
    {
      this.servletContext := servletContext;
      restConfig := DEFAULT_REST_CONFIG;
      rootResourcesByVariant := map[];
      enabled := false;
      resources := None;
      providers := None;
    }

    method AddJacksonProviders()
      requires providers.Some?
      modifies this
      ensures providers == Some(old(providers.value) + JACKSON_PROVIDERS)
      ensures restConfig == old(restConfig) && rootResourcesByVariant == old(rootResourcesByVariant)
      ensures enabled == old(enabled) && resources == old(resources)
    {
      var p0 := providers.value;
      var p := p0;
      p := p + {JSON_MAPPING_EXCEPTION_MAPPER};
      p := p + {JSON_PARSE_EXCEPTION_MAPPER};
      p := p + {JACKSON_JSON_PROVIDER};
      p := p + {JACKSON_JAXB_JSON_PROVIDER};
      assert p == p0 + JACKSON_PROVIDERS;
      providers := Some(p);
    }

    method ConfigureExceptionMappers()
      requires providers.Some?
      modifies this
      ensures providers == Some(ConfiguredProviders(old(providers.value), restConfig))
      ensures restConfig == old(restConfig) && rootResourcesByVariant == old(rootResourcesByVariant)
      ensures enabled == old(enabled) && resources == old(resources)
    {
      var p0 := providers.value;
      var p := p0;
      if !restConfig.security {
        p := p - {AUTHENTICATION_EXCEPTION_MAPPER};
        p := p - {AUTHORIZATION_EXCEPTION_MAPPER};
        assert p == p0 - SECURITY_MAPPERS;
      }
      var p1 := p;
      if !restConfig.all {
        p := p - {WEB_APPLICATION_EXCEPTION_MAPPER};
        p := p - {INTERNAL_ERROR_EXCEPTION_MAPPER};
        assert p == p1 - GENERAL_MAPPERS;
      }
      providers := Some(p);
    }

    /** Maps the variant to the root resource, replacing any earlier mapping for it. */
    method AddRootResourceVariant(variant: Variant, rootResource: string)
      modifies this
      ensures rootResourcesByVariant == old(rootResourcesByVariant)[variant := rootResource]
      ensures restConfig == old(restConfig) && enabled == old(enabled)
      ensures resources == old(resources) && providers == old(providers)
    {
      rootResourcesByVariant := rootResourcesByVariant[variant := rootResource];
    }

    /**
     * Takes the scanned classes; with a servlet context, adds the Jackson
     * providers, configures the exception mappers, adds the JSON root resource
     * when JSON-home is on, and enables the plugin.
     */
    method Initialize(config: RestConfig, scannedResources: Option<set<string>>, scannedProviders: Option<set<string>>)
      returns (r: Result<(), InitError>)
      modifies this
      ensures restConfig == config && resources == scannedResources
      ensures !servletContext ==>
        && r.Ok?
        && providers == scannedProviders
        && enabled == old(enabled)
        && rootResourcesByVariant == old(rootResourcesByVariant)
      ensures servletContext && scannedProviders.None? ==>
        && r == Err(NullProviders)
        && providers.None?
        && enabled == old(enabled)
        && rootResourcesByVariant == old(rootResourcesByVariant)
      ensures servletContext && scannedProviders.Some? ==>
        && r.Ok?
        && enabled
        && providers == Some(ConfiguredProviders(scannedProviders.value + JACKSON_PROVIDERS, config))
        && rootResourcesByVariant == (if config.jsonHome then old(rootResourcesByVariant)[JSON_VARIANT := JSON_HOME_ROOT_RESOURCE]
                                      else old(rootResourcesByVariant))
    {
      restConfig := config;
      resources := scannedResources;
      providers := scannedProviders;
      if servletContext {
        if providers.None? {
          return Err(NullProviders);
        }
        AddJacksonProviders();
        ConfigureExceptionMappers();
        if restConfig.jsonHome {
          AddRootResourceVariant(JSON_VARIANT, JSON_HOME_ROOT_RESOURCE);
        }
        enabled := true;
      }
      return Ok(());
    }

    /** A copy of the filtered resources; empty when none were scanned. */
    function Resources(): (r: set<string>)
      reads this
      ensures resources.None? ==> r == {}
      ensures resources.Some? ==> r == FilterResourceClasses(rootResourcesByVariant, resources.value)
    {
      if resources.Some? then FilterResourceClasses(rootResourcesByVariant, resources.value) else {}
    }

    /** A copy of the providers; empty when none were scanned. */
    function Providers(): (r: set<string>)
      reads this
      ensures r == providers.GetOr({})
    {
      if providers.Some? then providers.value else {}
    }
  }

  /**
   * With the default configuration and a servlet context, the providers are
   * the scanned ones plus the four Jackson ones, and every scanned resource,
   * the dispatcher included, is handed out.
   */
  lemma DefaultInitialization(variants: map<Variant, string>, scannedResources: set<string>, scannedProviders: set<string>)
    ensures ConfiguredProviders(scannedProviders + JACKSON_PROVIDERS, DEFAULT_REST_CONFIG) == scannedProviders + JACKSON_PROVIDERS
    ensures FilterResourceClasses(variants[JSON_VARIANT := JSON_HOME_ROOT_RESOURCE], scannedResources) == scannedResources
  {
    assert JSON_VARIANT in variants[JSON_VARIANT := JSON_HOME_ROOT_RESOURCE];
  }
}
