/**
 * Runtime configuration (assets/js/api.js): compiled-in defaults with the
 * host page's override object spread over them, one level deep for the
 * endpoint paths. The override is a parameter here; the source reads it
 * from a global on every call.
 */
module Config {
  import opened JsValues

  const DefaultEndpoints: map<string, JsValue> :=
    map["overview" := Str("/solar/overview"), "energy" := Str("/solar/energy")]

  const DefaultConfig: map<string, JsValue> := map[
    "baseUrl" := Str(""),
    "useMockData" := Bool(true),
    "pollIntervalMs" := Num(900000.0),
    "requestTimeoutMs" := Num(10000.0),
    "emissionsKgPerKwh" := Num(0.36),
    "historyDays" := Num(30.0),
    "endpoints" := Obj(DefaultEndpoints)]

  /** `globalThis.SOLAR_DASHBOARD_CONFIG ?? {}`, given the global's value. */
  function Runtime(override: JsValue): JsValue {
    Coalesce(override, EmptyObject)
  }

  /** The properties `...runtime` copies. */
  function Overrides(override: JsValue): map<string, JsValue> {
    Spread(Runtime(override))
  }

  /** The properties `...(runtime.endpoints ?? {})` copies. */
  function EndpointOverrides(override: JsValue): map<string, JsValue> {
    Spread(Coalesce(Get(Runtime(override), "endpoints"), EmptyObject))
  }

  /**
   * The object literal of `getRuntimeConfig` over any defaults, given the
   * properties the two spreads copy. It has the defaults' keys, the
   * override's keys and `endpoints`, which is always an object holding the
   * default and the overridden endpoint names.
   */
  function Resolve(defaults: map<string, JsValue>, defaultEndpoints: map<string, JsValue>,
                   overrides: map<string, JsValue>, endpointOverrides: map<string, JsValue>)
    : (config: map<string, JsValue>)
    ensures config.Keys == defaults.Keys + overrides.Keys + {"endpoints"}
    ensures config["endpoints"].Obj?
    ensures config["endpoints"].fields.Keys == defaultEndpoints.Keys + endpointOverrides.Keys
  {
    defaults + overrides + map["endpoints" := Obj(defaultEndpoints + endpointOverrides)]
  }

  /**
   * Key by key: a property of the override wins over the default of the same
   * name, a default the override lacks is kept, and the endpoint names are
   * merged the same way.
   */
  lemma ResolveLookup(defaults: map<string, JsValue>, defaultEndpoints: map<string, JsValue>,
                      overrides: map<string, JsValue>, endpointOverrides: map<string, JsValue>, k: string)
    ensures var config := Resolve(defaults, defaultEndpoints, overrides, endpointOverrides);
            && (k in overrides && k != "endpoints" ==> config[k] == overrides[k])
            && (k in defaults && k !in overrides && k != "endpoints" ==> config[k] == defaults[k])
    ensures var endpoints := Resolve(defaults, defaultEndpoints, overrides, endpointOverrides)["endpoints"].fields;
            && (k in endpointOverrides ==> endpoints[k] == endpointOverrides[k])
            && (k in defaultEndpoints && k !in endpointOverrides ==> endpoints[k] == defaultEndpoints[k])
  {
  }

  /** Resolving a resolved configuration, with its own endpoints, again changes nothing. */
  lemma ResolveIdempotent(defaults: map<string, JsValue>, defaultEndpoints: map<string, JsValue>,
                          overrides: map<string, JsValue>, endpointOverrides: map<string, JsValue>)
    ensures var config := Resolve(defaults, defaultEndpoints, overrides, endpointOverrides);
            Resolve(defaults, defaultEndpoints, config, config["endpoints"].fields) == config
  {
    var config := Resolve(defaults, defaultEndpoints, overrides, endpointOverrides);
    var endpoints := config["endpoints"].fields;
    MergeAbsorbed(defaultEndpoints, endpoints);
    MergeAbsorbed(defaults, config);
    MergeSame(config, "endpoints");
  }

  /** Writing back a map's own entry leaves the map. */
  lemma MergeSame(m: map<string, JsValue>, k: string)
    requires k in m
    ensures m + map[k := m[k]] == m
  {
  }

  /** Spreading defaults under a map that already has all their keys leaves the map. */
  lemma MergeAbsorbed(defaults: map<string, JsValue>, m: map<string, JsValue>)
    requires defaults.Keys <= m.Keys
    ensures defaults + m == m
  {
  }

  /** `getRuntimeConfig`: the compiled-in defaults under the host page's override. */
  function GetRuntimeConfig(override: JsValue): (config: map<string, JsValue>)
    ensures config.Keys == DefaultConfig.Keys + Overrides(override).Keys
    ensures config["endpoints"].Obj?
    ensures config["endpoints"].fields.Keys == DefaultEndpoints.Keys + EndpointOverrides(override).Keys
  {
    Resolve(DefaultConfig, DefaultEndpoints, Overrides(override), EndpointOverrides(override))
  }

  /**
   * An overridden property takes the override's value and any other default
   * keeps its value; each endpoint name likewise.
   */
  lemma GetRuntimeConfigLookup(override: JsValue, k: string)
    ensures var config := GetRuntimeConfig(override);
            && (k in Overrides(override) && k != "endpoints" ==> config[k] == Overrides(override)[k])
            && (k in DefaultConfig && k !in Overrides(override) && k != "endpoints" ==> config[k] == DefaultConfig[k])
    ensures var endpoints := GetRuntimeConfig(override)["endpoints"].fields;
            && (k in EndpointOverrides(override) ==> endpoints[k] == EndpointOverrides(override)[k])
            && (k in DefaultEndpoints && k !in EndpointOverrides(override) ==> endpoints[k] == DefaultEndpoints[k])
  {
    ResolveLookup(DefaultConfig, DefaultEndpoints, Overrides(override), EndpointOverrides(override), k);
  }

  /** Without an override object (undefined, null or `{}`) the defaults are the configuration. */
  lemma GetRuntimeConfigWithoutOverride(override: JsValue)
    requires override == Undefined || override == Null || override == EmptyObject
    ensures GetRuntimeConfig(override) == DefaultConfig
  {
    assert Overrides(override) == map[];
    assert EndpointOverrides(override) == map[];
    assert DefaultEndpoints + map[] == DefaultEndpoints;
    assert DefaultConfig + map[] == DefaultConfig;
    assert DefaultConfig["endpoints" := Obj(DefaultEndpoints)] == DefaultConfig;
  }

  /** Merging a resolved configuration over the defaults again changes nothing. */
  lemma GetRuntimeConfigIdempotent(override: JsValue)
    ensures GetRuntimeConfig(Obj(GetRuntimeConfig(override))) == GetRuntimeConfig(override)
  {
    var config := GetRuntimeConfig(override);
    var endpoints := config["endpoints"].fields;
    assert Overrides(Obj(config)) == config;
    assert EndpointOverrides(Obj(config)) == endpoints by {
      assert Get(Obj(config), "endpoints") == Obj(endpoints);
    }
    ResolveIdempotent(DefaultConfig, DefaultEndpoints, Overrides(override), EndpointOverrides(override));
  }

  /** Overriding one endpoint keeps the other endpoint's default. */
  lemma GetRuntimeConfigPartialEndpoints(baseUrl: string, energyPath: string)
    ensures var config := GetRuntimeConfig(Obj(map[
              "baseUrl" := Str(baseUrl),
              "endpoints" := Obj(map["energy" := Str(energyPath)])]));
            && config["baseUrl"] == Str(baseUrl)
            && config["endpoints"] == Obj(map["overview" := Str("/solar/overview"), "energy" := Str(energyPath)])
            && config["historyDays"] == Num(30.0)
  {
    var fields := map["baseUrl" := Str(baseUrl), "endpoints" := Obj(map["energy" := Str(energyPath)])];
    var override := Obj(fields);
    assert Overrides(override) == fields;
    assert Get(override, "endpoints") == Obj(map["energy" := Str(energyPath)]);
    assert EndpointOverrides(override) == map["energy" := Str(energyPath)];
    assert "historyDays" !in fields;
    assert DefaultEndpoints + map["energy" := Str(energyPath)]
           == map["overview" := Str("/solar/overview"), "energy" := Str(energyPath)];
  }

  /** `getPollingIntervalMs`: the override's interval if it has one, 15 minutes otherwise. */
  function GetPollingIntervalMs(override: JsValue): (interval: JsValue)
    ensures "pollIntervalMs" in Overrides(override) ==> interval == Overrides(override)["pollIntervalMs"]
    ensures "pollIntervalMs" !in Overrides(override) ==> interval == Num(900000.0)
  {
    GetRuntimeConfigLookup(override, "pollIntervalMs");
    GetRuntimeConfig(override)["pollIntervalMs"]
  }
}
