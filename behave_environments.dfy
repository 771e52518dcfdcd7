/** The Behave variant's environment registry (`Environments`): named
    environment configurations kept in one class-level dictionary, looked
    up by lower-cased name, extended by `add`, `prod` being the default. */
module BehaveEnvironments {
  import opened Text

  /** `EnvironmentConfig`. */
  datatype EnvironmentConfig = EnvironmentConfig(
    name: string, baseUrl: string, apiUrl: string, username: string, password: string, timeout: int)

  /** `EnvironmentConfig(name, base_url)` with every field left at its
      default. */
  function WithDefaults(name: string, baseUrl: string): (c: EnvironmentConfig)
    ensures c.name == name && c.baseUrl == baseUrl
    ensures c.apiUrl == "" && c.username == "" && c.password == "" && c.timeout == 30
  {
    EnvironmentConfig(name, baseUrl, "", "", "", 30)
  }

  /** The dictionary: its keys in insertion order (the order `keys()`
      lists them in) and the configuration under each key. */
  datatype Registry = Registry(keys: seq<string>, configs: map<string, EnvironmentConfig>)

  /** Every key listed once, and exactly the keys of the dictionary. */
  ghost predicate Valid(r: Registry) {
    (forall i, j :: 0 <= i < j < |r.keys| ==> r.keys[i] != r.keys[j])
    && (forall k :: k in r.configs <==> k in r.keys)
  }

  const Dev := EnvironmentConfig("Development", "https://dev.saucedemo.com", "https://api.dev.saucedemo.com",
                                 "standard_user", "secret_sauce", 30)
  const Staging := EnvironmentConfig("Staging", "https://staging.saucedemo.com", "https://api.staging.saucedemo.com",
                                     "standard_user", "secret_sauce", 30)
  const Prod := EnvironmentConfig("Production", "https://www.saucedemo.com", "https://api.saucedemo.com",
                                  "standard_user", "secret_sauce", 30)
  const Local := EnvironmentConfig("Local", "http://localhost:8080", "http://localhost:8081", "admin", "admin123", 10)

  /** The predefined environments. */
  const Initial := Registry(["dev", "staging", "prod", "local"],
                            map["dev" := Dev, "staging" := Staging, "prod" := Prod, "local" := Local])

  /** `get(env_name)`: the entry under the lower-cased name, if any. */
  function Get(r: Registry, envName: string): (c: Option<EnvironmentConfig>)
    ensures c.Some? <==> Lower(envName) in r.configs
    ensures c.Some? ==> c.value == r.configs[Lower(envName)]
  {
    var key := Lower(envName);
    if key in r.configs then Some(r.configs[key]) else None
  }

  /** The dictionary after `add(env_name, config)`: the entry under the
      lower-cased name is set; a new key goes last, an existing one keeps
      its place. */
  function Added(r: Registry, envName: string, config: EnvironmentConfig): (r': Registry)
    ensures r'.configs == r.configs[Lower(envName) := config]
  {
    var key := Lower(envName);
    Registry(if key in r.configs then r.keys else r.keys + [key], r.configs[key := config])
  }

  /** `list_environments()`. */
  function ListEnvironments(r: Registry): (names: seq<string>)
    requires Valid(r)
    ensures forall k :: k in names <==> k in r.configs
    ensures forall i, j :: 0 <= i < j < |names| ==> names[i] != names[j]
  {
    r.keys
  }

  /** `get_default()`: the `prod` entry, which `add` can replace but
      never remove. */
  function GetDefault(r: Registry): (c: EnvironmentConfig)
    requires "prod" in r.configs
    ensures Get(r, "prod") == Some(c)
    ensures forall n :: Lower(n) == "prod" ==> Get(r, n) == Some(c)
  {
    assert Lower("prod") == "prod";
    r.configs["prod"]
  }

  /** The predefined dictionary is well formed, lists dev, staging, prod
      and local in that order, and has a default. */
  lemma InitialRegistry()
    ensures Valid(Initial) && ListEnvironments(Initial) == ["dev", "staging", "prod", "local"]
    ensures "prod" in Initial.configs && GetDefault(Initial) == Prod
  {
    assert forall k :: k in Initial.configs <==> k in Initial.keys by {
      forall k ensures k in Initial.configs <==> k in Initial.keys {
        assert k in Initial.keys <==> k == "dev" || k == "staging" || k == "prod" || k == "local";
      }
    }
  }

  /** After `add`, `get` with any casing of the name returns the new entry,
      and every other name gets what it got before. */
  lemma AddThenGet(r: Registry, envName: string, config: EnvironmentConfig, other: string)
    ensures Lower(other) == Lower(envName) ==> Get(Added(r, envName, config), other) == Some(config)
    ensures Lower(other) != Lower(envName) ==> Get(Added(r, envName, config), other) == Get(r, other)
  {}

  /** `add` keeps the dictionary well formed, keeps the default, and keeps
      the earlier keys in their order, adding at most the new key at the
      end. */
  lemma AddKeeps(r: Registry, envName: string, config: EnvironmentConfig)
    requires Valid(r)
    ensures Valid(Added(r, envName, config))
    ensures "prod" in r.configs ==> "prod" in Added(r, envName, config).configs
    ensures r.keys <= Added(r, envName, config).keys
    ensures Lower(envName) in r.configs ==> Added(r, envName, config).keys == r.keys
    ensures Lower(envName) !in r.configs ==> Added(r, envName, config).keys == r.keys + [Lower(envName)]
  {
    var key := Lower(envName);
    var r' := Added(r, envName, config);
    if key !in r.configs {
      assert forall i :: 0 <= i < |r.keys| ==> r'.keys[i] == r.keys[i] && r.keys[i] != key;
    }
  }

  /** The class-level dictionary, shared by every use of `Environments`. */
  class Environments {
    var registry: Registry

    constructor ()
      ensures registry == Initial
    {
      registry := Initial;
    }

    /** `add(env_name, config)`. */
    method Add(envName: string, config: EnvironmentConfig)
      modifies this
      ensures registry == Added(old(registry), envName, config)
    {
      var key := Lower(envName);
      if key !in registry.configs {
        registry := registry.(keys := registry.keys + [key]);
      }
      registry := registry.(configs := registry.configs[key := config]);
    }
  }
}
