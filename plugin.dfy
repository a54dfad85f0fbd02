/** The plugin's entry point (dist/src/index.js): the config extender that
    merges the user's `diamonds` block over a default with an empty `paths`,
    and the environment extender that attaches a `DiamondsConfig`. */
module Plugin {
  import opened Js
  import opened Host
  import Accessor
  import Lookup

  /** The own properties of `{ ...{ paths: defaultPaths }, ...user }`: a
      shallow merge in which the user's keys, `paths` included, win. */
  function MergedProps(defaultPaths: JsObject, user: Value): (r: map<string, Value>)
    reads Footprint(user)
    ensures "paths" in r
    ensures r.Keys == {"paths"} + SpreadProps(user).Keys
    ensures forall k :: k in SpreadProps(user) ==> r[k] == SpreadProps(user)[k]
    ensures "paths" !in SpreadProps(user) ==> r["paths"] == Ref(defaultPaths)
  {
    map["paths" := Ref(defaultPaths)] + SpreadProps(user)
  }

  /** With no user block the result is exactly `{ paths: {} }`. */
  lemma NoUserBlockGivesEmptyPaths(defaultPaths: JsObject, user: Value)
    requires !user.Ref?
    ensures MergedProps(defaultPaths, user) == map["paths" := Ref(defaultPaths)]
  {
  }

  /** The merged block holds an ordinary object under `paths` exactly when the
      user gave none, or gave an ordinary object there: a malformed user
      `paths` is passed through. */
  lemma MergedPathsIsObject(defaultPaths: JsObject, user: Value)
    ensures MergedProps(defaultPaths, user)["paths"].Ref?
            <==> "paths" !in SpreadProps(user) || SpreadProps(user)["paths"].Ref?
  {
  }

  /** The `extendConfig` callback: `config.diamonds` becomes a fresh object
      holding the merge; nothing else in `config` changes. */
  method ExtendConfig(config: HardhatConfig, userConfig: UserConfig)
    modifies config`diamonds
    ensures config.diamonds.Ref? && fresh(config.diamonds.obj)
    ensures config.diamonds.obj.props.Keys == {"paths"} + SpreadProps(userConfig.diamonds).Keys
    ensures "paths" in SpreadProps(userConfig.diamonds) ==>
              config.diamonds.obj.props == SpreadProps(userConfig.diamonds)
    ensures "paths" !in SpreadProps(userConfig.diamonds) ==>
              && Accessor.HasPathsObject(config.diamonds)
              && fresh(config.diamonds.obj.props["paths"].obj)
              && Accessor.PathsOf(config.diamonds) == map[]
              && config.diamonds.obj.props == MergedProps(config.diamonds.obj.props["paths"].obj, userConfig.diamonds)
    ensures config.others == old(config.others)
  {
    var defaultPaths := new JsObject(map[]);
    var block := new JsObject(MergedProps(defaultPaths, userConfig.diamonds));
    config.diamonds := Ref(block);
  }

  /** The `extendEnvironment` callback: `hre.diamonds` becomes a new
      `DiamondsConfig` built from `hre`, holding `hre.config.diamonds` itself. */
  method ExtendEnvironment(hre: RuntimeEnvironment)
    modifies hre`diamonds
    ensures hre.diamonds is Accessor.DiamondsConfig && fresh(hre.diamonds)
    ensures (hre.diamonds as Accessor.DiamondsConfig).hre == hre
    ensures (hre.diamonds as Accessor.DiamondsConfig).diamonds == hre.config.diamonds
  {
    var accessor := new Accessor.DiamondsConfig(hre);
    hre.diamonds := accessor;
  }

  /** Config load followed by environment construction: with no user block,
      every lookup through the attached accessor is a "not found" error. */
  method LoadWithoutUserBlock(others: map<string, Value>, name: string) returns (r: Result<Value>)
    ensures r == Err(NotFound(Lookup.NotFoundMessage(name)))
  {
    var config := new HardhatConfig(others);
    ExtendConfig(config, UserConfig(Undefined));
    var hre := new RuntimeEnvironment(config);
    ExtendEnvironment(hre);
    var accessor := hre.diamonds as Accessor.DiamondsConfig;
    r := accessor.GetDiamondConfig(name);
  }
}
