/** The older entry point (src/index.ts): the config extender passes the
    user's block through, or `{}` when there is none, and the environment
    extender attaches a `HardhatRuntimeEnvironmentFields`. */
module LegacyPlugin {
  import opened Js
  import opened Host
  import LegacyFields

  /** The `extendConfig` callback: `config.diamonds = userConfig.diamonds ?? {}`.
      A present user block is used as is (no copy); nothing else in `config`
      changes. */
  method ExtendConfig(config: HardhatConfig, userConfig: UserConfig)
    modifies config`diamonds
    ensures !Nullish(userConfig.diamonds) ==> config.diamonds == userConfig.diamonds
    ensures Nullish(userConfig.diamonds) ==>
              config.diamonds.Ref? && fresh(config.diamonds.obj) && config.diamonds.obj.props == map[]
    ensures config.others == old(config.others)
  {
    var defaultDiamondsConfig := new JsObject(map[]);
    config.diamonds := Coalesce(userConfig.diamonds, Ref(defaultDiamondsConfig));
  }

  /** The `extendEnvironment` callback: `hre.diamonds` becomes a new
      `HardhatRuntimeEnvironmentFields` built from `hre`. */
  method ExtendEnvironment(hre: RuntimeEnvironment)
    modifies hre`diamonds
    ensures hre.diamonds is LegacyFields.HardhatRuntimeEnvironmentFields && fresh(hre.diamonds)
    ensures (hre.diamonds as LegacyFields.HardhatRuntimeEnvironmentFields).hre == hre
    ensures (hre.diamonds as LegacyFields.HardhatRuntimeEnvironmentFields).diamondsConfig == hre.config.diamonds
  {
    var fields := new LegacyFields.HardhatRuntimeEnvironmentFields(hre);
    hre.diamonds := fields;
  }
}
