/** The host framework's objects that the plugin reads and extends. The host
    itself is outside this model; only the fields the plugin touches are here. */
module Host {
  import opened Js

  /** The host's resolved configuration. `diamonds` is the field the plugin
      contributes; `others` stands for every other field of it. */
  class HardhatConfig {
    var diamonds: Value
    var others: map<string, Value>

    constructor (others: map<string, Value>)
      ensures diamonds == Undefined && this.others == others
    {
      diamonds := Undefined;
      this.others := others;
    }
  }

  /** The user's configuration as the host hands it to a config extender:
      read-only. Only its `diamonds` entry matters here (`Undefined` when the
      user wrote none). */
  datatype UserConfig = UserConfig(diamonds: Value)

  /** The runtime environment. Its `config` never changes; `diamonds` is the
      field the plugin attaches its accessor to (null until it does; typed
      `object?` because the two generations of the plugin attach different
      classes there). */
  class RuntimeEnvironment {
    const config: HardhatConfig
    var diamonds: object?

    constructor (config: HardhatConfig)
      ensures this.config == config && diamonds == null
    {
      this.config := config;
      diamonds := null;
    }
  }
}
