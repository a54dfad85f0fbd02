/** The older accessor (src/HardhatRuntimeEnvironmentFields.ts): it holds the
    host's `diamonds` block by reference and looks a diamond up directly in
    that block, with no `paths` step. */
module LegacyFields {
  import opened Js
  import opened Host
  import opened Lookup

  /** `this.diamondsConfig[name]` and the `!config` guard, with the name
      looked up among the own properties of the block (see
      `ResolveFlatAsWritten` for the prototype lookup the source performs). */
  function ResolveFlat(diamondsConfig: Value, name: string): (r: Result<Value>)
    reads Footprint(diamondsConfig)
    ensures diamondsConfig.Ref? ==> r == Entry(diamondsConfig.obj.props, name)
    ensures r.Ok? ==> diamondsConfig.Ref? && name in diamondsConfig.obj.props
                      && Truthy(diamondsConfig.obj.props[name]) && r.value == diamondsConfig.obj.props[name]
    ensures Nullish(diamondsConfig) ==> r == Err(TypeError(CannotReadMessage(diamondsConfig, name)))
  {
    var config :- GetOwnProperty(diamondsConfig, name);
    CheckFound(name, config)
  }

  /** `this.diamondsConfig[name]` and the guard exactly as the language
      evaluates them: a name the block lacks is looked up on Object.prototype. */
  function ResolveFlatAsWritten(diamondsConfig: Value, name: string): (r: Result<Value>)
    reads Footprint(diamondsConfig)
    ensures diamondsConfig.Ref? ==> r == EntryAsWritten(diamondsConfig.obj.props, name)
  {
    var config :- GetProperty(diamondsConfig, name);
    CheckFound(name, config)
  }

  /** The as-written flat lookup finds the members of Object.prototype in
      every block that lacks them. */
  lemma InheritedNameResolvesFlatAsWritten(block: JsObject, name: string)
    requires name !in block.props && name in ObjectPrototypeMembers
    ensures ResolveFlatAsWritten(Ref(block), name) == Ok(Builtin(name))
    ensures ResolveFlat(Ref(block), name) == Err(NotFound(NotFoundMessage(name)))
  {
    InheritedNameFoundAsWritten(block.props, name);
  }

  /** The corrected flat lookup differs from the source's only on the members
      of Object.prototype that the block does not store. */
  lemma ResolveFlatAgreesAsWritten(diamondsConfig: Value, name: string)
    requires name !in ObjectPrototypeMembers || (diamondsConfig.Ref? && name in diamondsConfig.obj.props)
    ensures ResolveFlat(diamondsConfig, name) == ResolveFlatAsWritten(diamondsConfig, name)
  {
  }

  class HardhatRuntimeEnvironmentFields {
    var hre: RuntimeEnvironment
    var diamondsConfig: Value

    /** Captures `hre.config.diamonds` by reference: no copy is made. */
    constructor (hre: RuntimeEnvironment)
      ensures this.hre == hre && diamondsConfig == hre.config.diamonds
    {
      this.hre := hre;
      this.diamondsConfig := hre.config.diamonds;
    }

    /** The held block itself (the same reference the host holds). Changes nothing. */
    method GetDiamondsConfig() returns (r: Value)
      ensures r == diamondsConfig
    {
      r := diamondsConfig;
    }

    /** The entry stored directly under `diamondName` in the block, or the
        "not found" error when it is missing or falsy. Changes nothing. */
    method GetDiamondConfig(diamondName: string) returns (r: Result<Value>)
      ensures r == ResolveFlat(diamondsConfig, diamondName)
      ensures diamondsConfig.Ref? ==>
                (r.Ok? <==> diamondName in diamondsConfig.obj.props && Truthy(diamondsConfig.obj.props[diamondName]))
      ensures r.Ok? ==> r.value == diamondsConfig.obj.props[diamondName]
      ensures diamondsConfig.Ref? && r.Err? ==> r.error == NotFound(NotFoundMessage(diamondName))
      ensures diamondName !in ObjectPrototypeMembers ==> r == ResolveFlatAsWritten(diamondsConfig, diamondName)
    {
      if diamondName !in ObjectPrototypeMembers {
        ResolveFlatAgreesAsWritten(diamondsConfig, diamondName);
      }
      var config :- GetOwnProperty(diamondsConfig, diamondName);
      if !Truthy(config) {
        return Err(NotFound(NotFoundMessage(diamondName)));
      }
      return Ok(config);
    }
  }
}
