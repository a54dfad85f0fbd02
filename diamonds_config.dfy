/** The accessor the plugin attaches to the runtime environment
    (src/DiamondsConfig.ts): it holds the host's resolved `diamonds` block by
    reference and looks a diamond up by name under its `paths`. */
module Accessor {
  import opened Js
  import opened Host
  import opened Lookup

  /** The block holds its diamonds in an object under `paths`. */
  predicate HasPathsObject(diamonds: Value)
    reads Footprint(diamonds)
  {
    diamonds.Ref? && "paths" in diamonds.obj.props && diamonds.obj.props["paths"].Ref?
  }

  /** The objects a lookup through `diamonds` reads: the block and the object
      held under its `paths`. */
  function LookupFootprint(diamonds: Value): set<object>
    reads Footprint(diamonds)
  {
    Footprint(diamonds)
    + if diamonds.Ref? && "paths" in diamonds.obj.props then Footprint(diamonds.obj.props["paths"]) else {}
  }

  /** The named diamond configurations, as they are now. */
  function PathsOf(diamonds: Value): map<string, Value>
    reads Footprint(diamonds), LookupFootprint(diamonds)
    requires HasPathsObject(diamonds)
  {
    diamonds.obj.props["paths"].obj.props
  }

  /** `this.diamonds.paths[name]` and the `!config` guard, with the name
      looked up among the own properties of `paths` (see `ResolveAsWritten`
      for the prototype lookup the source performs). */
  function Resolve(diamonds: Value, name: string): (r: Result<Value>)
    reads LookupFootprint(diamonds)
    ensures HasPathsObject(diamonds) ==> r == Entry(PathsOf(diamonds), name)
    ensures r.Ok? ==> HasPathsObject(diamonds) && name in PathsOf(diamonds)
                      && Truthy(PathsOf(diamonds)[name]) && r.value == PathsOf(diamonds)[name]
    ensures Nullish(diamonds) || (diamonds.Ref? && Nullish(OwnValue(diamonds.obj.props, "paths")))
            ==> r.Err? && r.error.TypeError?
  {
    var paths :- GetProperty(diamonds, "paths");
    var config :- GetOwnProperty(paths, name);
    CheckFound(name, config)
  }

  /** `this.diamonds.paths[name]` and the guard exactly as the language
      evaluates them: a name `paths` lacks is looked up on Object.prototype. */
  function ResolveAsWritten(diamonds: Value, name: string): (r: Result<Value>)
    reads LookupFootprint(diamonds)
    ensures HasPathsObject(diamonds) ==> r == EntryAsWritten(PathsOf(diamonds), name)
  {
    var paths :- GetProperty(diamonds, "paths");
    var config :- GetProperty(paths, name);
    CheckFound(name, config)
  }

  /** The as-written lookup finds "toString", "constructor" and the other
      members of Object.prototype in every `paths` object that lacks them. */
  lemma InheritedNameResolvesAsWritten(diamonds: Value, name: string)
    requires HasPathsObject(diamonds)
    requires name !in PathsOf(diamonds) && name in ObjectPrototypeMembers
    ensures ResolveAsWritten(diamonds, name) == Ok(Builtin(name))
    ensures Resolve(diamonds, name) == Err(NotFound(NotFoundMessage(name)))
  {
    InheritedNameFoundAsWritten(PathsOf(diamonds), name);
  }

  /** The corrected lookup differs from the source's only on the members of
      Object.prototype that `paths` does not store. */
  lemma ResolveAgreesAsWritten(diamonds: Value, name: string)
    requires name !in ObjectPrototypeMembers || (HasPathsObject(diamonds) && name in PathsOf(diamonds))
    ensures Resolve(diamonds, name) == ResolveAsWritten(diamonds, name)
  {
  }

  class DiamondsConfig {
    var hre: RuntimeEnvironment
    var diamonds: Value

    /** Captures `hre.config.diamonds` by reference: no copy is made. */
    constructor (hre: RuntimeEnvironment)
      ensures this.hre == hre && diamonds == hre.config.diamonds
    {
      this.hre := hre;
      this.diamonds := hre.config.diamonds;
    }

    /** The stored entry for `diamondName`, or the "not found" error when it
        is missing or falsy. Changes nothing. */
    method GetDiamondConfig(diamondName: string) returns (r: Result<Value>)
      ensures r == Resolve(diamonds, diamondName)
      ensures HasPathsObject(diamonds) ==>
                (r.Ok? <==> diamondName in PathsOf(diamonds) && Truthy(PathsOf(diamonds)[diamondName]))
      ensures r.Ok? ==> r.value == PathsOf(diamonds)[diamondName]
      ensures HasPathsObject(diamonds) && r.Err? ==> r.error == NotFound(NotFoundMessage(diamondName))
      ensures diamondName !in ObjectPrototypeMembers ==> r == ResolveAsWritten(diamonds, diamondName)
    {
      if diamondName !in ObjectPrototypeMembers {
        ResolveAgreesAsWritten(diamonds, diamondName);
      }
      var paths :- GetProperty(diamonds, "paths");
      var config :- GetOwnProperty(paths, diamondName);
      if !Truthy(config) {
        return Err(NotFound(NotFoundMessage(diamondName)));
      }
      return Ok(config);
    }
  }

  /** Two accessors built from one environment are distinct objects that hold
      the very same `diamonds` block. */
  method AccessorsShareConfig(hre: RuntimeEnvironment) returns (a: DiamondsConfig, b: DiamondsConfig)
    ensures a != b
    ensures a.diamonds == b.diamonds == hre.config.diamonds
  {
    a := new DiamondsConfig(hre);
    b := new DiamondsConfig(hre);
  }

  /** An entry written into the host's `paths` object after construction is
      what the accessor's next lookup returns: there is no snapshot. */
  method WrittenEntryIsVisible(acc: DiamondsConfig, name: string, entry: Value) returns (r: Result<Value>)
    requires HasPathsObject(acc.diamonds)
    requires name != "__proto__"
    requires name != "paths" || acc.diamonds.obj.props["paths"].obj != acc.diamonds.obj
    modifies acc.diamonds.obj.props["paths"].obj
    ensures r == CheckFound(name, entry)
    ensures Truthy(entry) ==> r == Ok(entry)
    ensures HasPathsObject(acc.diamonds)
    ensures acc.diamonds.obj.props["paths"] == old(acc.diamonds.obj.props["paths"])
    ensures PathsOf(acc.diamonds) == old(PathsOf(acc.diamonds))[name := entry]
  {
    var paths := acc.diamonds.obj.props["paths"].obj;
    paths.Set(name, entry);
    r := acc.GetDiamondConfig(name);
  }

  /** An entry deleted from the host's `paths` object fails on the next
      lookup, while the other names still resolve as before. */
  method DeletedEntryIsNotFound(acc: DiamondsConfig, name: string, other: string) returns (r: Result<Value>, s: Result<Value>)
    requires HasPathsObject(acc.diamonds)
    requires name != "paths" || acc.diamonds.obj.props["paths"].obj != acc.diamonds.obj
    requires name != other
    modifies acc.diamonds.obj.props["paths"].obj
    ensures r == Err(NotFound(NotFoundMessage(name)))
    ensures s == Entry(old(PathsOf(acc.diamonds)), other)
    ensures name !in ObjectPrototypeMembers ==> r == ResolveAsWritten(acc.diamonds, name)
    ensures HasPathsObject(acc.diamonds)
    ensures acc.diamonds.obj.props["paths"] == old(acc.diamonds.obj.props["paths"])
    ensures PathsOf(acc.diamonds) == old(PathsOf(acc.diamonds)) - {name}
  {
    var paths := acc.diamonds.obj.props["paths"].obj;
    paths.Delete(name);
    r := acc.GetDiamondConfig(name);
    s := acc.GetDiamondConfig(other);
  }

  /** With the host's `paths` set to null, a lookup fails with a TypeError,
      not with the "not found" error. */
  method NulledPathsIsTypeError(acc: DiamondsConfig, name: string) returns (r: Result<Value>)
    requires acc.diamonds.Ref?
    modifies acc.diamonds.obj
    ensures r == Err(TypeError(CannotReadMessage(Null, name)))
    ensures acc.diamonds.obj.props == old(acc.diamonds.obj.props)["paths" := Null]
  {
    acc.diamonds.obj.Set("paths", Null);
    r := acc.GetDiamondConfig(name);
  }

  /** A failed lookup leaves the accessor as it was: a stored name still
      resolves afterwards. */
  method FailedLookupChangesNothing(acc: DiamondsConfig, missing: string, present: string)
    returns (r: Result<Value>, s: Result<Value>)
    requires HasPathsObject(acc.diamonds)
    requires missing !in PathsOf(acc.diamonds)
    requires present in PathsOf(acc.diamonds) && Truthy(PathsOf(acc.diamonds)[present])
    ensures r.Err? && r.error == NotFound(NotFoundMessage(missing))
    ensures missing !in ObjectPrototypeMembers ==> r == ResolveAsWritten(acc.diamonds, missing)
    ensures s == Ok(PathsOf(acc.diamonds)[present])
  {
    r := acc.GetDiamondConfig(missing);
    s := acc.GetDiamondConfig(present);
  }
}
