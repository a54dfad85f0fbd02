/** The part of `getDiamondConfig` both generations of the accessor share: the
    `!config` guard with its "not found" message, and what a lookup yields from
    a map of named diamond configurations. */
module Lookup {
  import opened Js

  const NotFoundPrefix: string := "Diamond configuration for \""
  const NotFoundSuffix: string := "\" not found."

  /** `Diamond configuration for "<name>" not found.` */
  function NotFoundMessage(name: string): (m: string)
    ensures |m| == |NotFoundPrefix| + |name| + |NotFoundSuffix|
    ensures m[..|NotFoundPrefix|] == NotFoundPrefix
    ensures m[|NotFoundPrefix|..|NotFoundPrefix| + |name|] == name
    ensures m[|NotFoundPrefix| + |name|..] == NotFoundSuffix
  {
    NotFoundPrefix + name + NotFoundSuffix
  }

  /** Recovers the requested name from a "not found" message. */
  function ParseNotFound(m: string): Option<string> {
    var p, s := |NotFoundPrefix|, |NotFoundSuffix|;
    if |m| >= p + s && m[..p] == NotFoundPrefix && m[|m| - s..] == NotFoundSuffix
    then Some(m[p..|m| - s])
    else None
  }

  /** The message carries the requested name, and only it: parsing gives it back. */
  lemma ParseNotFoundInverse(name: string)
    ensures ParseNotFound(NotFoundMessage(name)) == Some(name)
  {
  }

  /** Every message that parses is the message of the name it parses to. */
  lemma NotFoundMessageOfParse(m: string, name: string)
    requires ParseNotFound(m) == Some(name)
    ensures NotFoundMessage(name) == m
  {
  }

  /** Two lookups fail with the same message only when they asked for the same name. */
  lemma NotFoundMessageInjective(a: string, b: string)
    requires NotFoundMessage(a) == NotFoundMessage(b)
    ensures a == b
  {
  }

  /** `if (!config) throw new Error(...); return config;` */
  function CheckFound(name: string, config: Value): (r: Result<Value>)
    ensures r.Ok? <==> Truthy(config)
    ensures r.Ok? ==> r.value == config
    ensures r.Err? ==> r.error == NotFound(NotFoundMessage(name))
  {
    if !Truthy(config) then Err(NotFound(NotFoundMessage(name))) else Ok(config)
  }

  /** What a lookup of `name` yields from an object whose own properties are
      `entries`, reading own properties only. */
  function Entry(entries: map<string, Value>, name: string): (r: Result<Value>)
    ensures r.Ok? <==> name in entries && Truthy(entries[name])
    ensures r.Ok? ==> r.value == entries[name]
    ensures r.Err? ==> r.error == NotFound(NotFoundMessage(name))
  {
    CheckFound(name, OwnValue(entries, name))
  }

  /** The same lookup as the language performs it: a name absent from
      `entries` is still looked up on Object.prototype. */
  function EntryAsWritten(entries: map<string, Value>, name: string): (r: Result<Value>)
    ensures name in entries ==> r == Entry(entries, name)
    ensures name !in entries && name !in ObjectPrototypeMembers ==> r == Entry(entries, name)
  {
    CheckFound(name, if name in entries then entries[name] else Inherited(name))
  }

  /** The discrepancy: a name absent from `entries` that Object.prototype
      defines is "found" by the as-written lookup, and is a NotFound error
      for the own-property lookup. */
  lemma InheritedNameFoundAsWritten(entries: map<string, Value>, name: string)
    requires name !in entries && name in ObjectPrototypeMembers
    ensures EntryAsWritten(entries, name) == Ok(Builtin(name))
    ensures Entry(entries, name) == Err(NotFound(NotFoundMessage(name)))
  {
  }

  /** Writing an entry is what the next lookup sees; other names are unaffected. */
  lemma EntryAfterSet(entries: map<string, Value>, key: string, v: Value, name: string)
    ensures Entry(entries[key := v], name) == if name == key then CheckFound(name, v) else Entry(entries, name)
  {
  }

  /** Deleting an entry makes its name fail; other names are unaffected. */
  lemma EntryAfterDelete(entries: map<string, Value>, key: string, name: string)
    ensures Entry(entries - {key}, name) == if name == key then Err(NotFound(NotFoundMessage(name))) else Entry(entries, name)
  {
  }

  /** A name stored with a falsy value fails exactly as a missing name does. */
  lemma FalsyEntryIsMissing(entries: map<string, Value>, name: string)
    requires name in entries && !Truthy(entries[name])
    ensures Entry(entries, name) == Entry(entries - {name}, name)
  {
  }

  /** Names are matched verbatim: the empty name and case variants of a stored
      name fail unless they are themselves stored. */
  lemma ExactNameMatch(v: Value)
    requires Truthy(v)
    ensures Entry(map["TestDiamond" := v], "TestDiamond") == Ok(v)
    ensures Entry(map["TestDiamond" := v], "testdiamond").Err?
    ensures Entry(map["TestDiamond" := v], "TESTDIAMOND").Err?
    ensures Entry(map["TestDiamond" := v], "").Err?
  {
  }

  /** A change the host's code makes to the shared object holding the
      entries: `o[key] = value` or `delete o[key]`. */
  datatype Edit = Write(key: string, value: Value) | Remove(key: string)

  /** The edit acts on an own property. `o["__proto__"] = value` does not: it
      runs the setter inherited from Object.prototype, which replaces the
      prototype. */
  predicate OnOwnProperty(e: Edit) {
    e.Write? ==> e.key != "__proto__"
  }

  function ApplyEdit(entries: map<string, Value>, e: Edit): map<string, Value> {
    match e
    case Write(k, v) => entries[k := v]
    case Remove(k) => entries - {k}
  }

  /** The entries after `edits`, applied in order. */
  function Applied(entries: map<string, Value>, edits: seq<Edit>): map<string, Value>
    decreases |edits|
  {
    if edits == [] then entries else Applied(ApplyEdit(entries, edits[0]), edits[1..])
  }

  /** The last of `edits` that touches `name`, if any. */
  function LastEditOf(edits: seq<Edit>, name: string): Option<Edit>
    decreases |edits|
  {
    if edits == [] then None
    else
      var later := LastEditOf(edits[1..], name);
      if later.Some? then later else if edits[0].key == name then Some(edits[0]) else None
  }

  /** A lookup after any sequence of edits is decided by the last edit of
      that name alone: its value through the guard, NotFound after a delete,
      and the original lookup when the name was never touched. */
  lemma {:induction false} EntryAfterEdits(entries: map<string, Value>, edits: seq<Edit>, name: string)
    requires forall i :: 0 <= i < |edits| ==> OnOwnProperty(edits[i])
    ensures Entry(Applied(entries, edits), name) ==
              match LastEditOf(edits, name)
              case None => Entry(entries, name)
              case Some(Write(_, v)) => CheckFound(name, v)
              case Some(Remove(_)) => Err(NotFound(NotFoundMessage(name)))
    decreases |edits|
  {
    if edits != [] {
      EntryAfterEdits(ApplyEdit(entries, edits[0]), edits[1..], name);
      match edits[0]
      case Write(k, v) => EntryAfterSet(entries, k, v, name);
      case Remove(k) => EntryAfterDelete(entries, k, name);
    }
  }
}
