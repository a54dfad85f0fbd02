# hardhat-diamonds, modelled in Dafny

This is a model of the hardhat-diamonds plugin for the Hardhat framework. The plugin adds a
`diamonds` block to Hardhat's resolved configuration. The block names per-project path settings
for "diamond" proxy contracts. The plugin also attaches an accessor to the runtime environment,
so that scripts can fetch one named diamond configuration.

The plugin does two things, and the repository holds two generations of each:

- **Config merge.** The current `extendConfig` callback (`dist/src/index.js`) sets
  `config.diamonds` to a fresh object `{ ...{ paths: {} }, ...userConfig.diamonds }`. This is a
  shallow merge, so a user-supplied `paths` replaces the default whole. The older callback
  (`src/index.ts`) sets `config.diamonds = userConfig.diamonds ?? {}`.
- **Lookup accessor.** `DiamondsConfig` (`src/DiamondsConfig.ts`) keeps a reference to
  `hre.config.diamonds`, never a copy. `getDiamondConfig(name)` returns `paths[name]`, or throws
  `Diamond configuration for "<name>" not found.` when that value is falsy. The older
  `HardhatRuntimeEnvironmentFields` (`src/HardhatRuntimeEnvironmentFields.ts`) looks the name up
  directly in the block, with no `paths` step.

Files and modules:

- `js.dfy`, module `Js`: JavaScript values and ordinary objects. Objects are Dafny heap objects
  (`JsObject`, with a map of own properties), so `===` on objects is reference equality. The
  module also holds property read (with the Object.prototype fallback and the TypeError on
  null/undefined), truthiness (ECMAScript 2024, section 7.1.2), `??`, object spread, and a
  `Result` type that stands in for a thrown error.
- `host.dfy`, module `Host`: the host objects the plugin touches. These are the resolved config
  (`HardhatConfig`: the `diamonds` field plus every other field), the read-only user config, and
  the runtime environment.
- `lookup.dfy`, module `Lookup`: what both accessor generations share. This is the `!config`
  guard, the "not found" message and its inverse, and the lookup on a map of entries, with its
  lemmas about writes, deletes, falsy values and exact-name matching.
- `diamonds_config.dfy`, module `Accessor`: `src/DiamondsConfig.ts`.
- `plugin.dfy`, module `Plugin`: `dist/src/index.js`.
- `legacy_fields.dfy`, module `LegacyFields`: `src/HardhatRuntimeEnvironmentFields.ts`.
- `legacy_plugin.dfy`, module `LegacyPlugin`: `src/index.ts`.

`dist/src/index.js` and `src/DiamondsConfig.ts` form the current shape: `dist/src/index.js:38-39`
exports this `DiamondsConfig`. `src/index.ts` imports a `DiamondsUserConfig` that
`src/type-extensions.ts` does not declare, so it is the stale generation. It is modelled
separately, in the `Legacy*` modules.

Two facts about the lookup shape the model:

- The lookup fails when the stored value is falsy, not only when the key is absent
  (`Lookup.FalsyEntryIsMissing`).
- As written, the lookup also finds the members every object inherits from Object.prototype
  (`toString`, `constructor`, ...). That is logged under Findings. The accessor classes use the
  corrected own-property read, and the as-written read is kept beside it
  (`Accessor.ResolveAsWritten`, `LegacyFields.ResolveFlatAsWritten`).

## Model

| member | source | states |
|---|---|---|
| `Lookup.NotFoundMessage` | src/DiamondsConfig.ts:36 | The error message is `Diamond configuration for "`, then the requested name verbatim, then `" not found.`. Its length and the position of the name are fixed by the name's length. |
| `Lookup.ParseNotFoundInverse` | src/DiamondsConfig.ts:36 | Parsing a "not found" message gives back exactly the name that was requested. |
| `Lookup.NotFoundMessageOfParse` | src/DiamondsConfig.ts:36 | Any message that parses to a name is that name's "not found" message (the converse round trip). |
| `Lookup.NotFoundMessageInjective` | src/DiamondsConfig.ts:36 | Two lookups fail with the same message only if they asked for the same name. |
| `Lookup.CheckFound` | src/DiamondsConfig.ts:35-38 | The guard succeeds exactly when the value is truthy, and then returns that value itself. Otherwise it fails with the NotFound error that carries the name's message. |
| `Lookup.Entry` | src/DiamondsConfig.ts:34-38 | A lookup in a map of entries succeeds if and only if the name is a key holding a truthy value. It then returns the stored value; otherwise it is NotFound with the name's message. |
| `Lookup.EntryAsWritten` | src/DiamondsConfig.ts:34-38 | The language's own lookup agrees with `Entry` for stored names and for names that Object.prototype does not define. |
| `Lookup.InheritedNameFoundAsWritten` | src/DiamondsConfig.ts:34-35 | For a name that is not stored but that Object.prototype defines, the language's lookup returns the inherited member. The own-property lookup fails with NotFound. |
| `Lookup.EntryAfterSet` | src/DiamondsConfig.ts:34 | After writing `key`, a lookup of `key` sees the new value through the guard. Every other name resolves as before. |
| `Lookup.EntryAfterDelete` | src/DiamondsConfig.ts:34-37 | After deleting `key`, a lookup of `key` is NotFound. Every other name resolves as before. |
| `Lookup.EntryAfterEdits` | src/DiamondsConfig.ts:16-39 | After any sequence of writes and deletes on the shared entries object, a lookup of a name is decided by the last edit of that name alone. A write gives its value through the guard, a delete gives NotFound, and an untouched name resolves as before. Because the accessor holds the object and not a snapshot, this is what `GetDiamondConfig` returns after such edits, under its corrected own-property read. As written, a deleted or never-stored Object.prototype name yields the inherited member instead (see Findings). Writes of the key `__proto__` are excluded, since they run the inherited prototype setter and create no entry. |
| `Lookup.FalsyEntryIsMissing` | src/DiamondsConfig.ts:35 | A name stored with a falsy value fails exactly as the same name with its entry removed. |
| `Lookup.ExactNameMatch` | src/DiamondsConfig.ts:34 | With only `TestDiamond` stored: the name itself resolves; `testdiamond`, `TESTDIAMOND` and `""` fail. |
| `Accessor.Resolve` | src/DiamondsConfig.ts:33-39 | When the block holds a `paths` object, the lookup is `Entry` on that object's current properties. A success always comes from a stored, truthy entry of `paths` and returns that entry itself. A null or undefined block or `paths` gives a TypeError, not NotFound. |
| `Accessor.ResolveAsWritten` | src/DiamondsConfig.ts:34-38 | The lookup as the language evaluates it (prototype fallback included) is `EntryAsWritten` on the `paths` object. |
| `Accessor.ResolveAgreesAsWritten` | src/DiamondsConfig.ts:34-38 | The corrected lookup and the as-written one give the same result for every name that is not a member of Object.prototype, and for every name `paths` stores. They differ only on the twelve Object.prototype names that `paths` lacks. |
| `Accessor.InheritedNameResolvesAsWritten` | src/DiamondsConfig.ts:34-38 | For any `paths` object that lacks a member of Object.prototype, the as-written lookup of that member's name succeeds with the inherited member. The corrected lookup throws NotFound. |
| `Accessor.DiamondsConfig.constructor` | src/DiamondsConfig.ts:16-20 | The accessor keeps `hre`, and its `diamonds` is the very value at `hre.config.diamonds`. No copy is made. |
| `Accessor.DiamondsConfig.GetDiamondConfig` | src/DiamondsConfig.ts:33-39 | Over a `paths` object, the call succeeds if and only if the name is stored with a truthy value, and it returns that stored value itself. Otherwise it fails with NotFound and the name's message. It has no modifies clause, so it changes nothing. It uses the corrected own-property read: for every name that is not one of the twelve members of Object.prototype, the result equals the source's as-written lookup (`ResolveAsWritten`). For those twelve names it fails where the source returns the inherited member (see Findings). |
| `Accessor.AccessorsShareConfig` | src/DiamondsConfig.ts:16-19 | Two accessors built from one environment are distinct objects holding the identical `diamonds` block. |
| `Accessor.WrittenEntryIsVisible` | src/DiamondsConfig.ts:34 | Writing an entry into the host's `paths` object after construction is seen by the accessor's next lookup, with no stale snapshot. A truthy entry is returned as is. The name `__proto__` is excluded, since assigning it runs the inherited prototype setter. `paths` may be the block itself unless the name written is `paths`. Afterwards the block still holds the same `paths` object, whose entries are the old ones with `name` set to the entry. |
| `Accessor.DeletedEntryIsNotFound` | src/DiamondsConfig.ts:34-37 | Deleting an entry from the host's `paths` object makes the next lookup of it NotFound under the corrected read. For a name that is not an Object.prototype member, this is also the as-written result. Any other name resolves as it did before the delete. Afterwards the block still holds the same `paths` object, whose entries are the old ones without `name`. `paths` may be the block itself unless the name deleted is `paths`. |
| `Accessor.NulledPathsIsTypeError` | src/DiamondsConfig.ts:34 | With `paths` set to null after construction, a lookup fails with the engine's TypeError for reading from null, not with NotFound. The block's properties are the old ones with `paths` set to null. |
| `Accessor.FailedLookupChangesNothing` | src/DiamondsConfig.ts:33-39 | A failed lookup is followed by a successful lookup of a stored name on the same accessor. The failure is NotFound under the corrected read. For a missing name that is not an Object.prototype member, it is also the as-written result. |
| `Plugin.MergedProps` | dist/src/index.js:25-32 | The merged block always has `paths`. Its keys are `paths` plus the user's keys. Every user key, `paths` included, keeps the user's value unchanged (the user's `paths` object itself, not a key-wise merge). Without a user `paths`, the default `paths` object is used. |
| `Plugin.NoUserBlockGivesEmptyPaths` | dist/src/index.js:25-32 | With no user block (or a non-object one), the merge is exactly `{ paths: <default> }`. |
| `Plugin.MergedPathsIsObject` | dist/src/index.js:29-32 | The merged `paths` is an ordinary object if and only if the user gave no `paths`, or gave an ordinary object there. A malformed user `paths` is passed through unchecked. |
| `Plugin.ExtendConfig` | dist/src/index.js:22-33 | `config.diamonds` becomes a fresh object with the merged properties. Without a user `paths` it holds a fresh, empty `paths` object. Only `config.diamonds` is written. |
| `Plugin.ExtendEnvironment` | dist/src/index.js:34-37 | `hre.diamonds` becomes a fresh `DiamondsConfig` built from `hre`, whose `diamonds` is `hre.config.diamonds` itself. |
| `Plugin.LoadWithoutUserBlock` | dist/src/index.js:22-37 | Config load and then environment construction, with no user block: looking up any name through the attached accessor is NotFound. This holds under the corrected own-property read; as written, the twelve members of Object.prototype would be returned instead (see Findings). |
| `LegacyFields.ResolveFlat` | src/HardhatRuntimeEnvironmentFields.ts:24-30 | Over an object block, the lookup is `Entry` on the block's own top-level properties, with no `paths` step. A success returns the stored truthy entry itself. A null or undefined block gives a TypeError. |
| `LegacyFields.ResolveFlatAsWritten` | src/HardhatRuntimeEnvironmentFields.ts:25-29 | The flat lookup as the language evaluates it is `EntryAsWritten` on the block's properties. |
| `LegacyFields.InheritedNameResolvesFlatAsWritten` | src/HardhatRuntimeEnvironmentFields.ts:25-29 | For a block lacking a member of Object.prototype, the as-written flat lookup returns the inherited member. The corrected one throws NotFound. |
| `LegacyFields.HardhatRuntimeEnvironmentFields.constructor` | src/HardhatRuntimeEnvironmentFields.ts:8-11 | The accessor keeps `hre`, and its `diamondsConfig` is the very value at `hre.config.diamonds`. |
| `LegacyFields.HardhatRuntimeEnvironmentFields.GetDiamondsConfig` | src/HardhatRuntimeEnvironmentFields.ts:16-18 | Returns the held block itself (the same reference) and changes nothing. |
| `LegacyFields.HardhatRuntimeEnvironmentFields.GetDiamondConfig` | src/HardhatRuntimeEnvironmentFields.ts:24-30 | Over an object block, the call succeeds if and only if the name is a top-level key with a truthy value, and returns that value itself. Otherwise it fails with NotFound and the name's message. It changes nothing. It uses the corrected own-property read: for every name that is not one of the twelve members of Object.prototype, the result equals the source's as-written lookup (`ResolveFlatAsWritten`). For those twelve names it fails where the source returns the inherited member (see Findings). |
| `LegacyFields.ResolveFlatAgreesAsWritten` | src/HardhatRuntimeEnvironmentFields.ts:25-29 | The corrected flat lookup and the as-written one give the same result for every name that is not a member of Object.prototype, and for every name the block stores. |
| `LegacyPlugin.ExtendConfig` | src/index.ts:8-12 | A user block that is neither null nor undefined becomes `config.diamonds` as is, with no copy. Otherwise `config.diamonds` is a fresh empty object. Only `config.diamonds` is written. |
| `LegacyPlugin.ExtendEnvironment` | src/index.ts:14-17 | `hre.diamonds` becomes a fresh `HardhatRuntimeEnvironmentFields` built from `hre`, holding `hre.config.diamonds` itself. |

## Findings

| source | as written | input that shows it | evidently intended | confidence | as-written member | corrected member |
|---|---|---|---|---|---|---|
| src/DiamondsConfig.ts:34 | The name is read from `paths` with an ordinary property read, which falls back to Object.prototype. The `!config` guard then sees an inherited function, which is truthy. | `paths = {}` and name `"toString"` (or `"constructor"`, `"hasOwnProperty"`, `"__proto__"`, ...): the inherited member is returned instead of the "not found" error. | Only names stored in `paths` are found; every other name throws `Diamond configuration for "<name>" not found.` | high; not executed | `Accessor.InheritedNameResolvesAsWritten` (about `Accessor.ResolveAsWritten`) | `Accessor.Resolve` |
| src/HardhatRuntimeEnvironmentFields.ts:25 | The same inherited-member read, on the top-level block. | block `{}` and name `"toString"`: the inherited member is returned. | Only names stored in the block are found. | high; not executed | `LegacyFields.InheritedNameResolvesFlatAsWritten` (about `LegacyFields.ResolveFlatAsWritten`) | `LegacyFields.ResolveFlat` |

The two accessor classes use the corrected own-property lookup (`Js.GetOwnProperty`). Everything
else in their lookup is as written, including the truthiness guard.

## Left out

- `lazyObject`, the host's deferred-construction wrapper around the accessor, is a foreign
  library. The extenders construct the accessor eagerly; construction is constant-time and has
  no effect beyond the new object.
- Numbers are mathematical integers. NaN, -0 and fractions are not modelled, so the falsy
  numbers are just 0. BigInt values are not modelled either, so the falsy `0n` cannot be stored.
- Spreading a string user block (which would copy its characters under index keys) is not
  modelled. `Js.SpreadProps` treats every non-object as contributing nothing. That is exact for
  null, undefined, booleans and numbers.
- Property reads on a boolean, number, string or function receiver see only Object.prototype's
  members. String indices, `length` and the members of the other built-in prototypes are not
  modelled. The declared types never put such a value where the plugin reads.
- Objects are ordinary objects whose prototype is Object.prototype, with own enumerable data
  properties only. Symbol keys, getters, non-enumerable properties, prototype-less objects, and
  the host's freezing of the user config are not modelled.
- A thrown error is a `Result` carrying its kind and message. `Error` object identity and
  stacks are not modelled. The TypeError text is the V8 engine's wording.
- The compiled duplicates are not modelled: `dist/src/DiamondsConfig.js`, `dist/DiamondsConfig.js`,
  `dist/HardhatRuntimeEnvironmentFields.js`, and `dist/index.js` (an older merge with no default,
  which also logs to the console). They repeat the modelled sources. The same goes for the
  `getDiamondsConfig` that is commented out in `src/DiamondsConfig.ts`.
- `src/internal/testDeployer.ts` and `src/internal/upgrade.ts` are not part of this model. They
  do asynchronous deployment, JSON-RPC calls and file output through external libraries.
- Type-only files, `hardhat.config.ts` and the test suite carry no behaviour. The 1,000-name and
  timing tests concern speed, which a model does not capture.
- `Accessor.DiamondsConfig.GetDiamondConfig` uses the corrected own-property read. It differs
  from the source as written on the twelve names of Object.prototype's members when `paths` lacks
  them. The as-written result is stated by `Accessor.ResolveAsWritten`, and the agreement on
  every other name by the method's last `ensures`.
- `LegacyFields.HardhatRuntimeEnvironmentFields.GetDiamondConfig` uses the corrected own-property
  read. It differs from the source as written on the same twelve names when the block lacks them
  (`LegacyFields.ResolveFlatAsWritten`).
- `Plugin.LoadWithoutUserBlock` promises NotFound for every name under the corrected read. As
  written, the twelve Object.prototype names would be returned as inherited members.
- `Js.JsObject.Set` does not model assigning the key `__proto__`, which runs the inherited setter
  and replaces the object's prototype. Prototypes other than Object.prototype are not modelled.
  For the same reason `Accessor.WrittenEntryIsVisible` and `Lookup.EntryAfterEdits` exclude
  writes of that key.
- `Lookup.EntryAfterEdits` is about the own-property lookup `Lookup.Entry`. Through the source's
  as-written read, a deleted or never-stored Object.prototype name yields the inherited member
  instead (`Lookup.EntryAsWritten`).
- `Accessor.DeletedEntryIsNotFound` promises NotFound under the corrected own-property read. As
  written, deleting one of the twelve Object.prototype names leaves the inherited member visible.
- `Accessor.FailedLookupChangesNothing` promises NotFound for the missing name under the
  corrected read. As written, a missing Object.prototype name returns the inherited member.
