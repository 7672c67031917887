# Rx schema validation, modelled in Dafny

Rx describes the shape of generic data (null, booleans, numbers, strings,
lists and string-keyed dicts) with schemas that are themselves such data.
A `Factory` holds two append-only tables: a prefix table that expands short
type names such as `//int` or `/.meta/schema` into type URIs, and a type
registry that maps each URI to a core type or to a learned schema.
`make_schema` compiles a schema document into a tree of checkers, one of the
fourteen core kinds (all, any, arr, bool, def, fail, int, map, nil, num, one,
rec, seq, str). `check(value)` walks the value alongside the tree. It returns
normally or raises a `ValidationError` that records the path to the failing
part.

The model has these files:

- `values.dfy`: the data (`Values.Value`), truthiness, and paths.
- `ranges.dfy`: the range options `min`, `min-ex`, `max-ex` and `max`, and the range predicate they build.
- `names.dfy`: type-name syntax and `expand_uri`.
- `checkers.dfy`: the compiled checker tree. It also holds two specifications:
  - `Accepts`: the value passes.
  - `Raises`: a `ValidationError` that `check` may raise for some dict iteration order.
- `validation.dfy`: the `check` methods as loops that push and pop path segments. They are proved against `Accepts` and `Raises`.
- `schema.dfy`: `make_schema` and the fourteen constructors as one recursive function, with lemmas about what a schema means.
- `extension.dfy`: growing the tables never changes a compilation that succeeded.
- `registry.dfy`: the `Factory` class and its mutating operations. The `Valid` invariant says every learned type stays usable.
- `findings.dfy`: two places where `check` crashes with a `TypeError`. Each is modelled as written, with the correction the rest of the model uses.
- `examples.dfy`: small example schemas, compiled and checked.

Decisions worth knowing when reading the model:

- Errors carry no payload. A definition error is `Results.Error`. A validation error is a `Checkers.Failure`, which holds the kind, the path, the value and a reason code instead of the message text.
- Python's `KeyError`, `TypeError`, `AttributeError` and `ValueError` raised while compiling a schema are all one `Error`.
- Numbers are exact rationals. Python `int`, `long` and `float` are one `Number` case. `IsIntegral` stands for `% 1 == 0`.
- Range bounds compare as CPython 2 does:
  - a `None` bound is absent;
  - a bool bound compares as 0 or 1;
  - a string, list or dict bound is above every number.
- The regular-expression engine is a parameter, `Checkers.Regex(compiles, search)`. The two fixed patterns of `expand_uri` are written out as character classes. This includes `$` matching before a final newline.
- A record's keys and a map's keys are visited in an unspecified order. The methods pick the next key with `:|`. `Raises` allows every error that some order could produce.
- A learned type's stored schema is compiled against the registry without its own entry, because otherwise the recursion would have no measure. `Extension.AliasInFullRegistry` proves this gives what the source computes against the whole registry.

## Model

| member | source | states |
|---|---|---|
| `Ranges.RangeFrom` | python/Rx/__init__.py:29-35 | the range an option dict describes, or an error; its meaning is stated by `Ranges.MakeRangeCheck`, `Ranges.RangeMeaning` and `Ranges.RangeRejectsUnknownKey` |
| `Ranges.InRange` | python/Rx/__init__.py:37-43 | the `check_range` closure; its meaning is stated by `Ranges.RangeMeaning` and `Ranges.RangeExamples` |
| `Ranges.MakeRangeCheck` | python/Rx/__init__.py:29-45 | a dict whose keys are all among min, min-ex, max-ex and max yields the range of those bounds; any other key, or an option that is not a dict, is an error |
| `Ranges.RangeMeaning` | python/Rx/__init__.py:37-43 | the range holds of x exactly when every given option holds: x ≥ min, x > min-ex, x < max-ex, x ≤ max under Python 2 comparison; a None or absent bound constrains nothing |
| `Ranges.RangeRejectsUnknownKey` | python/Rx/__init__.py:31-33 | an option key outside the four bounds is a definition error |
| `Ranges.RangeExamples` | python/Rx/__init__.py:37-43 | `{min: 0, max: 10}` includes both ends; `{min-ex: 0, max-ex: 10}` excludes both ends and includes 1 and 9 |
| `Names.ParseShort` | python/Rx/__init__.py:65 | the short-form pattern match; its meaning is stated by `Names.ParseShortMeaning` |
| `Names.ExpandUri` | python/Rx/__init__.py:62-75 | `expand_uri`; its meaning is stated by `Names.ExpandShort`, `Names.ExpandMalformed`, `Names.ExpandIdempotent`, `Names.ExpandExtends` and `Names.ExpandCoreShort` |
| `Names.ParseShortMeaning` | python/Rx/__init__.py:65 | the short-form parser succeeds with groups (p, l) exactly when the name is `/p/l` (optionally followed by one newline), with p and l over `[-._a-z0-9]` and l non-empty |
| `Names.ExpandShort` | python/Rx/__init__.py:65-75 | a short name `/p/l` expands to base(p) ++ l when p's base is non-empty, and is an error otherwise |
| `Names.ExpandMalformed` | python/Rx/__init__.py:63-68 | a name that is neither qualified nor a short form is an error |
| `Names.ExpandIdempotent` | python/Rx/__init__.py:62-75 | when every registered base is a qualified URI, expanding an expanded name returns it unchanged |
| `Names.ExpandExtends` | python/Rx/__init__.py:62-81 | adding prefixes never changes an expansion that succeeded |
| `Names.DefaultBasesQualified` | python/Rx/__init__.py:50-53 | both built-in bases start with word characters and a colon |
| `Names.ExpandCoreShort` | python/Rx/__init__.py:62-75 | under the built-in prefixes `//name` expands to the core base followed by name |
| `Checkers.Accepts` | python/Rx/__init__.py:148-482 | the values each checker kind's `check` returns on; `Validation.Validate` is proved against it |
| `Checkers.Raises` | python/Rx/__init__.py:148-482 | the `ValidationError`s each `check` may raise, for some dict order; `Validation.Validate` is proved against it, and `Checkers.RaisesRejects` and `Checkers.FailurePathExtends` state its properties |
| `Checkers.RaisesRejects` | python/Rx/__init__.py:148-482 | every error that `Raises` allows is raised only for a value that `Accepts` rejects |
| `Checkers.FailurePathExtends` | python/Rx/__init__.py:205-448 | the path an error reports extends the path the check started from: checks only push segments |
| `Validation.Validate` | python/Rx/__init__.py:220-352 | `c.check(v, path)` returns normally exactly when `Accepts` holds; otherwise the error it raises is one `Raises` allows, including the bool, def, fail, nil and one leaf checks |
| `Validation.Check` | python/Rx/__init__.py:131-132 | the public check starts from the empty path, with the same guarantee as `Validate` |
| `Validation.CheckInt` | python/Rx/__init__.py:267-278 | int passes exactly a number (not a bool) that is integral, in range and equal to `value`; the first failing test, in that order, is reported |
| `Validation.CheckNum` | python/Rx/__init__.py:335-342 | num passes exactly a number in range and equal to `value`, with the first failing test reported |
| `Validation.CheckStr` | python/Rx/__init__.py:473-482 | str passes exactly a string equal to `value`, matched by `pattern` and of a length in range, with the first failing test reported |
| `Validation.CheckAll` | python/Rx/__init__.py:148-152 | all passes exactly when every alternative passes; the first failing alternative's error propagates |
| `Validation.CheckAny` | python/Rx/__init__.py:169-184 | any without alternatives passes everything; otherwise it fails exactly when no alternative passes, with one collected error per alternative |
| `Validation.TryAlternatives` | python/Rx/__init__.py:172-180 | trying every alternative counts no match exactly when none accepts, and then holds each alternative's error in order |
| `Validation.CheckArr` | python/Rx/__init__.py:205-217 | arr rejects a non-list and a list whose length is out of range at its own path; otherwise element i is checked with exactly `Index(i)` pushed |
| `Validation.CheckMap` | python/Rx/__init__.py:296-304 | map rejects a non-dict; otherwise each value is checked with exactly its key pushed |
| `Validation.CheckRec` | python/Rx/__init__.py:379-409 | rec rejects a non-dict and unknown keys without `rest`; then it checks the required fields, then the optional ones, then `rest` on exactly the sub-dict of unknown keys with no segment pushed |
| `Validation.CheckRequired` | python/Rx/__init__.py:392-398 | the required loop passes exactly when every required field is present and accepted; a missing field is reported at the record's own path |
| `Validation.CheckOptional` | python/Rx/__init__.py:400-404 | the optional loop passes exactly when every present optional field is accepted; absent ones are skipped |
| `Validation.CollectUnknown` | python/Rx/__init__.py:384-386 | the unknown keys are exactly the value's keys outside the known fields |
| `Validation.SubDict` | python/Rx/__init__.py:406-408 | `rest` is the value restricted to exactly the unknown keys |
| `Validation.CheckSeq` | python/Rx/__init__.py:429-448 | seq rejects a non-list and a list shorter than `contents`; position i is checked with `Index(i)` pushed; a longer list needs a tail, which checks `value[n:]` with `Index(n)` pushed |
| `Schema.Compile` | python/Rx/__init__.py:101-110 | a schema compiles only when it names a type whose name expands to a registered URI |
| `Schema.CompileNamed` | python/Rx/__init__.py:108-119 | a learned type compiles only without check arguments; a core type builds a checker of its own kind |
| `Schema.Construct` | python/Rx/__init__.py:127-129 | a constructor succeeds only when every parameter is one its kind takes, and builds a checker of that kind |
| `Schema.CompileList` | python/Rx/__init__.py:146 | a list of schemas compiles exactly when each element does, to the element checkers in order |
| `Schema.CompileOptional` | python/Rx/__init__.py:365 | a falsy or absent schema parameter is no checker; a truthy one compiles as its schema does |
| `Schema.ConstructAll` | python/Rx/__init__.py:139-146 | all succeeds exactly when `of` is a truthy list whose every schema compiles, and then holds those checkers in order, at least one |
| `Schema.ConstructAny` | python/Rx/__init__.py:159-167 | any with no `of`, or a null one, accepts everything; otherwise it succeeds exactly when `of` is a truthy list whose every schema compiles, and then holds those checkers in order, with no wildcard |
| `Schema.ConstructArr` | python/Rx/__init__.py:191-203 | arr succeeds exactly when `contents` is truthy and compiles and a truthy `length` holds a range; it holds the compiled `contents`, and the range of a truthy `length` or none for a falsy one |
| `Schema.ConstructInt` | python/Rx/__init__.py:251-265 | int succeeds exactly when a given `value` is an integral number and a present `range` key holds a range, whatever its truthiness |
| `Schema.ConstructMap` | python/Rx/__init__.py:285-294 | map succeeds exactly when `values` is truthy and compiles, to a map of that checker |
| `Schema.ConstructNum` | python/Rx/__init__.py:320-333 | num succeeds exactly when a given `value` is a number and a truthy `range` holds a range; it holds exactly that value and exactly that range, none when `range` is falsy |
| `Schema.ConstructRec` | python/Rx/__init__.py:359-377 | rec succeeds exactly when `rest`, `required` and `optional` compile and no field is in both tables; its tables are the compiled `required` and `optional` tables, with the schema's field names, and its rest is the compiled truthy `rest`, none for a falsy one |
| `Schema.CompileFields` | python/Rx/__init__.py:367-377 | an absent table is empty, a non-dict one is an error, and otherwise each field's schema is compiled |
| `Schema.ConstructSeq` | python/Rx/__init__.py:416-427 | seq succeeds exactly when `contents` is a truthy list whose every schema compiles and a truthy `tail` compiles; it holds the compiled `contents` in order and the compiled truthy `tail`, none for a falsy one |
| `Schema.ConstructStr` | python/Rx/__init__.py:455-471 | str succeeds exactly when a given `value` is a string, a given `pattern` is a string the engine compiles and a given `length` holds a range; it holds exactly that value, pattern and range |
| `SchemaFacts.Bare` | python/Rx/__init__.py:127-129 | the checker each core type builds from a schema with only `type`; `SchemaFacts.ConstructBare` states that the constructors build it |
| `SchemaFacts.ConstructBare` | python/Rx/__init__.py:127-129 | a core type given no check arguments builds its bare checker; all, arr, map and seq reject that |
| `SchemaFacts.Shorthand` | python/Rx/__init__.py:102-103 | a string schema means exactly `{type: s}` |
| `SchemaFacts.LearnedAlias` | python/Rx/__init__.py:114-117 | a learned type with check arguments is an error; without them it compiles as its stored schema does |
| `SchemaFacts.NativeNamed` | python/Rx/__init__.py:118-119 | a document naming a core type is compiled by that type's constructor |
| `SchemaFacts.NativeBare` | python/Rx/__init__.py:101-119 | naming a core type as a bare string gives its bare checker |
| `SchemaFacts.UnresolvedRejected` | python/Rx/__init__.py:102-110 | a schema that is neither a string nor a dict naming a type, or whose name does not expand, or whose URI is unregistered, is an error |
| `SchemaFacts.UnknownParameterRejected` | python/Rx/__init__.py:127-129 | a parameter that a core type does not take makes the schema an error |
| `Extension.CompileExtends` | python/Rx/__init__.py:101-119 | with more prefixes and more registered types, a schema that compiled compiles to the same checker |
| `Extension.AliasInFullRegistry` | python/Rx/__init__.py:117 | compiling a learned type's schema against the whole registry gives the same checker as against the registry without its own entry |
| `Rx.CoreUri` | python/Rx/__init__.py:124-125 | the URI of a core type; `Rx.CoreUriInjective` and `Rx.CoreNameExpands` state its properties |
| `Rx.CoreTable` | python/Rx/__init__.py:56-57 | the registry after registering the first n core types in order; `Rx.CoreRegistry` states its contents |
| `Rx.CoreIndex` | python/Rx/__init__.py:485-489 | every kind appears in the list of core types |
| `Rx.CoreUriInjective` | python/Rx/__init__.py:124-125 | distinct core types have distinct URIs |
| `Rx.CoreRegistry` | python/Rx/__init__.py:56-57 | after registering the core types, each kind sits under its own URI |
| `Rx.CoreNameExpands` | python/Rx/__init__.py:124-125 | `//name` expands to the URI of the core type of that name |
| `Rx.CoreNameMeaning` | python/Rx/__init__.py:110-119 | with a core type registered, `//name` compiles to that type's bare checker |
| `Rx.UsableExtends` | python/Rx/__init__.py:91-99 | growing the tables keeps every learned type's schema compilable |
| `Rx.LearnedNameCompiles` | python/Rx/__init__.py:110-117 | a learned type named by its URI compiles, to what its stored schema compiles to |
| `Rx.Factory.constructor` | python/Rx/__init__.py:49-57 | a new factory has the two built-in prefixes; its registry is empty, or holds exactly the fourteen core types when `register_core_types` is set |
| `Rx.Factory.AddPrefix` | python/Rx/__init__.py:77-81 | a prefix with a non-empty base is refused with nothing changed; otherwise exactly that entry is set |
| `Rx.Factory.RegisterType` | python/Rx/__init__.py:83-89 | an already-registered URI is refused with nothing changed; otherwise exactly that entry is added |
| `Rx.Factory.LearnType` | python/Rx/__init__.py:91-99 | a registered URI, or a schema that does not compile, is refused with nothing changed; otherwise exactly the raw schema is stored under the URI |
| `Findings.ArrStepAsWritten` | python/Rx/__init__.py:205-210 | as written, arr crashes on every list once a length range is set |
| `Findings.ArrLengthCrashes` | python/Rx/__init__.py:209 | `[1, 2]` against an arr of int with length `{min: 1}` crashes, though the schema accepts it |
| `Findings.ArrLengthMeaning` | python/Rx/__init__.py:209-217 | with the length applied to `len(value)`, a list passes exactly when its length is in range and every element passes; a bad length is reported at the list |
| `Findings.StrStepAsWritten` | python/Rx/__init__.py:473-482 | as written, str crashes exactly when only the length test fails |
| `Findings.StrLengthCrashes` | python/Rx/__init__.py:481-482 | `"ab"` against str with length `{max: 1}` crashes instead of raising a validation error |
| `Findings.StrLengthMeaning` | python/Rx/__init__.py:481-482 | a string of the wrong length is rejected with a length mismatch at its own path |
| `Examples.ArrOfIntCompiles` | python/Rx/__init__.py:191-203 | `{type: //arr, contents: //int}` compiles to a list-of-integers checker with no length |
| `Examples.FactoryHasCore` | python/Rx/__init__.py:56-57 | the registry a factory builds with the core types holds every core type |
| `Examples.ArrOfIntAccepts` | python/Rx/__init__.py:212-217 | `[1, 2]` passes a list of integers |
| `Examples.ArrOfIntRejects` | python/Rx/__init__.py:212-217 | `[1, "x"]` fails at index 1 with a wrong type |
| `Examples.RecordUnknownKey` | python/Rx/__init__.py:384-390 | an unknown key without `rest` is reported at the record, listing the unknown keys |
| `Examples.RecordMissingField` | python/Rx/__init__.py:392-395 | a missing required field is reported at the record |
| `Examples.RecordRest` | python/Rx/__init__.py:406-409 | with a `rest` schema the unknown keys are checked together as one dict |
| `Examples.SequenceWithoutTail` | python/Rx/__init__.py:443-445 | a list longer than `contents` without a tail fails |
| `Examples.SequenceTail` | python/Rx/__init__.py:443-448 | with a tail, the remaining elements are checked as one list |

## Left out

- Error message text and `ValidationError.__repr__` are not modelled. This includes the misleading "value is null" messages. A failure carries a reason code instead.
- Floating point is not modelled: there is no rounding, NaN or infinity. Numbers are exact rationals.
- The shared mutable default `stack=[]` is not modelled. In the source, a child that raises never pops its segment. The default list therefore keeps those segments across later calls and later `any` alternatives, and later errors report longer paths. The model passes a call-local path, and each public check starts from the empty path. Only the reported paths differ: which values pass is the same.
- Which error is raised first when several dict keys fail is not modelled. Python 2's dict order is unspecified here, so `Raises` admits the error of every order.
- A dict given as the `of` of all or any, or as the `contents` of seq, is an error in the model. Python would iterate the dict's keys and compile each as a schema.
- Custom type classes passed to `register_type`, other than the fourteen core types, are not modelled: their constructors and checks are code the model cannot see. `Rx.Factory.RegisterType` takes a core kind.
- Validation.CheckStr and Checkers.Accepts: Python 2 `str` (bytes) and `unicode` are one `Text` case of characters. For a non-ASCII byte `str`, `len(value)` counts bytes while the model counts characters, and `value` equality between a byte `str` and a `unicode` string, which Python decodes as ASCII, is not modelled.
- Non-string dict keys are not modelled. Values and schemas use string keys.
- `re.compile` accepting a compiled pattern object is not modelled. The `pattern` parameter must be a string.
- The regular-expression engine is a parameter (`compiles`, `search`). Regex syntax is not modelled.
- A registry cycle through learned types cannot be built with `learn_type`, which compiles the schema before storing it. Entries added any other way are not modelled.
- Schema.Compile: its own contract states only that a compiled schema resolves. What compilation yields is stated by `Schema.CompileNamed`, `Schema.Construct`, the constructor functions and the `SchemaFacts` lemmas.
- Findings.ArrStepAsWritten and Findings.StrStepAsWritten model only the step of one checker's own `check` in which the crash happens. The crash is not propagated through enclosing checkers.
- Rx.Factory.AddPrefix, Rx.Factory.RegisterType and Rx.Factory.LearnType return `Error` where the source raises `Error` or `ValueError`. The tables are unchanged in both.

## Findings

| source | as written | input that shows it | evidently intended | confidence | as-written member | corrected member |
|---|---|---|---|---|---|---|
| python/Rx/__init__.py:209 | `self.length(len(value), stack)` calls the one-argument range closure with two arguments, so a `TypeError` is raised for every list once `length` is set | schema `{type: //arr, contents: //int, length: {min: 1}}`, value `[1, 2]` | `self.length(len(value))`: reject with a range mismatch only when the length is out of range | high, not executed | `Findings.ArrLengthCrashes` | `Validation.CheckArr`, with `Findings.ArrLengthMeaning` |
| python/Rx/__init__.py:482 | the message formats the range closure with `%d`, so a `TypeError` is raised instead of the `ValidationError` whenever the length test fails | schema `{type: //str, length: {max: 1}}`, value `"ab"` | raise a `ValidationError` for the length mismatch | high, not executed | `Findings.StrLengthCrashes` | `Validation.CheckStr`, with `Findings.StrLengthMeaning` |
