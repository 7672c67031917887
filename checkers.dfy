/** The fourteen core checker kinds and what their `check(value, stack)`
    does: `Accepts` says whether it returns normally, `Raises` which
    `ValidationError` it may raise. The stack is an immutable path. */
module Checkers {
  import opened Results
  import opened Values
  import opened Ranges

  /** The core type classes, by their `subname()`. */
  datatype Kind = All | Any | Arr | Bool | Def | Fail | Int | Map | Nil | Num | One | Rec | Seq | Str

  function Subname(k: Kind): string
  {
    match k
    case All => "all"
    case Any => "any"
    case Arr => "arr"
    case Bool => "bool"
    case Def => "def"
    case Fail => "fail"
    case Int => "int"
    case Map => "map"
    case Nil => "nil"
    case Num => "num"
    case One => "one"
    case Rec => "rec"
    case Seq => "seq"
    case Str => "str"
  }

  /** The regular-expression engine (`re`): which pattern sources compile,
      and whether a compiled pattern matches somewhere in a string. */
  datatype Regex = Regex(compiles: string -> bool, search: (string, string) -> bool)

  /** A compiled schema: one constructor per `*Type` class, holding what its
      `__init__` keeps. */
  datatype Checker =
    | AllType(alts: seq<Checker>)
    | AnyType(wildcard: bool, choices: seq<Checker>)
    | ArrType(contents: Checker, length: Option<Range>)
    | BoolType
    | DefType
    | FailType
    | IntType(range: Option<Range>, intValue: Option<int>)
    | MapType(values: Checker)
    | NilType
    | NumType(numRange: Option<Range>, numValue: Option<real>)
    | OneType
    | RecType(required: map<string, Checker>, optional: map<string, Checker>, rest: Option<Checker>)
    | SeqType(items: seq<Checker>, tail: Option<Checker>)
    | StrType(strValue: Option<string>, pattern: Option<string>, strLength: Option<Range>)

  function KindOf(c: Checker): Kind
  {
    match c
    case AllType(_) => All
    case AnyType(_, _) => Any
    case ArrType(_, _) => Arr
    case BoolType => Bool
    case DefType => Def
    case FailType => Fail
    case IntType(_, _) => Int
    case MapType(_) => Map
    case NilType => Nil
    case NumType(_, _) => Num
    case OneType => One
    case RecType(_, _, _) => Rec
    case SeqType(_, _) => Seq
    case StrType(_, _, _) => Str
  }

  /** Which test of a `check` failed (the message text is not modelled). */
  datatype Reason =
    | WrongType
    | NotIntegral
    | OutOfRange
    | ValueMismatch
    | PatternMismatch
    | LengthMismatch
    | Forced
    | UnknownKeys(keys: set<string>)
    | MissingField(field: string)
    | TooShort
    | NoTail
    | NoAlternative

  /** A `ValidationError`: the kind of checker that raised it, the snapshot
      of the path, the offending value, and for `any` the errors of all its
      alternatives. */
  datatype Failure = Failure(kind: Kind, path: Path, value: Value, reason: Reason, causes: seq<Failure>)

  function Leaf(k: Kind, path: Path, v: Value, why: Reason): Failure
  {
    Failure(k, path, v, why, [])
  }

  /** The keys of a dict that a record names neither as required nor as optional. */
  function Unknown(fields: map<string, Value>, required: map<string, Checker>, optional: map<string, Checker>): set<string>
  {
    fields.Keys - required.Keys - optional.Keys
  }

  /** The sub-dict of `fields` on `keys` (the `rest` dict of `RecType.check`). */
  function Restrict(fields: map<string, Value>, keys: set<string>): map<string, Value>
  {
    map k | k in fields && k in keys :: fields[k]
  }

  predicate NumberInRange(r: Option<Range>, n: real)
  {
    r.None? || InRange(r.value, n)
  }

  /** `c.check(v)` returns without raising. */
  predicate Accepts(re: Regex, c: Checker, v: Value)
    decreases c
  {
    match c
    case AllType(alts) =>
      forall i :: 0 <= i < |alts| ==> Accepts(re, alts[i], v)
    case AnyType(wildcard, alts) => wildcard || exists i :: 0 <= i < |alts| && Accepts(re, alts[i], v)
    case ArrType(contents, length) =>
      && v.List?
      && WithinLength(length, |v.items|)
      && forall i :: 0 <= i < |v.items| ==> Accepts(re, contents, v.items[i])
    case BoolType => v.Boolean?
    case DefType => !v.Null?
    case FailType => false
    case IntType(range, value) =>
      && v.Number?
      && IsIntegral(v.n)
      && NumberInRange(range, v.n)
      && (value.Some? ==> v.n == value.value as real)
    case MapType(values) =>
      v.Dict? && forall k :: k in v.fields ==> Accepts(re, values, v.fields[k])
    case NilType => v.Null?
    case NumType(range, value) =>
      && v.Number?
      && NumberInRange(range, v.n)
      && (value.Some? ==> v.n == value.value)
    case OneType => v.Boolean? || v.Number? || v.Text?
    case RecType(required, optional, rest) =>
      && v.Dict?
      && var unknown := Unknown(v.fields, required, optional);
      && (unknown != {} ==> rest.Some?)
      && (forall k :: k in required ==> k in v.fields && Accepts(re, required[k], v.fields[k]))
      && (forall k :: k in optional && k in v.fields ==> Accepts(re, optional[k], v.fields[k]))
      && (unknown != {} ==> Accepts(re, rest.value, Dict(Restrict(v.fields, unknown))))
    case SeqType(items, tail) =>
      && v.List?
      && |v.items| >= |items|
      && (forall i :: 0 <= i < |items| ==> Accepts(re, items[i], v.items[i]))
      && (|v.items| > |items| ==> tail.Some? && Accepts(re, tail.value, List(v.items[|items|..])))
    case StrType(value, pattern, length) =>
      && v.Text?
      && (value.Some? ==> v.s == value.value)
      && (pattern.Some? ==> re.search(pattern.value, v.s))
      && WithinLength(length, |v.s|)
  }

  /** Every `ValidationError` that `c.check(v, path)` can raise, for some
      iteration order of the dicts involved. Lists are walked in order, so
      for them the first failing element is the one reported. */
  ghost predicate Raises(re: Regex, c: Checker, v: Value, path: Path, f: Failure)
    decreases c
  {
    match c
    case AllType(alts) =>
      exists i :: 0 <= i < |alts| && (forall j :: 0 <= j < i ==> Accepts(re, alts[j], v)) && Raises(re, alts[i], v, path, f)
    case AnyType(wildcard, alts) =>
      && !wildcard
      && f.kind == Any && f.path == path && f.value == v && f.reason == NoAlternative
      && |f.causes| == |alts|
      && forall i :: 0 <= i < |alts| ==> Raises(re, alts[i], v, path, f.causes[i])
    case ArrType(contents, length) =>
      if !v.List? then f == Leaf(Arr, path, v, WrongType)
      else if !WithinLength(length, |v.items|) then f == Leaf(Arr, path, v, LengthMismatch)
      else exists i :: 0 <= i < |v.items| && (forall j :: 0 <= j < i ==> Accepts(re, contents, v.items[j]))
                       && Raises(re, contents, v.items[i], path + [Index(i)], f)
    case BoolType => !v.Boolean? && f == Leaf(Bool, path, v, WrongType)
    case DefType => v.Null? && f == Leaf(Def, path, v, WrongType)
    case FailType => f == Leaf(Fail, path, v, Forced)
    case IntType(range, value) =>
      if !v.Number? then f == Leaf(Int, path, v, WrongType)
      else if !IsIntegral(v.n) then f == Leaf(Int, path, v, NotIntegral)
      else if !NumberInRange(range, v.n) then f == Leaf(Int, path, v, OutOfRange)
      else value.Some? && v.n != value.value as real && f == Leaf(Int, path, v, ValueMismatch)
    case MapType(values) =>
      if !v.Dict? then f == Leaf(Map, path, v, WrongType)
      else exists k :: k in v.fields && Raises(re, values, v.fields[k], path + [Key(k)], f)
    case NilType => !v.Null? && f == Leaf(Nil, path, v, WrongType)
    case NumType(range, value) =>
      if !v.Number? then f == Leaf(Num, path, v, WrongType)
      else if !NumberInRange(range, v.n) then f == Leaf(Num, path, v, OutOfRange)
      else value.Some? && v.n != value.value && f == Leaf(Num, path, v, ValueMismatch)
    case OneType => !(v.Boolean? || v.Number? || v.Text?) && f == Leaf(One, path, v, WrongType)
    case RecType(required, optional, rest) =>
      if !v.Dict? then f == Leaf(Rec, path, v, WrongType)
      else
        var unknown := Unknown(v.fields, required, optional);
        if unknown != {} && rest.None? then f == Leaf(Rec, path, v, UnknownKeys(unknown))
        else if !(forall k :: k in required ==> k in v.fields && Accepts(re, required[k], v.fields[k])) then
          exists k :: k in required &&
            if k !in v.fields then f == Leaf(Rec, path, v, MissingField(k))
            else Raises(re, required[k], v.fields[k], path + [Key(k)], f)
        else if !(forall k :: k in optional && k in v.fields ==> Accepts(re, optional[k], v.fields[k])) then
          exists k :: k in optional && k in v.fields && Raises(re, optional[k], v.fields[k], path + [Key(k)], f)
        else unknown != {} && Raises(re, rest.value, Dict(Restrict(v.fields, unknown)), path, f)
    case SeqType(items, tail) =>
      if !v.List? then f == Leaf(Seq, path, v, WrongType)
      else if |v.items| < |items| then f == Leaf(Seq, path, v, TooShort)
      else if !(forall i :: 0 <= i < |items| ==> Accepts(re, items[i], v.items[i])) then
        exists i :: 0 <= i < |items| && (forall j :: 0 <= j < i ==> Accepts(re, items[j], v.items[j]))
                    && Raises(re, items[i], v.items[i], path + [Index(i)], f)
      else if |v.items| == |items| then false
      else if tail.None? then f == Leaf(Seq, path, v, NoTail)
      else Raises(re, tail.value, List(v.items[|items|..]), path + [Index(|items|)], f)
    case StrType(value, pattern, length) =>
      if !v.Text? then f == Leaf(Str, path, v, WrongType)
      else if value.Some? && v.s != value.value then f == Leaf(Str, path, v, ValueMismatch)
      else if pattern.Some? && !re.search(pattern.value, v.s) then f == Leaf(Str, path, v, PatternMismatch)
      else !WithinLength(length, |v.s|) && f == Leaf(Str, path, v, LengthMismatch)
  }

  /** A check that raises does not accept. */
  lemma {:induction false} RaisesRejects(re: Regex, c: Checker, v: Value, path: Path, f: Failure)
    requires Raises(re, c, v, path, f)
    ensures !Accepts(re, c, v)
    decreases c, 1
  {
    match c
    case AllType(alts) =>
      var i :| 0 <= i < |alts| && Raises(re, alts[i], v, path, f);
      RaisesRejects(re, alts[i], v, path, f);
    case AnyType(_, alts) =>
      forall i | 0 <= i < |alts| ensures !Accepts(re, alts[i], v) {
        RaisesRejects(re, alts[i], v, path, f.causes[i]);
      }
    case ArrType(_, _) =>
      ListRaisesRejects(re, c, v, path, f);
    case MapType(values) =>
      if v.Dict? {
        var k :| k in v.fields && Raises(re, values, v.fields[k], path + [Key(k)], f);
        RaisesRejects(re, values, v.fields[k], path + [Key(k)], f);
      }
    case RecType(_, _, _) =>
      RecRaisesRejects(re, c, v, path, f);
    case SeqType(_, _) =>
      ListRaisesRejects(re, c, v, path, f);
    case _ =>
      LeafRaisesRejects(re, c, v, path, f);
  }

  lemma {:induction false} ListRaisesRejects(re: Regex, c: Checker, v: Value, path: Path, f: Failure)
    requires (c.ArrType? || c.SeqType?) && Raises(re, c, v, path, f)
    ensures !Accepts(re, c, v)
    decreases c, 0
  {
    match c
    case ArrType(contents, length) =>
      if v.List? && WithinLength(length, |v.items|) {
        var i :| 0 <= i < |v.items| && Raises(re, contents, v.items[i], path + [Index(i)], f);
        RaisesRejects(re, contents, v.items[i], path + [Index(i)], f);
      }
    case SeqType(items, tail) =>
      if v.List? && |v.items| > |items| && tail.Some? && (forall i :: 0 <= i < |items| ==> Accepts(re, items[i], v.items[i])) {
        RaisesRejects(re, tail.value, List(v.items[|items|..]), path + [Index(|items|)], f);
      }
  }

  lemma LeafRaisesRejects(re: Regex, c: Checker, v: Value, path: Path, f: Failure)
    requires !(c.AllType? || c.AnyType? || c.ArrType? || c.MapType? || c.RecType? || c.SeqType?)
    requires Raises(re, c, v, path, f)
    ensures !Accepts(re, c, v)
  {
  }

  lemma {:induction false} RecRaisesRejects(re: Regex, c: Checker, v: Value, path: Path, f: Failure)
    requires c.RecType? && Raises(re, c, v, path, f)
    ensures !Accepts(re, c, v)
    decreases c, 0
  {
    var RecType(required, optional, rest) := c;
    if v.Dict? {
      var unknown := Unknown(v.fields, required, optional);
      if unknown != {} && rest.None? {
      } else if !(forall k :: k in required ==> k in v.fields && Accepts(re, required[k], v.fields[k])) {
      } else if !(forall k :: k in optional && k in v.fields ==> Accepts(re, optional[k], v.fields[k])) {
      } else {
        RaisesRejects(re, rest.value, Dict(Restrict(v.fields, unknown)), path, f);
      }
    }
  }

  /** The path an error reports extends the path the check started from:
      checkers only ever push segments onto it. */
  lemma {:induction false} FailurePathExtends(re: Regex, c: Checker, v: Value, path: Path, f: Failure)
    requires Raises(re, c, v, path, f)
    ensures path <= f.path
    decreases c, 1
  {
    match c
    case AllType(alts) =>
      var i :| 0 <= i < |alts| && Raises(re, alts[i], v, path, f);
      FailurePathExtends(re, alts[i], v, path, f);
    case ArrType(contents, length) =>
      if v.List? && WithinLength(length, |v.items|) {
        var i :| 0 <= i < |v.items| && Raises(re, contents, v.items[i], path + [Index(i)], f);
        FailurePathExtends(re, contents, v.items[i], path + [Index(i)], f);
        PrefixStep(path, Index(i), f.path);
      }
    case MapType(values) =>
      if v.Dict? {
        var k :| k in v.fields && Raises(re, values, v.fields[k], path + [Key(k)], f);
        FailurePathExtends(re, values, v.fields[k], path + [Key(k)], f);
        PrefixStep(path, Key(k), f.path);
      }
    case RecType(required, optional, rest) =>
      RecFailurePathExtends(re, c, v, path, f);
    case SeqType(_, _) =>
      SeqFailurePathExtends(re, c, v, path, f);
    case _ =>
  }

  lemma {:induction false} RecFailurePathExtends(re: Regex, c: Checker, v: Value, path: Path, f: Failure)
    requires c.RecType? && Raises(re, c, v, path, f)
    ensures path <= f.path
    decreases c, 0
  {
    var RecType(required, optional, rest) := c;
    if v.Dict? {
      var unknown := Unknown(v.fields, required, optional);
      if unknown != {} && rest.None? {
      } else if !(forall k :: k in required ==> k in v.fields && Accepts(re, required[k], v.fields[k])) {
        var k :| k in required && if k !in v.fields then f == Leaf(Rec, path, v, MissingField(k))
          else Raises(re, required[k], v.fields[k], path + [Key(k)], f);
        if k in v.fields {
          FailurePathExtends(re, required[k], v.fields[k], path + [Key(k)], f);
          PrefixStep(path, Key(k), f.path);
        }
      } else if !(forall k :: k in optional && k in v.fields ==> Accepts(re, optional[k], v.fields[k])) {
        var k :| k in optional && k in v.fields && Raises(re, optional[k], v.fields[k], path + [Key(k)], f);
        FailurePathExtends(re, optional[k], v.fields[k], path + [Key(k)], f);
        PrefixStep(path, Key(k), f.path);
      } else {
        FailurePathExtends(re, rest.value, Dict(Restrict(v.fields, unknown)), path, f);
      }
    }
  }

  lemma {:induction false} SeqFailurePathExtends(re: Regex, c: Checker, v: Value, path: Path, f: Failure)
    requires c.SeqType? && Raises(re, c, v, path, f)
    ensures path <= f.path
    decreases c, 0
  {
    var SeqType(items, tail) := c;
    if v.List? && |v.items| >= |items| {
      if !(forall i :: 0 <= i < |items| ==> Accepts(re, items[i], v.items[i])) {
        var i :| 0 <= i < |items| && Raises(re, items[i], v.items[i], path + [Index(i)], f);
        FailurePathExtends(re, items[i], v.items[i], path + [Index(i)], f);
        PrefixStep(path, Index(i), f.path);
      } else if |v.items| > |items| && tail.Some? {
        FailurePathExtends(re, tail.value, List(v.items[|items|..]), path + [Index(|items|)], f);
        PrefixStep(path, Index(|items|), f.path);
      }
    }
  }

  lemma PrefixStep(path: Path, s: Segment, q: Path)
    requires path + [s] <= q
    ensures path <= q
  {
    assert q[..|path|] == (path + [s])[..|path|];
  }
}
