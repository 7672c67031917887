/** The `check` methods of the fourteen core types, step by step: loops over
    elements, keys and alternatives, pushing a segment onto a call-local
    stack before each child check and popping it afterwards. Each is proved
    to return normally exactly when `Accepts` holds and to raise only errors
    that `Raises` allows. */
module Validation {
  import opened Results
  import opened Values
  import opened Ranges
  import opened Checkers

  /** A `check` call returns normally or raises a `ValidationError`. */
  datatype Outcome = Passed | Raised(error: Failure)

  /** `c.check(v, path)`. */
  method Validate(re: Regex, c: Checker, v: Value, path: Path) returns (r: Outcome)
    ensures r.Passed? <==> Accepts(re, c, v)
    ensures r.Raised? ==> Raises(re, c, v, path, r.error)
    decreases c, 2
  {
    match c
    case AllType(_) =>
      r := CheckAll(re, c, v, path);
    case AnyType(_, _) =>
      r := CheckAny(re, c, v, path);
    case ArrType(_, _) =>
      r := CheckArr(re, c, v, path);
    case BoolType =>
      r := if v.Boolean? then Passed else Raised(Leaf(Bool, path, v, WrongType));
    case DefType =>
      r := if !v.Null? then Passed else Raised(Leaf(Def, path, v, WrongType));
    case FailType =>
      r := Raised(Leaf(Fail, path, v, Forced));
    case IntType(_, _) =>
      r := CheckInt(re, c, v, path);
    case MapType(_) =>
      r := CheckMap(re, c, v, path);
    case NilType =>
      r := if v.Null? then Passed else Raised(Leaf(Nil, path, v, WrongType));
    case NumType(_, _) =>
      r := CheckNum(re, c, v, path);
    case OneType =>
      r := if v.Boolean? || v.Number? || v.Text? then Passed else Raised(Leaf(One, path, v, WrongType));
    case RecType(_, _, _) =>
      r := CheckRec(re, c, v, path);
    case SeqType(_, _) =>
      r := CheckSeq(re, c, v, path);
    case StrType(_, _, _) =>
      r := CheckStr(re, c, v, path);
  }

  /** `IntType.check`: a number, integral, in range, equal to `value`. */
  method CheckInt(re: Regex, c: Checker, v: Value, path: Path) returns (r: Outcome)
    requires c.IntType?
    ensures r.Passed? <==> Accepts(re, c, v)
    ensures r.Raised? ==> Raises(re, c, v, path, r.error)
  {
    if !v.Number? {
      r := Raised(Leaf(Int, path, v, WrongType));
    } else if !IsIntegral(v.n) {
      r := Raised(Leaf(Int, path, v, NotIntegral));
    } else if c.range.Some? && !InRange(c.range.value, v.n) {
      r := Raised(Leaf(Int, path, v, OutOfRange));
    } else if c.intValue.Some? && v.n != c.intValue.value as real {
      r := Raised(Leaf(Int, path, v, ValueMismatch));
    } else {
      r := Passed;
    }
  }

  /** `NumType.check`: a number, in range, equal to `value`. */
  method CheckNum(re: Regex, c: Checker, v: Value, path: Path) returns (r: Outcome)
    requires c.NumType?
    ensures r.Passed? <==> Accepts(re, c, v)
    ensures r.Raised? ==> Raises(re, c, v, path, r.error)
  {
    if !v.Number? {
      r := Raised(Leaf(Num, path, v, WrongType));
    } else if c.numRange.Some? && !InRange(c.numRange.value, v.n) {
      r := Raised(Leaf(Num, path, v, OutOfRange));
    } else if c.numValue.Some? && v.n != c.numValue.value {
      r := Raised(Leaf(Num, path, v, ValueMismatch));
    } else {
      r := Passed;
    }
  }

  /** `StrType.check`: a string, equal to `value`, matching `regex`, of a
      length in range, checked in that order. */
  method CheckStr(re: Regex, c: Checker, v: Value, path: Path) returns (r: Outcome)
    requires c.StrType?
    ensures r.Passed? <==> Accepts(re, c, v)
    ensures r.Raised? ==> Raises(re, c, v, path, r.error)
  {
    if !v.Text? {
      r := Raised(Leaf(Str, path, v, WrongType));
    } else if c.strValue.Some? && v.s != c.strValue.value {
      r := Raised(Leaf(Str, path, v, ValueMismatch));
    } else if c.pattern.Some? && !re.search(c.pattern.value, v.s) {
      r := Raised(Leaf(Str, path, v, PatternMismatch));
    } else if c.strLength.Some? && !InRange(c.strLength.value, |v.s| as real) {
      r := Raised(Leaf(Str, path, v, LengthMismatch));
    } else {
      r := Passed;
    }
  }

  /** `AllType.check`: every alternative in turn; the first error propagates. */
  method CheckAll(re: Regex, c: Checker, v: Value, path: Path) returns (r: Outcome)
    requires c.AllType?
    ensures r.Passed? <==> Accepts(re, c, v)
    ensures r.Raised? ==> Raises(re, c, v, path, r.error)
    decreases c, 0
  {
    var index := 0;
    while index < |c.alts|
      invariant 0 <= index <= |c.alts|
      invariant forall j :: 0 <= j < index ==> Accepts(re, c.alts[j], v)
    {
      var o := Validate(re, c.alts[index], v, path);
      if o.Raised? {
        return o;
      }
      index := index + 1;
    }
    return Passed;
  }

  /** `AnyType.check`: tries every alternative, counting matches and
      collecting the errors; raises only when nothing matched. */
  method CheckAny(re: Regex, c: Checker, v: Value, path: Path) returns (r: Outcome)
    requires c.AnyType?
    ensures r.Passed? <==> Accepts(re, c, v)
    ensures r.Raised? ==> Raises(re, c, v, path, r.error)
    decreases c, 1
  {
    if c.wildcard {
      return Passed;
    }
    var matches, exceptions := TryAlternatives(re, c, v, path);
    if matches == 0 {
      AnyUnsatisfied(re, c.choices, v, path, exceptions);
      return Raised(Failure(Any, path, v, NoAlternative, exceptions));
    }
    return Passed;
  }

  /** The loop of `AnyType.check`: every alternative is tried, whether or
      not an earlier one matched. */
  method TryAlternatives(re: Regex, c: Checker, v: Value, path: Path) returns (matches: nat, exceptions: seq<Failure>)
    requires c.AnyType? && !c.wildcard
    ensures matches == 0 <==> !Accepts(re, c, v)
    ensures matches == 0 ==> |exceptions| == |c.choices|
    ensures matches == 0 ==> forall j :: 0 <= j < |c.choices| ==> Raises(re, c.choices[j], v, path, exceptions[j])
    ensures matches == 0 ==> AllRaise(re, c.choices, v, path, exceptions)
    decreases c, 0
  {
    var alts := c.choices;
    matches, exceptions := 0, [];
    ghost var found := 0;
    var i := 0;
    while i < |alts|
      invariant 0 <= i <= |alts|
      invariant matches > 0 ==> 0 <= found < |alts| && Accepts(re, alts[found], v)
      invariant matches == 0 ==> |exceptions| == i && AllRaise(re, alts, v, path, exceptions)
    {
      var o := Validate(re, alts[i], v, path);
      if o.Passed? {
        matches, found := matches + 1, i;
      } else if matches == 0 {
        RaisedExtend(re, alts, v, path, exceptions, o.error);
        exceptions := exceptions + [o.error];
      } else {
        exceptions := exceptions + [o.error];
      }
      i := i + 1;
    }
    if matches > 0 {
      AnySatisfied(re, alts, v, found);
    }
  }

  /** The first `|ex|` alternatives all reject `v`, raising `ex`. */
  ghost predicate AllRaise(re: Regex, alts: seq<Checker>, v: Value, path: Path, ex: seq<Failure>)
  {
    && |ex| <= |alts|
    && forall j :: 0 <= j < |ex| ==> !Accepts(re, alts[j], v) && Raises(re, alts[j], v, path, ex[j])
  }

  lemma AnyUnsatisfied(re: Regex, alts: seq<Checker>, v: Value, path: Path, exceptions: seq<Failure>)
    requires |exceptions| == |alts| && AllRaise(re, alts, v, path, exceptions)
    ensures !Accepts(re, AnyType(false, alts), v)
    ensures Raises(re, AnyType(false, alts), v, path, Failure(Any, path, v, NoAlternative, exceptions))
  {
  }

  lemma RaisedExtend(re: Regex, alts: seq<Checker>, v: Value, path: Path, ex: seq<Failure>, e: Failure)
    requires |ex| < |alts| && AllRaise(re, alts, v, path, ex)
    requires !Accepts(re, alts[|ex|], v) && Raises(re, alts[|ex|], v, path, e)
    ensures AllRaise(re, alts, v, path, ex + [e])
  {
    forall j | 0 <= j < |ex| + 1
      ensures !Accepts(re, alts[j], v) && Raises(re, alts[j], v, path, (ex + [e])[j])
    {
      if j < |ex| {
        assert (ex + [e])[j] == ex[j];
      } else {
        assert (ex + [e])[j] == e;
      }
    }
  }

  lemma AnySatisfied(re: Regex, alts: seq<Checker>, v: Value, j: int)
    requires 0 <= j < |alts| && Accepts(re, alts[j], v)
    ensures Accepts(re, AnyType(false, alts), v)
  {
  }

  /** `ArrType.check`, with the length range applied to `len(value)`. */
  method CheckArr(re: Regex, c: Checker, v: Value, path: Path) returns (r: Outcome)
    requires c.ArrType?
    ensures r.Passed? <==> Accepts(re, c, v)
    ensures r.Raised? ==> Raises(re, c, v, path, r.error)
    decreases c, 0
  {
    if !v.List? {
      return Raised(Leaf(Arr, path, v, WrongType));
    }
    if c.length.Some? && !InRange(c.length.value, |v.items| as real) {
      return Raised(Leaf(Arr, path, v, LengthMismatch));
    }
    var stack := path;
    var index := 0;
    while index < |v.items|
      invariant 0 <= index <= |v.items|
      invariant stack == path
      invariant forall j :: 0 <= j < index ==> Accepts(re, c.contents, v.items[j])
    {
      stack := stack + [Index(index)];
      var o := Validate(re, c.contents, v.items[index], stack);
      if o.Raised? {
        return o;
      }
      stack := stack[..|stack| - 1];
      index := index + 1;
    }
    return Passed;
  }

  /** `MapType.check`: every value, under its key, in the dict's order. */
  method CheckMap(re: Regex, c: Checker, v: Value, path: Path) returns (r: Outcome)
    requires c.MapType?
    ensures r.Passed? <==> Accepts(re, c, v)
    ensures r.Raised? ==> Raises(re, c, v, path, r.error)
    decreases c, 0
  {
    if !v.Dict? {
      return Raised(Leaf(Map, path, v, WrongType));
    }
    var stack := path;
    var todo := v.fields.Keys;
    while todo != {}
      invariant todo <= v.fields.Keys
      invariant stack == path
      invariant forall k :: k in v.fields && k !in todo ==> Accepts(re, c.values, v.fields[k])
      decreases todo
    {
      var k :| k in todo;
      stack := stack + [Key(k)];
      var o := Validate(re, c.values, v.fields[k], stack);
      if o.Raised? {
        return o;
      }
      stack := stack[..|stack| - 1];
      todo := todo - {k};
    }
    return Passed;
  }

  /** `RecType.check`: unknown keys, then the required fields, then the
      optional ones, then the unknown fields as one dict against `rest`. */
  method CheckRec(re: Regex, c: Checker, v: Value, path: Path) returns (r: Outcome)
    requires c.RecType?
    ensures r.Passed? <==> Accepts(re, c, v)
    ensures r.Raised? ==> Raises(re, c, v, path, r.error)
    decreases c, 1
  {
    if !v.Dict? {
      return Raised(Leaf(Rec, path, v, WrongType));
    }
    var unknown := CollectUnknown(v.fields, c.required.Keys + c.optional.Keys);
    assert unknown == Unknown(v.fields, c.required, c.optional);
    if unknown != {} && c.rest.None? {
      return Raised(Leaf(Rec, path, v, UnknownKeys(unknown)));
    }
    r := CheckRequired(re, c, v, path);
    if r.Raised? {
      return;
    }
    r := CheckOptional(re, c, v, path);
    if r.Raised? {
      return;
    }
    if unknown != {} {
      var rest := SubDict(v.fields, unknown);
      r := Validate(re, c.rest.value, Dict(rest), path);
      return;
    }
    return Passed;
  }

  /** The `required` loop: a missing field, or the first field whose check
      raises, ends the check. */
  method CheckRequired(re: Regex, c: Checker, v: Value, path: Path) returns (r: Outcome)
    requires c.RecType? && v.Dict?
    ensures r.Passed? <==> forall k :: k in c.required ==> k in v.fields && Accepts(re, c.required[k], v.fields[k])
    ensures r.Raised? ==>
      exists k :: k in c.required && (if k !in v.fields then r.error == Leaf(Rec, path, v, MissingField(k))
                                      else Raises(re, c.required[k], v.fields[k], path + [Key(k)], r.error))
    decreases c, 0
  {
    var stack := path;
    var fields := c.required.Keys;
    while fields != {}
      invariant fields <= c.required.Keys
      invariant stack == path
      invariant forall k :: k in c.required && k !in fields ==> k in v.fields && Accepts(re, c.required[k], v.fields[k])
      decreases fields
    {
      var field :| field in fields;
      if field !in v.fields {
        return Raised(Leaf(Rec, path, v, MissingField(field)));
      }
      stack := stack + [Key(field)];
      var o := Validate(re, c.required[field], v.fields[field], stack);
      if o.Raised? {
        return o;
      }
      stack := stack[..|stack| - 1];
      fields := fields - {field};
    }
    return Passed;
  }

  /** The `optional` loop: fields the value lacks are skipped. */
  method CheckOptional(re: Regex, c: Checker, v: Value, path: Path) returns (r: Outcome)
    requires c.RecType? && v.Dict?
    ensures r.Passed? <==> forall k :: k in c.optional && k in v.fields ==> Accepts(re, c.optional[k], v.fields[k])
    ensures r.Raised? ==>
      exists k :: k in c.optional && k in v.fields && Raises(re, c.optional[k], v.fields[k], path + [Key(k)], r.error)
    decreases c, 0
  {
    var stack := path;
    var fields := c.optional.Keys;
    while fields != {}
      invariant fields <= c.optional.Keys
      invariant stack == path
      invariant forall k :: k in c.optional && k in v.fields && k !in fields ==> Accepts(re, c.optional[k], v.fields[k])
      decreases fields
    {
      var field :| field in fields;
      fields := fields - {field};
      if field !in v.fields {
        continue;
      }
      stack := stack + [Key(field)];
      var o := Validate(re, c.optional[field], v.fields[field], stack);
      if o.Raised? {
        return o;
      }
      stack := stack[..|stack| - 1];
    }
    return Passed;
  }

  /** `unknown = [f for f in value.keys() if not f in self.known]`. */
  method CollectUnknown(fields: map<string, Value>, known: set<string>) returns (unknown: set<string>)
    ensures unknown == fields.Keys - known
  {
    unknown := {};
    var todo := fields.Keys;
    while todo != {}
      invariant todo <= fields.Keys
      invariant unknown == (fields.Keys - todo) - known
      decreases todo
    {
      var field :| field in todo;
      if field !in known {
        unknown := unknown + {field};
      }
      todo := todo - {field};
    }
  }

  /** `rest = {}; for f in unknown: rest[f] = value[f]`. */
  method SubDict(fields: map<string, Value>, keys: set<string>) returns (rest: map<string, Value>)
    requires keys <= fields.Keys
    ensures rest == Restrict(fields, keys)
  {
    rest := map[];
    var todo := keys;
    while todo != {}
      invariant todo <= keys
      invariant rest == Restrict(fields, keys - todo)
      decreases todo
    {
      var field :| field in todo;
      rest := rest[field := fields[field]];
      todo := todo - {field};
    }
  }

  /** `SeqType.check`: the fixed positions in order, then the tail slice. */
  method CheckSeq(re: Regex, c: Checker, v: Value, path: Path) returns (r: Outcome)
    requires c.SeqType?
    ensures r.Passed? <==> Accepts(re, c, v)
    ensures r.Raised? ==> Raises(re, c, v, path, r.error)
    decreases c, 0
  {
    if !v.List? {
      return Raised(Leaf(Seq, path, v, WrongType));
    }
    var n := |c.items|;
    if |v.items| < n {
      return Raised(Leaf(Seq, path, v, TooShort));
    }
    var stack := path;
    var i := 0;
    while i < n
      invariant 0 <= i <= n
      invariant stack == path
      invariant forall j :: 0 <= j < i ==> Accepts(re, c.items[j], v.items[j])
    {
      stack := stack + [Index(i)];
      var o := Validate(re, c.items[i], v.items[i], stack);
      if o.Raised? {
        return o;
      }
      stack := stack[..|stack| - 1];
      i := i + 1;
    }
    if |v.items| > n {
      if c.tail.None? {
        return Raised(Leaf(Seq, path, v, NoTail));
      }
      stack := stack + [Index(n)];
      var o := Validate(re, c.tail.value, List(v.items[n..]), stack);
      if o.Raised? {
        return o;
      }
      stack := stack[..|stack| - 1];
    }
    return Passed;
  }

  /** The public `check(value)`: the path starts empty for every call. */
  method Check(re: Regex, c: Checker, v: Value) returns (r: Outcome)
    ensures r.Passed? <==> Accepts(re, c, v)
    ensures r.Raised? ==> Raises(re, c, v, [], r.error)
  {
    r := Validate(re, c, v, []);
  }
}
