/** `Util.make_range_check`: a numeric range predicate built from an option
    dict with the keys min, max, min-ex and max-ex. */
module Ranges {
  import opened Results
  import opened Values

  const RangeKeys: set<string> := {"min", "max", "min-ex", "max-ex"}

  /** A configured bound. Python 2 orders every number below every string,
      list and dict, so such a bound sits above all numbers. */
  datatype Limit = At(n: real) | AboveNumbers

  /** The `range` dict of the source, one optional bound per key. */
  datatype Range = Range(min: Option<Limit>, minEx: Option<Limit>, maxEx: Option<Limit>, max: Option<Limit>)

  /** The bound an option value sets: None sets none (`range.get(k) != None`),
      a bool compares as 0 or 1. */
  function LimitOf(v: Value): Option<Limit>
  {
    match v
    case Null => None
    case Boolean(b) => Some(At(if b then 1.0 else 0.0))
    case Number(n) => Some(At(n))
    case _ => Some(AboveNumbers)
  }

  /** x < l */
  predicate Below(x: real, l: Limit)
  {
    l.AboveNumbers? || x < l.n
  }

  /** x <= l */
  predicate AtMost(x: real, l: Limit)
  {
    l.AboveNumbers? || x <= l.n
  }

  /** The returned `check_range` closure. */
  predicate InRange(r: Range, x: real)
  {
    && !(r.min.Some? && Below(x, r.min.value))
    && !(r.minEx.Some? && AtMost(x, r.minEx.value))
    && !(r.maxEx.Some? && !Below(x, r.maxEx.value))
    && !(r.max.Some? && !AtMost(x, r.max.value))
  }

  /** `self.length and not self.length(n)` fails exactly when this is false. */
  predicate WithinLength(r: Option<Range>, n: nat)
  {
    r.None? || InRange(r.value, n as real)
  }

  function RangeOf(fields: map<string, Value>): Range
  {
    Range(LimitOf(Get(fields, "min")), LimitOf(Get(fields, "min-ex")),
          LimitOf(Get(fields, "max-ex")), LimitOf(Get(fields, "max")))
  }

  /** What `make_range_check(opt)` yields: an error when `opt` has no keys
      (it is not a dict) or has a key other than the four bounds. */
  function RangeFrom(opt: Value): Result<Range>
  {
    if opt.Dict? && opt.fields.Keys <= RangeKeys then Ok(RangeOf(opt.fields)) else Error
  }

  /** `make_range_check`: copies the options into `range` one key at a time,
      in the dict's (unspecified) iteration order, rejecting an unknown key. */
  method MakeRangeCheck(opt: Value) returns (r: Result<Range>)
    ensures r == RangeFrom(opt)
  {
    if !opt.Dict? {
      return Error;
    }
    var range: map<string, Value> := map[];
    var todo := opt.fields.Keys;
    while todo != {}
      invariant todo <= opt.fields.Keys
      invariant range.Keys == opt.fields.Keys - todo
      invariant forall k :: k in range ==> range[k] == opt.fields[k]
      invariant range.Keys <= RangeKeys
      decreases todo
    {
      var entry :| entry in todo;
      if entry !in RangeKeys {
        return Error;
      }
      range := range[entry := opt.fields[entry]];
      todo := todo - {entry};
    }
    assert range == opt.fields;
    return Ok(RangeOf(range));
  }

  /** Python 2's three-way comparison of a number with an option value. */
  function Compare(x: real, b: Value): int
  {
    match b
    case Null => 1
    case Boolean(t) => var y := if t then 1.0 else 0.0; if x < y then -1 else if x == y then 0 else 1
    case Number(y) => if x < y then -1 else if x == y then 0 else 1
    case _ => -1
  }

  /** The condition one option places on x, read directly off the option. */
  predicate OptionHolds(key: string, b: Value, x: real)
  {
    || b.Null?
    || (key == "min" && Compare(x, b) >= 0)
    || (key == "min-ex" && Compare(x, b) > 0)
    || (key == "max-ex" && Compare(x, b) < 0)
    || (key == "max" && Compare(x, b) <= 0)
  }

  /** A range built from a dict holds of x exactly when every option it was
      given holds; a key that was not given constrains nothing. */
  lemma RangeMeaning(fields: map<string, Value>, x: real)
    requires RangeFrom(Dict(fields)).Ok?
    ensures InRange(RangeFrom(Dict(fields)).value, x) <==> forall k :: k in fields ==> OptionHolds(k, fields[k], x)
  {
    var r := RangeFrom(Dict(fields)).value;
    forall k | k in RangeKeys
      ensures OptionHolds(k, Get(fields, k), x) <==>
        match k
        case "min" => !(r.min.Some? && Below(x, r.min.value))
        case "min-ex" => !(r.minEx.Some? && AtMost(x, r.minEx.value))
        case "max-ex" => !(r.maxEx.Some? && !Below(x, r.maxEx.value))
        case _ => !(r.max.Some? && !AtMost(x, r.max.value))
    {
    }
    if forall k :: k in fields ==> OptionHolds(k, fields[k], x) {
      assert OptionHolds("min", Get(fields, "min"), x);
      assert OptionHolds("min-ex", Get(fields, "min-ex"), x);
      assert OptionHolds("max-ex", Get(fields, "max-ex"), x);
      assert OptionHolds("max", Get(fields, "max"), x);
    }
  }

  /** Unknown option keys and non-dict options are definition errors. */
  lemma RangeRejectsUnknownKey(opt: Value, key: string)
    requires opt.Dict? && key in opt.fields && key !in RangeKeys
    ensures RangeFrom(opt) == Error
  {
  }

  /** An inclusive and an exclusive range, at and around their bounds. */
  lemma RangeExamples()
    ensures var r := RangeFrom(Dict(map["min" := Number(0.0), "max" := Number(10.0)])).value;
      InRange(r, 0.0) && InRange(r, 10.0) && !InRange(r, -1.0) && !InRange(r, 11.0)
    ensures var r := RangeFrom(Dict(map["min-ex" := Number(0.0), "max-ex" := Number(10.0)])).value;
      !InRange(r, 0.0) && !InRange(r, 10.0) && InRange(r, 1.0) && InRange(r, 9.0)
  {
  }
}
