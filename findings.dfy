/** Two places where `check` raises a Python `TypeError` instead of
    returning or raising a `ValidationError`. Each is modelled as written,
    with an input that shows it, next to the corrected behaviour, which is
    the one `Checkers.Accepts` and `Validation.Validate` use. */
module Findings {
  import opened Results
  import opened Values
  import opened Ranges
  import opened Checkers

  /** What one type's own step of `check` does to a value: return, raise a
      `ValidationError`, or crash with an exception of another class. */
  datatype Verdict = Accepted | Rejected | Crashed

  /** `ArrType.check` as written: `self.length(len(value), stack)` calls the
      one-argument `check_range` closure with two arguments, so once a length
      range is set every list crashes before any element is looked at. */
  function ArrStepAsWritten(re: Regex, c: Checker, v: Value): (r: Verdict)
    requires c.ArrType?
    ensures r == Crashed <==> v.List? && c.length.Some?
    ensures r == Accepted ==> Accepts(re, c, v)
  {
    if !v.List? then Rejected
    else if c.length.Some? then Crashed
    else if Accepts(re, c, v) then Accepted
    else Rejected
  }

  /** `{"type": "//arr", "contents": "//int", "length": {"min": 1}}` against
      `[1, 2]`: the list satisfies the schema, yet the check crashes. */
  lemma ArrLengthCrashes(re: Regex)
    ensures var c := ArrType(IntType(None, None), Some(Range(Some(At(1.0)), None, None, None)));
      var v := List([Number(1.0), Number(2.0)]);
      ArrStepAsWritten(re, c, v) == Crashed && Accepts(re, c, v)
  {
    var c := ArrType(IntType(None, None), Some(Range(Some(At(1.0)), None, None, None)));
    var v := List([Number(1.0), Number(2.0)]);
    assert Accepts(re, c.contents, v.items[0]) && Accepts(re, c.contents, v.items[1]);
  }

  /** The intended `self.length(len(value))`: a list is accepted exactly when
      its length is in range and every element is accepted; a length outside
      the range is reported as a range mismatch at the list itself. */
  lemma ArrLengthMeaning(re: Regex, contents: Checker, range: Range, items: seq<Value>, path: Path)
    ensures Accepts(re, ArrType(contents, Some(range)), List(items)) <==>
      InRange(range, |items| as real) && forall i :: 0 <= i < |items| ==> Accepts(re, contents, items[i])
    ensures !InRange(range, |items| as real) ==>
      Raises(re, ArrType(contents, Some(range)), List(items), path, Leaf(Arr, path, List(items), LengthMismatch))
  {
  }

  /** `StrType.check` as written: when the length check fails, the message
      `'... (must be %d)' % self.length` formats the closure with `%d`,
      which raises a `TypeError` instead of the `ValidationError`. */
  function StrStepAsWritten(re: Regex, c: Checker, v: Value): (r: Verdict)
    requires c.StrType?
    ensures r == Crashed <==>
      && v.Text?
      && (c.strValue.None? || v.s == c.strValue.value)
      && (c.pattern.None? || re.search(c.pattern.value, v.s))
      && !WithinLength(c.strLength, |v.s|)
    ensures r == Accepted <==> Accepts(re, c, v)
  {
    if !v.Text? then Rejected
    else if c.strValue.Some? && v.s != c.strValue.value then Rejected
    else if c.pattern.Some? && !re.search(c.pattern.value, v.s) then Rejected
    else if !WithinLength(c.strLength, |v.s|) then Crashed
    else Accepted
  }

  /** `{"type": "//str", "length": {"max": 1}}` against `"ab"`: too long, so
      it should be rejected, yet the check crashes. */
  lemma StrLengthCrashes(re: Regex)
    ensures var c := StrType(None, None, Some(Range(None, None, None, Some(At(1.0)))));
      StrStepAsWritten(re, c, Text("ab")) == Crashed && !Accepts(re, c, Text("ab"))
  {
  }

  /** The intended behaviour: a string of the wrong length is rejected with a
      length mismatch at the string itself, whatever the path. */
  lemma StrLengthMeaning(re: Regex, range: Range, s: string, path: Path)
    requires !InRange(range, |s| as real)
    ensures !Accepts(re, StrType(None, None, Some(range)), Text(s))
    ensures Raises(re, StrType(None, None, Some(range)), Text(s), path, Leaf(Str, path, Text(s), LengthMismatch))
  {
  }
}
