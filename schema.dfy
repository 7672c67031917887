/** `Factory.make_schema` and the constructors of the fourteen core types:
    a schema document is turned into a checker, or rejected with a
    definition error. */
module Schema {
  import opened Results
  import opened Values
  import opened Ranges
  import opened Names
  import opened Checkers

  /** What the type registry maps a URI to: a core type class, or a learned
      type, stored as `{"schema": schema}`. */
  datatype TypeEntry = Native(kind: Kind) | Learned(schema: Value)

  type Registry = map<string, TypeEntry>

  /** The check arguments of a schema document: everything but "type". The
      string shorthand has none. */
  function Params(doc: Value): map<string, Value>
  {
    if doc.Dict? then doc.fields - {"type"} else map[]
  }

  /** The type name a schema document gives, if it gives one. */
  function TypeName(doc: Value): Option<string>
  {
    match doc
    case Text(name) => Some(name)
    case Dict(fields) => if "type" in fields && fields["type"].Text? then Some(fields["type"].s) else None
    case _ => None
  }

  /** The names each core constructor accepts besides "type". */
  function Allowed(kind: Kind): set<string>
  {
    match kind
    case All => {"of"}
    case Any => {"of"}
    case Arr => {"contents", "length"}
    case Int => {"range", "value"}
    case Map => {"values"}
    case Num => {"range", "value"}
    case Rec => {"rest", "required", "optional"}
    case Seq => {"contents", "tail"}
    case Str => {"value", "length", "pattern"}
    case _ => {}
  }

  /** The document names a type the registry knows. */
  predicate Resolves(prefixes: map<string, string>, types: Registry, doc: Value)
  {
    && TypeName(doc).Some?
    && ExpandUri(prefixes, TypeName(doc).value).Ok?
    && ExpandUri(prefixes, TypeName(doc).value).value in types
  }

  /** All children compiled, or the first definition error. */
  function Sequence(rs: seq<Result<Checker>>): (r: Result<seq<Checker>>)
    ensures r.Ok? <==> forall i :: 0 <= i < |rs| ==> rs[i].Ok?
    ensures r.Ok? ==> |r.value| == |rs| && forall i :: 0 <= i < |rs| ==> rs[i] == Ok(r.value[i])
  {
    if forall i :: 0 <= i < |rs| ==> rs[i].Ok? then Ok(seq(|rs|, i requires 0 <= i < |rs| => rs[i].value)) else Error
  }

  function SequenceMap(rs: map<string, Result<Checker>>): (r: Result<map<string, Checker>>)
    ensures r.Ok? <==> forall k :: k in rs ==> rs[k].Ok?
    ensures r.Ok? ==> r.value.Keys == rs.Keys && forall k :: k in rs ==> rs[k] == Ok(r.value[k])
  {
    if forall k :: k in rs ==> rs[k].Ok? then Ok(map k | k in rs :: rs[k].value) else Error
  }

  /** `make_schema(doc)`. Following a learned type compiles its stored
      schema against the registry without that entry: a learned schema can
      only refer to types registered before it. */
  function Compile(prefixes: map<string, string>, types: Registry, re: Regex, doc: Value): (r: Result<Checker>)
    ensures r.Ok? ==> Resolves(prefixes, types, doc)
    decreases |types|, doc, 5
  {
    match TypeName(doc)
    case None => Error
    case Some(name) => CompileNamed(prefixes, types, re, name, doc)
  }

  /** Looks the expanded name up: a learned type takes no check arguments
      and stands for its stored schema; a core type constructs a checker. */
  function CompileNamed(prefixes: map<string, string>, types: Registry, re: Regex, name: string, doc: Value): (r: Result<Checker>)
    ensures r.Ok? ==> ExpandUri(prefixes, name).Ok? && ExpandUri(prefixes, name).value in types
    ensures r.Ok? && types[ExpandUri(prefixes, name).value].Learned? ==> Params(doc) == map[]
    ensures r.Ok? && types[ExpandUri(prefixes, name).value].Native? ==>
      KindOf(r.value) == types[ExpandUri(prefixes, name).value].kind
    decreases |types|, doc, 4
  {
    match ExpandUri(prefixes, name)
    case Error => Error
    case Ok(uri) =>
      if uri !in types then Error
      else match types[uri]
        case Learned(schema) =>
          if Params(doc) != map[] then Error else Compile(prefixes, types - {uri}, re, schema)
        case Native(kind) => Construct(prefixes, types, re, kind, doc)
  }

  /** The constructor of a core type, given the schema document: first the
      `issubset` test on the parameter names, then the type's own checks. */
  function Construct(prefixes: map<string, string>, types: Registry, re: Regex, kind: Kind, doc: Value): (r: Result<Checker>)
    ensures r.Ok? ==> Params(doc).Keys <= Allowed(kind) && KindOf(r.value) == kind
    decreases |types|, doc, 3
  {
    if !(Params(doc).Keys <= Allowed(kind)) then Error
    else match kind
      case All => ConstructAll(prefixes, types, re, doc)
      case Any => ConstructAny(prefixes, types, re, doc)
      case Arr => ConstructArr(prefixes, types, re, doc)
      case Bool => Ok(BoolType)
      case Def => Ok(DefType)
      case Fail => Ok(FailType)
      case Int => ConstructInt(doc)
      case Map => ConstructMap(prefixes, types, re, doc)
      case Nil => Ok(NilType)
      case Num => ConstructNum(doc)
      case One => Ok(OneType)
      case Rec => ConstructRec(prefixes, types, re, doc)
      case Seq => ConstructSeq(prefixes, types, re, doc)
      case Str => ConstructStr(re, doc)
  }

  /** The schemas of the list parameter `key`, each compiled in order. */
  function CompileList(prefixes: map<string, string>, types: Registry, re: Regex, doc: Value, key: string): (r: Result<seq<Checker>>)
    requires key in Params(doc) && Params(doc)[key].List?
    ensures var docs := Params(doc)[key].items;
      && (r.Ok? <==> forall i :: 0 <= i < |docs| ==> Compile(prefixes, types, re, docs[i]).Ok?)
      && (r.Ok? ==> |r.value| == |docs| && forall i :: 0 <= i < |docs| ==> Compile(prefixes, types, re, docs[i]) == Ok(r.value[i]))
    decreases |types|, doc, 0
  {
    var docs := doc.fields[key].items;
    assert docs == Params(doc)[key].items;
    var rs := seq(|docs|, i requires 0 <= i < |docs| => Compile(prefixes, types, re, docs[i]));
    assert forall i :: 0 <= i < |docs| ==> rs[i] == Compile(prefixes, types, re, docs[i]);
    Sequence(rs)
  }

  /** The schema parameter `key`, compiled. */
  function CompileParam(prefixes: map<string, string>, types: Registry, re: Regex, doc: Value, key: string): Result<Checker>
    requires key in Params(doc)
    decreases |types|, doc, 0
  {
    Compile(prefixes, types, re, doc.fields[key])
  }

  /** An optional schema parameter: compiled when its value is truthy. */
  function CompileOptional(prefixes: map<string, string>, types: Registry, re: Regex, doc: Value, key: string): (r: Result<Option<Checker>>)
    ensures !Given(Params(doc), key) ==> r == Ok(None)
    ensures Given(Params(doc), key) ==> (r.Ok? <==> Compile(prefixes, types, re, Params(doc)[key]).Ok?)
    ensures Given(Params(doc), key) && r.Ok? ==> r.value == Some(Compile(prefixes, types, re, Params(doc)[key]).value)
    decreases |types|, doc, 1
  {
    if !Given(Params(doc), key) then Ok(None)
    else match CompileParam(prefixes, types, re, doc, key)
      case Error => Error
      case Ok(c) => Ok(Some(c))
  }

  /** `AllType.__init__`: `of` must be a non-empty list of schemas. */
  function ConstructAll(prefixes: map<string, string>, types: Registry, re: Regex, doc: Value): (r: Result<Checker>)
    ensures r.Ok? <==>
      && Given(Params(doc), "of") && Params(doc)["of"].List?
      && CompileList(prefixes, types, re, doc, "of").Ok?
    ensures r.Ok? ==> (r.value.AllType? && Given(Params(doc), "of") && Params(doc)["of"].List?
      && CompileList(prefixes, types, re, doc, "of") == Ok(r.value.alts))
    ensures r.Ok? ==> |r.value.alts| > 0
    decreases |types|, doc, 2
  {
    if !Given(Params(doc), "of") || !Params(doc)["of"].List? then Error
    else match CompileList(prefixes, types, re, doc, "of")
      case Error => Error
      case Ok(alts) => Ok(AllType(alts))
  }

  /** `AnyType.__init__`: no `of` (or a null one) accepts everything; an
      empty one is an error. */
  function ConstructAny(prefixes: map<string, string>, types: Registry, re: Regex, doc: Value): (r: Result<Checker>)
    ensures ("of" !in Params(doc) || Params(doc)["of"].Null?) ==> r == Ok(AnyType(true, []))
    ensures "of" in Params(doc) && !Params(doc)["of"].Null? ==>
      (r.Ok? <==> Truthy(Params(doc)["of"]) && Params(doc)["of"].List? && CompileList(prefixes, types, re, doc, "of").Ok?)
    ensures "of" in Params(doc) && !Params(doc)["of"].Null? && r.Ok? ==>
      Params(doc)["of"].List? && r.value == AnyType(false, CompileList(prefixes, types, re, doc, "of").value)
    ensures r.Ok? && r.value.AnyType? && !r.value.wildcard ==>
      Params(doc)["of"].List? && |r.value.choices| > 0 && CompileList(prefixes, types, re, doc, "of") == Ok(r.value.choices)
    ensures r.Ok? ==> r.value.AnyType?
    decreases |types|, doc, 2
  {
    var params := Params(doc);
    if "of" !in params || params["of"].Null? then Ok(AnyType(true, []))
    else if !Truthy(params["of"]) || !params["of"].List? then Error
    else match CompileList(prefixes, types, re, doc, "of")
      case Error => Error
      case Ok(alts) => Ok(AnyType(false, alts))
  }

  /** A range option that is given becomes a range check. */
  function RangeParam(opt: Value): Result<Option<Range>>
  {
    match RangeFrom(opt)
    case Ok(range) => Ok(Some(range))
    case Error => Error
  }

  /** `ArrType.__init__`: `contents` is required; a truthy `length` is a range. */
  function ConstructArr(prefixes: map<string, string>, types: Registry, re: Regex, doc: Value): (r: Result<Checker>)
    ensures r.Ok? <==>
      && Given(Params(doc), "contents") && Compile(prefixes, types, re, Params(doc)["contents"]).Ok?
      && (Given(Params(doc), "length") ==> RangeFrom(Params(doc)["length"]).Ok?)
    ensures r.Ok? ==> (r.value.ArrType? && Given(Params(doc), "contents")
      && Compile(prefixes, types, re, Params(doc)["contents"]) == Ok(r.value.contents))
    ensures r.Ok? ==> (r.value.length.Some? <==> Given(Params(doc), "length"))
    ensures r.Ok? && r.value.length.Some? ==> RangeFrom(Params(doc)["length"]) == Ok(r.value.length.value)
    decreases |types|, doc, 2
  {
    var params := Params(doc);
    if !Given(params, "contents") then Error
    else
      var length := if Given(params, "length") then RangeParam(params["length"]) else Ok(None);
      match CompileParam(prefixes, types, re, doc, "contents")
      case Error => Error
      case Ok(contents) => if length.Error? then Error else Ok(ArrType(contents, length.value))
  }

  /** `IntType.__init__`: `value` must be an integral number; a `range` key,
      whatever its value, must hold a range. */
  function ConstructInt(doc: Value): (r: Result<Checker>)
    ensures var params := Params(doc);
      r.Ok? <==>
        && ("value" in params ==> params["value"].Number? && IsIntegral(params["value"].n))
        && ("range" in params ==> RangeFrom(params["range"]).Ok?)
    ensures r.Ok? ==> r.value.IntType?
    ensures r.Ok? ==> (r.value.intValue.Some? <==> "value" in Params(doc))
    ensures r.Ok? && r.value.intValue.Some? ==> r.value.intValue.value as real == Params(doc)["value"].n
    ensures r.Ok? ==> (r.value.range.Some? <==> "range" in Params(doc))
    ensures r.Ok? && r.value.range.Some? ==> RangeFrom(Params(doc)["range"]) == Ok(r.value.range.value)
  {
    var params := Params(doc);
    var value :=
      if "value" !in params then Ok(None)
      else if params["value"].Number? && IsIntegral(params["value"].n) then Ok(Some(params["value"].n.Floor))
      else Error;
    var range := if "range" in params then RangeParam(params["range"]) else Ok(None);
    if value.Error? || range.Error? then Error else Ok(IntType(range.value, value.value))
  }

  /** `MapType.__init__`: `values` is required. */
  function ConstructMap(prefixes: map<string, string>, types: Registry, re: Regex, doc: Value): (r: Result<Checker>)
    ensures r.Ok? <==> Given(Params(doc), "values") && Compile(prefixes, types, re, Params(doc)["values"]).Ok?
    ensures r.Ok? ==> r == Ok(MapType(Compile(prefixes, types, re, Params(doc)["values"]).value))
    decreases |types|, doc, 2
  {
    if !Given(Params(doc), "values") then Error
    else match CompileParam(prefixes, types, re, doc, "values")
      case Error => Error
      case Ok(values) => Ok(MapType(values))
  }

  /** `NumType.__init__`: `value` must be a number; a truthy `range` is a range. */
  function ConstructNum(doc: Value): (r: Result<Checker>)
    ensures var params := Params(doc);
      r.Ok? <==>
        && ("value" in params ==> params["value"].Number?)
        && (Given(params, "range") ==> RangeFrom(params["range"]).Ok?)
    ensures r.Ok? ==> r.value.NumType?
    ensures r.Ok? ==> (r.value.numValue.Some? <==> "value" in Params(doc))
    ensures r.Ok? && r.value.numValue.Some? ==> Params(doc)["value"] == Number(r.value.numValue.value)
    ensures r.Ok? ==> (r.value.numRange.Some? <==> Given(Params(doc), "range"))
    ensures r.Ok? && r.value.numRange.Some? ==> RangeFrom(Params(doc)["range"]) == Ok(r.value.numRange.value)
  {
    var params := Params(doc);
    var value :=
      if "value" !in params then Ok(None)
      else if params["value"].Number? then Ok(Some(params["value"].n))
      else Error;
    var range := if Given(params, "range") then RangeParam(params["range"]) else Ok(None);
    if value.Error? || range.Error? then Error else Ok(NumType(range.value, value.value))
  }

  /** `RecType.__init__`: a truthy `rest` is a schema; `required` and
      `optional` are tables of schemas with no field in both. */
  function ConstructRec(prefixes: map<string, string>, types: Registry, re: Regex, doc: Value): (r: Result<Checker>)
    ensures r.Ok? <==>
      && CompileOptional(prefixes, types, re, doc, "rest").Ok?
      && CompileFields(prefixes, types, re, doc, "required").Ok?
      && CompileFields(prefixes, types, re, doc, "optional").Ok?
      && FieldNames(Params(doc), "required") !! FieldNames(Params(doc), "optional")
    ensures r.Ok? ==> r.value.RecType? && r.value.required.Keys !! r.value.optional.Keys
    ensures r.Ok? ==> r.value.required == CompileFields(prefixes, types, re, doc, "required").value
    ensures r.Ok? ==> r.value.optional == CompileFields(prefixes, types, re, doc, "optional").value
    ensures r.Ok? ==> r.value.rest == CompileOptional(prefixes, types, re, doc, "rest").value
    ensures r.Ok? ==> r.value.required.Keys == FieldNames(Params(doc), "required")
    ensures r.Ok? ==> r.value.optional.Keys == FieldNames(Params(doc), "optional")
    ensures r.Ok? ==> (r.value.rest.Some? <==> Given(Params(doc), "rest"))
    ensures !(FieldNames(Params(doc), "required") !! FieldNames(Params(doc), "optional")) ==> r == Error
    decreases |types|, doc, 2
  {
    var rest := CompileOptional(prefixes, types, re, doc, "rest");
    var required := CompileFields(prefixes, types, re, doc, "required");
    var optional := CompileFields(prefixes, types, re, doc, "optional");
    if rest.Error? || required.Error? || optional.Error? then Error
    else if !(required.value.Keys !! optional.value.Keys) then Error
    else Ok(RecType(required.value, optional.value, rest.value))
  }

  /** The field names of a record table parameter; none when it is absent. */
  function FieldNames(params: map<string, Value>, which: string): set<string>
  {
    if which in params && params[which].Dict? then params[which].fields.Keys else {}
  }

  /** The `required` or `optional` table of a record schema, each field
      compiled; an absent table is empty. */
  function CompileFields(prefixes: map<string, string>, types: Registry, re: Regex, doc: Value, which: string): (r: Result<map<string, Checker>>)
    ensures which !in Params(doc) ==> r == Ok(map[])
    ensures which in Params(doc) && !Params(doc)[which].Dict? ==> r == Error
    ensures r.Ok? ==> r.value.Keys == FieldNames(Params(doc), which)
    ensures which in Params(doc) && Params(doc)[which].Dict? ==> var table := Params(doc)[which].fields;
      && (r.Ok? <==> forall k :: k in table ==> Compile(prefixes, types, re, table[k]).Ok?)
      && (r.Ok? ==> forall k :: k in table ==> Compile(prefixes, types, re, table[k]) == Ok(r.value[k]))
    decreases |types|, doc, 0
  {
    if which !in Params(doc) then Ok(map[])
    else if !Params(doc)[which].Dict? then Error
    else
      var table := doc.fields[which].fields;
      assert table == Params(doc)[which].fields;
      SequenceMap(map k | k in table :: Compile(prefixes, types, re, table[k]))
  }

  /** `SeqType.__init__`: `contents` must be a non-empty list of schemas; a
      truthy `tail` is a schema. */
  function ConstructSeq(prefixes: map<string, string>, types: Registry, re: Regex, doc: Value): (r: Result<Checker>)
    ensures r.Ok? ==> (r.value.SeqType? && Given(Params(doc), "contents") && Params(doc)["contents"].List?
      && CompileList(prefixes, types, re, doc, "contents") == Ok(r.value.items))
    ensures r.Ok? <==>
      && Given(Params(doc), "contents") && Params(doc)["contents"].List?
      && CompileList(prefixes, types, re, doc, "contents").Ok?
      && CompileOptional(prefixes, types, re, doc, "tail").Ok?
    ensures r.Ok? ==> (r.value.tail.Some? <==> Given(Params(doc), "tail"))
    ensures r.Ok? ==> r.value.tail == CompileOptional(prefixes, types, re, doc, "tail").value
    decreases |types|, doc, 2
  {
    var params := Params(doc);
    if !Given(params, "contents") || !params["contents"].List? then Error
    else
      var tail := CompileOptional(prefixes, types, re, doc, "tail");
      match CompileList(prefixes, types, re, doc, "contents")
      case Error => Error
      case Ok(items) => if tail.Error? then Error else Ok(SeqType(items, tail.value))
  }

  /** `StrType.__init__`: `value` must be a string, `pattern` a string the
      regular-expression engine compiles, `length` a range. */
  function ConstructStr(re: Regex, doc: Value): (r: Result<Checker>)
    ensures var params := Params(doc);
      r.Ok? <==>
        && ("value" in params ==> params["value"].Text?)
        && ("pattern" in params ==> params["pattern"].Text? && re.compiles(params["pattern"].s))
        && ("length" in params ==> RangeFrom(params["length"]).Ok?)
    ensures r.Ok? ==> r.value.StrType?
    ensures r.Ok? ==> (r.value.strValue.Some? <==> "value" in Params(doc))
    ensures r.Ok? && r.value.strValue.Some? ==> Params(doc)["value"] == Text(r.value.strValue.value)
    ensures r.Ok? ==> (r.value.pattern.Some? <==> "pattern" in Params(doc))
    ensures r.Ok? && r.value.pattern.Some? ==> Params(doc)["pattern"] == Text(r.value.pattern.value)
    ensures r.Ok? ==> (r.value.strLength.Some? <==> "length" in Params(doc))
    ensures r.Ok? && r.value.strLength.Some? ==> RangeFrom(Params(doc)["length"]) == Ok(r.value.strLength.value)
  {
    var params := Params(doc);
    var value :=
      if "value" !in params then Ok(None)
      else if params["value"].Text? then Ok(Some(params["value"].s))
      else Error;
    var pattern :=
      if "pattern" !in params then Ok(None)
      else if params["pattern"].Text? && re.compiles(params["pattern"].s) then Ok(Some(params["pattern"].s))
      else Error;
    var length := if "length" in params then RangeParam(params["length"]) else Ok(None);
    if value.Error? || pattern.Error? || length.Error? then Error
    else Ok(StrType(value.value, pattern.value, length.value))
  }
}

/** What a schema means: the shorthand, a type name with no arguments, and
    the checker a core type name stands for. */
module SchemaFacts {
  import opened Results
  import opened Values
  import opened Names
  import opened Checkers
  import opened Schema

  /** The checker a core type builds when given no check arguments; the
      types that require an argument reject the bare name. */
  function Bare(kind: Kind): Result<Checker>
  {
    match kind
    case All => Error
    case Any => Ok(AnyType(true, []))
    case Arr => Error
    case Bool => Ok(BoolType)
    case Def => Ok(DefType)
    case Fail => Ok(FailType)
    case Int => Ok(IntType(None, None))
    case Map => Error
    case Nil => Ok(NilType)
    case Num => Ok(NumType(None, None))
    case One => Ok(OneType)
    case Rec => Ok(RecType(map[], map[], None))
    case Seq => Error
    case Str => Ok(StrType(None, None, None))
  }

  lemma ConstructBare(prefixes: map<string, string>, types: Registry, re: Regex, kind: Kind, doc: Value)
    requires Params(doc) == map[]
    ensures Construct(prefixes, types, re, kind, doc) == Bare(kind)
  {
    if kind == Rec {
      BareRecord(prefixes, types, re, doc);
    }
  }

  lemma BareRecord(prefixes: map<string, string>, types: Registry, re: Regex, doc: Value)
    requires Params(doc) == map[]
    ensures ConstructRec(prefixes, types, re, doc) == Ok(RecType(map[], map[], None))
  {
    assert CompileFields(prefixes, types, re, doc, "required") == Ok(map[]);
    assert CompileFields(prefixes, types, re, doc, "optional") == Ok(map[]);
  }

  /** `make_schema("name")` is `make_schema({"type": "name"})`. */
  lemma Shorthand(prefixes: map<string, string>, types: Registry, re: Regex, name: string)
    ensures Compile(prefixes, types, re, Text(name)) == Compile(prefixes, types, re, Dict(map["type" := Text(name)]))
  {
    var doc := Dict(map["type" := Text(name)]);
    assert Params(doc) == map[];
    assert TypeName(doc) == Some(name);
    match ExpandUri(prefixes, name)
    case Error =>
    case Ok(uri) =>
      if uri in types && types[uri].Native? {
        ConstructBare(prefixes, types, re, types[uri].kind, doc);
        ConstructBare(prefixes, types, re, types[uri].kind, Text(name));
      }
  }

  /** Naming a learned type with check arguments is an error; without them
      it means whatever its stored schema means. */
  lemma LearnedAlias(prefixes: map<string, string>, types: Registry, re: Regex, doc: Value, uri: string)
    requires TypeName(doc).Some? && ExpandUri(prefixes, TypeName(doc).value) == Ok(uri)
    requires uri in types && types[uri].Learned?
    ensures Params(doc) != map[] ==> Compile(prefixes, types, re, doc) == Error
    ensures Params(doc) == map[] ==> Compile(prefixes, types, re, doc) == Compile(prefixes, types - {uri}, re, types[uri].schema)
  {
  }

  /** A document naming a core type is compiled by that type's constructor. */
  lemma NativeNamed(prefixes: map<string, string>, types: Registry, re: Regex, doc: Value, name: string, uri: string, kind: Kind)
    requires TypeName(doc) == Some(name) && ExpandUri(prefixes, name) == Ok(uri)
    requires uri in types && types[uri] == Native(kind)
    ensures Compile(prefixes, types, re, doc) == Construct(prefixes, types, re, kind, doc)
  {
  }

  /** A core type named without arguments. */
  lemma NativeBare(prefixes: map<string, string>, types: Registry, re: Regex, name: string, kind: Kind)
    requires ExpandUri(prefixes, name).Ok?
    requires ExpandUri(prefixes, name).value in types && types[ExpandUri(prefixes, name).value] == Native(kind)
    ensures Compile(prefixes, types, re, Text(name)) == Bare(kind)
  {
    ConstructBare(prefixes, types, re, kind, Text(name));
  }

  /** A document that does not name a type, or names one that cannot be
      expanded or is not registered, is rejected. */
  lemma UnresolvedRejected(prefixes: map<string, string>, types: Registry, re: Regex, doc: Value)
    requires !Resolves(prefixes, types, doc)
    ensures Compile(prefixes, types, re, doc) == Error
  {
  }

  /** A parameter a core type does not take is rejected. */
  lemma UnknownParameterRejected(prefixes: map<string, string>, types: Registry, re: Regex, doc: Value, kind: Kind, key: string)
    requires Resolves(prefixes, types, doc)
    requires types[ExpandUri(prefixes, TypeName(doc).value).value] == Native(kind)
    requires key in Params(doc) && key !in Allowed(kind)
    ensures Compile(prefixes, types, re, doc) == Error
  {
  }
}
