/** Small example schemas, compiled against a factory with the core
    types registered, and values checked against them. */
module Examples {
  import opened Results
  import opened Values
  import opened Names
  import opened Checkers
  import opened Schema
  import opened SchemaFacts
  import opened Rx

  /** A registry in which the given core types sit under their URIs, as in
      a factory created with `register_core_types`. */
  predicate HasCore(t: Registry, k: Kind)
  {
    CoreUri(k) in t && t[CoreUri(k)] == Native(k)
  }

  function ArrOfIntSchema(): Value
  {
    Dict(map["type" := Text("//arr"), "contents" := Text("//int")])
  }

  /** `{"type": "//arr", "contents": "//int"}` compiles to a list-of-integers
      checker with no length range. */
  lemma ArrOfIntCompiles(t: Registry, re: Regex)
    requires HasCore(t, Arr) && HasCore(t, Int)
    ensures Compile(DefaultPrefixes(), t, re, ArrOfIntSchema()) == Ok(ArrType(IntType(None, None), None))
  {
    ArrOfIntConstructs(t, re);
    ArrNameExpands();
    NativeNamed(DefaultPrefixes(), t, re, ArrOfIntSchema(), "//arr", CoreUri(Arr), Arr);
  }

  /** The schema names `//arr`, which expands to the URI of the core type. */
  lemma ArrNameExpands()
    ensures TypeName(ArrOfIntSchema()) == Some("//arr")
    ensures ExpandUri(DefaultPrefixes(), "//arr") == Ok(CoreUri(Arr))
  {
    CoreNameExpands(Arr);
    assert "//" + Subname(Arr) == "//arr";
  }

  lemma ArrOfIntConstructs(t: Registry, re: Regex)
    requires HasCore(t, Int)
    ensures Construct(DefaultPrefixes(), t, re, Arr, ArrOfIntSchema()) == Ok(ArrType(IntType(None, None), None))
  {
    var p, doc := DefaultPrefixes(), ArrOfIntSchema();
    ArrOfIntParams();
    IntNameCompiles(t, re);
    assert CompileParam(p, t, re, doc, "contents") == Ok(IntType(None, None));
  }

  /** Besides its name, the schema has only `contents`. */
  lemma ArrOfIntParams()
    ensures Params(ArrOfIntSchema()) == map["contents" := Text("//int")]
    ensures !Given(Params(ArrOfIntSchema()), "length")
    ensures Params(ArrOfIntSchema()).Keys <= Allowed(Arr)
  {
    assert Params(ArrOfIntSchema()) == map["contents" := Text("//int")];
  }

  /** `//int` compiles to the integer checker with no range or value. */
  lemma IntNameCompiles(t: Registry, re: Regex)
    requires HasCore(t, Int)
    ensures Compile(DefaultPrefixes(), t, re, Text("//int")) == Ok(IntType(None, None))
  {
    CoreNameMeaning(t, re, Int);
    assert "//" + Subname(Int) == "//int";
  }

  /** The factory's own registry has them all. */
  lemma FactoryHasCore(k: Kind)
    ensures HasCore(CoreTable(|CoreKinds|), k)
  {
    CoreRegistry(k);
  }

  /** `[1, 2]` passes. */
  lemma ArrOfIntAccepts(re: Regex)
    ensures Accepts(re, ArrType(IntType(None, None), None), List([Number(1.0), Number(2.0)]))
  {
    var v := List([Number(1.0), Number(2.0)]);
    assert Accepts(re, IntType(None, None), v.items[0]);
    assert Accepts(re, IntType(None, None), v.items[1]);
  }

  /** `[1, "x"]` fails at index 1 with a wrong type. */
  lemma ArrOfIntRejects(re: Regex)
    ensures !Accepts(re, ArrType(IntType(None, None), None), List([Number(1.0), Text("x")]))
    ensures Raises(re, ArrType(IntType(None, None), None), List([Number(1.0), Text("x")]), [],
                   Leaf(Int, [Index(1)], Text("x"), WrongType))
  {
    var c := ArrType(IntType(None, None), None);
    var v := List([Number(1.0), Text("x")]);
    var f := Leaf(Int, [Index(1)], Text("x"), WrongType);
    assert Accepts(re, c.contents, v.items[0]);
    assert [] + [Index(1)] == [Index(1)];
    assert Raises(re, c.contents, v.items[1], [] + [Index(1)], f);
    assert Raises(re, c, v, [], f);
    RaisesRejects(re, c, v, [], f);
  }

  /** A record with a required `name` and no `rest`: a key it does not know
      is reported at the record, listing the unknown keys. */
  lemma RecordUnknownKey(re: Regex)
    ensures var c := RecType(map["name" := StrType(None, None, None)], map[], None);
      var v := Dict(map["name" := Text("rx"), "extra" := Number(1.0)]);
      !Accepts(re, c, v) && Raises(re, c, v, [], Leaf(Rec, [], v, UnknownKeys({"extra"})))
  {
    var c := RecType(map["name" := StrType(None, None, None)], map[], None);
    var v := Dict(map["name" := Text("rx"), "extra" := Number(1.0)]);
    assert v.fields.Keys == {"name", "extra"};
    assert Unknown(v.fields, c.required, c.optional) == {"extra"};
  }

  /** A missing required field is reported at the record. */
  lemma RecordMissingField(re: Regex)
    ensures var c := RecType(map["name" := StrType(None, None, None)], map[], None);
      Raises(re, c, Dict(map[]), [], Leaf(Rec, [], Dict(map[]), MissingField("name")))
  {
  }

  /** With a `rest` schema, the unknown keys are checked together as one dict. */
  lemma RecordRest(re: Regex)
    ensures var c := RecType(map[], map[], Some(MapType(IntType(None, None))));
      Accepts(re, c, Dict(map["a" := Number(1.0)])) && !Accepts(re, c, Dict(map["a" := Text("x")]))
  {
    var c := RecType(map[], map[], Some(MapType(IntType(None, None))));
    var ok := map["a" := Number(1.0)];
    var bad := map["a" := Text("x")];
    assert ok.Keys == {"a"} && bad.Keys == {"a"};
    assert Unknown(ok, c.required, c.optional) == {"a"};
    assert Restrict(ok, {"a"}) == ok;
    assert Unknown(bad, c.required, c.optional) == {"a"};
    assert Restrict(bad, {"a"}) == bad;
    assert !Accepts(re, IntType(None, None), bad["a"]);
  }

  /** `{"type": "//seq", "contents": ["//int"]}`: a longer list needs a tail. */
  lemma SequenceWithoutTail(re: Regex)
    ensures Raises(re, SeqType([IntType(None, None)], None), List([Number(1.0), Number(2.0)]), [],
                   Leaf(Seq, [], List([Number(1.0), Number(2.0)]), NoTail))
  {
    var v := List([Number(1.0), Number(2.0)]);
    assert Accepts(re, IntType(None, None), v.items[0]);
  }

  /** With a tail, the remaining elements are checked as one list. */
  lemma SequenceTail(re: Regex)
    ensures Accepts(re, SeqType([IntType(None, None)], Some(ArrType(StrType(None, None, None), None))),
                    List([Number(1.0), Text("a"), Text("b")]))
  {
    var v := List([Number(1.0), Text("a"), Text("b")]);
    var rest := List(v.items[1..]);
    assert v.items[1..] == [Text("a"), Text("b")];
    assert Accepts(re, ArrType(StrType(None, None, None), None), rest) by {
      assert Accepts(re, StrType(None, None, None), rest.items[0]);
      assert Accepts(re, StrType(None, None, None), rest.items[1]);
    }
    assert Accepts(re, IntType(None, None), v.items[0]);
  }
}
