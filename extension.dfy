/** The registries only grow: a prefix that is known keeps its base and a
    URI that is registered keeps its entry. These lemmas show that growth
    never changes what a schema that already compiled compiles to. */
module Extension {
  import opened Results
  import opened Values
  import opened Names
  import opened Checkers
  import opened Schema

  /** `t2` keeps every entry of `t`. */
  predicate TypesExtend(t: Registry, t2: Registry)
  {
    forall u :: u in t ==> u in t2 && t2[u] == t[u]
  }

  predicate Extend(p: map<string, string>, t: Registry, p2: map<string, string>, t2: Registry)
  {
    PrefixesExtend(p, p2) && TypesExtend(t, t2)
  }

  lemma {:induction false} CompileExtends(p: map<string, string>, t: Registry, p2: map<string, string>, t2: Registry, re: Regex, doc: Value)
    requires Extend(p, t, p2, t2)
    requires Compile(p, t, re, doc).Ok?
    ensures Compile(p2, t2, re, doc) == Compile(p, t, re, doc)
    decreases |t|, doc, 5
  {
    NamedExtends(p, t, p2, t2, re, TypeName(doc).value, doc);
  }

  lemma {:induction false} NamedExtends(p: map<string, string>, t: Registry, p2: map<string, string>, t2: Registry, re: Regex, name: string, doc: Value)
    requires Extend(p, t, p2, t2)
    requires CompileNamed(p, t, re, name, doc).Ok?
    ensures CompileNamed(p2, t2, re, name, doc) == CompileNamed(p, t, re, name, doc)
    decreases |t|, doc, 4
  {
    ExpandExtends(p, p2, name);
    var uri := ExpandUri(p, name).value;
    match t[uri]
    case Learned(schema) =>
      assert TypesExtend(t - {uri}, t2 - {uri});
      CompileExtends(p, t - {uri}, p2, t2 - {uri}, re, schema);
    case Native(kind) =>
      ConstructExtends(p, t, p2, t2, re, kind, doc);
  }

  lemma {:induction false} ConstructExtends(p: map<string, string>, t: Registry, p2: map<string, string>, t2: Registry, re: Regex, kind: Kind, doc: Value)
    requires Extend(p, t, p2, t2)
    requires Construct(p, t, re, kind, doc).Ok?
    ensures Construct(p2, t2, re, kind, doc) == Construct(p, t, re, kind, doc)
    decreases |t|, doc, 3
  {
    var params := Params(doc);
    match kind
    case All =>
      ListExtends(p, t, p2, t2, re, doc, "of");
    case Any =>
      if "of" in params && !params["of"].Null? {
        ListExtends(p, t, p2, t2, re, doc, "of");
      }
    case Arr =>
      ParamExtends(p, t, p2, t2, re, doc, "contents");
    case Map =>
      ParamExtends(p, t, p2, t2, re, doc, "values");
    case Rec =>
      OptionalExtends(p, t, p2, t2, re, doc, "rest");
      FieldsExtends(p, t, p2, t2, re, doc, "required");
      FieldsExtends(p, t, p2, t2, re, doc, "optional");
    case Seq =>
      ListExtends(p, t, p2, t2, re, doc, "contents");
      OptionalExtends(p, t, p2, t2, re, doc, "tail");
    case _ =>
  }

  lemma {:induction false} ListExtends(p: map<string, string>, t: Registry, p2: map<string, string>, t2: Registry, re: Regex, doc: Value, key: string)
    requires Extend(p, t, p2, t2)
    requires key in Params(doc) && Params(doc)[key].List?
    requires CompileList(p, t, re, doc, key).Ok?
    ensures CompileList(p2, t2, re, doc, key) == CompileList(p, t, re, doc, key)
    decreases |t|, doc, 0
  {
    var docs := doc.fields[key].items;
    assert docs == Params(doc)[key].items;
    forall i | 0 <= i < |docs|
      ensures Compile(p2, t2, re, docs[i]) == Compile(p, t, re, docs[i])
    {
      CompileExtends(p, t, p2, t2, re, docs[i]);
    }
    var r, r2 := CompileList(p, t, re, doc, key), CompileList(p2, t2, re, doc, key);
    assert r2.Ok?;
    assert r2.value == r.value;
  }

  lemma {:induction false} ParamExtends(p: map<string, string>, t: Registry, p2: map<string, string>, t2: Registry, re: Regex, doc: Value, key: string)
    requires Extend(p, t, p2, t2)
    requires key in Params(doc)
    requires CompileParam(p, t, re, doc, key).Ok?
    ensures CompileParam(p2, t2, re, doc, key) == CompileParam(p, t, re, doc, key)
    decreases |t|, doc, 0
  {
    CompileExtends(p, t, p2, t2, re, doc.fields[key]);
  }

  lemma {:induction false} OptionalExtends(p: map<string, string>, t: Registry, p2: map<string, string>, t2: Registry, re: Regex, doc: Value, key: string)
    requires Extend(p, t, p2, t2)
    requires CompileOptional(p, t, re, doc, key).Ok?
    ensures CompileOptional(p2, t2, re, doc, key) == CompileOptional(p, t, re, doc, key)
    decreases |t|, doc, 1
  {
    if Given(Params(doc), key) {
      ParamExtends(p, t, p2, t2, re, doc, key);
    }
  }

  lemma {:induction false} FieldsExtends(p: map<string, string>, t: Registry, p2: map<string, string>, t2: Registry, re: Regex, doc: Value, which: string)
    requires Extend(p, t, p2, t2)
    requires CompileFields(p, t, re, doc, which).Ok?
    ensures CompileFields(p2, t2, re, doc, which) == CompileFields(p, t, re, doc, which)
    decreases |t|, doc, 0
  {
    if which in Params(doc) {
      var table := doc.fields[which].fields;
      assert table == Params(doc)[which].fields;
      forall k | k in table
        ensures Compile(p2, t2, re, table[k]) == Compile(p, t, re, table[k])
      {
        CompileExtends(p, t, p2, t2, re, table[k]);
      }
      var r, r2 := CompileFields(p, t, re, doc, which), CompileFields(p2, t2, re, doc, which);
      assert r2.Ok?;
      assert r2.value == r.value;
    }
  }

  /** Following a learned type against the whole registry, as the source
      does, gives the checker the model computes without that entry. */
  lemma AliasInFullRegistry(p: map<string, string>, t: Registry, re: Regex, uri: string)
    requires uri in t && t[uri].Learned?
    requires Compile(p, t - {uri}, re, t[uri].schema).Ok?
    ensures Compile(p, t, re, t[uri].schema) == Compile(p, t - {uri}, re, t[uri].schema)
  {
    CompileExtends(p, t - {uri}, p, t, re, t[uri].schema);
  }
}
