/** `Factory`: the prefix table and the type registry, which only grow, and
    the operations that grow them. */
module Rx {
  import opened Results
  import opened Values
  import opened Names
  import opened Checkers
  import opened Schema
  import opened SchemaFacts
  import opened Extension

  /** `core_types`, in the order the source lists them. */
  const CoreKinds: seq<Kind> := [All, Any, Arr, Bool, Def, Fail, Int, Map, Nil, Num, One, Rec, Seq, Str]

  /** `_CoreType.uri()`. */
  function CoreUri(k: Kind): string
  {
    CoreBase + Subname(k)
  }

  /** No two core types share a URI, and the list names each exactly once. */
  lemma CoreUriInjective(k1: Kind, k2: Kind)
    ensures CoreUri(k1) == CoreUri(k2) ==> k1 == k2
  {
    if CoreUri(k1) == CoreUri(k2) {
      assert Subname(k1) == CoreUri(k1)[|CoreBase|..];
      assert Subname(k2) == CoreUri(k2)[|CoreBase|..];
    }
  }

  /** The position of a kind in `core_types`. */
  function CoreIndex(k: Kind): (i: nat)
    ensures i < |CoreKinds| && CoreKinds[i] == k
  {
    match k
    case All => 0
    case Any => 1
    case Arr => 2
    case Bool => 3
    case Def => 4
    case Fail => 5
    case Int => 6
    case Map => 7
    case Nil => 8
    case Num => 9
    case One => 10
    case Rec => 11
    case Seq => 12
    case Str => 13
  }

  /** Distinct positions of `core_types` have distinct URIs. */
  lemma CoreUriDistinct(i: nat, j: nat)
    requires i < |CoreKinds| && j < |CoreKinds| && i != j
    ensures CoreUri(CoreKinds[i]) != CoreUri(CoreKinds[j])
  {
    CoreUriInjective(CoreKinds[i], CoreKinds[j]);
    assert CoreIndex(CoreKinds[i]) == i by { CoreIndexInverse(i); }
    assert CoreIndex(CoreKinds[j]) == j by { CoreIndexInverse(j); }
  }

  lemma CoreIndexInverse(i: nat)
    requires i < |CoreKinds|
    ensures CoreIndex(CoreKinds[i]) == i
  {
    assert i in {0, 1, 2, 3, 4, 5, 6, 7, 8, 9, 10, 11, 12, 13};
  }

  /** The registry after the first `n` core types were registered. */
  function CoreTable(n: nat): Registry
    requires n <= |CoreKinds|
  {
    if n == 0 then map[] else CoreTable(n - 1)[CoreUri(CoreKinds[n - 1]) := Native(CoreKinds[n - 1])]
  }

  /** A core type later in the list is not registered yet. */
  lemma {:induction false} CoreTableOmits(n: nat, m: nat)
    requires n <= m < |CoreKinds|
    ensures CoreUri(CoreKinds[m]) !in CoreTable(n)
  {
    if n > 0 {
      CoreTableOmits(n - 1, m);
      CoreUriDistinct(n - 1, m);
    }
  }

  /** Each of the first `n` core types sits under its own URI. */
  lemma {:induction false} CoreTableEntries(n: nat, j: nat)
    requires j < n <= |CoreKinds|
    ensures CoreUri(CoreKinds[j]) in CoreTable(n) && CoreTable(n)[CoreUri(CoreKinds[j])] == Native(CoreKinds[j])
  {
    if j < n - 1 {
      CoreTableEntries(n - 1, j);
      CoreUriDistinct(j, n - 1);
    }
  }

  /** With every core type registered, each kind sits under its own URI. */
  lemma CoreRegistry(k: Kind)
    ensures CoreUri(k) in CoreTable(|CoreKinds|) && CoreTable(|CoreKinds|)[CoreUri(k)] == Native(k)
  {
    CoreTableEntries(|CoreKinds|, CoreIndex(k));
  }

  /** Every learned entry's stored schema compiles against the entries
      registered before it, so a learned type can always be used. */
  predicate LearnedUsable(p: map<string, string>, t: Registry, re: Regex)
  {
    forall u :: u in t && t[u].Learned? ==> Compile(p, t - {u}, re, t[u].schema).Ok?
  }

  /** Growing the tables keeps every learned entry usable. */
  lemma {:induction false} UsableExtends(p: map<string, string>, t: Registry, p2: map<string, string>, t2: Registry, re: Regex)
    requires LearnedUsable(p, t, re) && Extend(p, t, p2, t2)
    requires forall u :: u in t2 && u !in t ==> t2[u].Native?
    ensures LearnedUsable(p2, t2, re)
  {
    forall u | u in t2 && t2[u].Learned?
      ensures Compile(p2, t2 - {u}, re, t2[u].schema).Ok?
    {
      assert TypesExtend(t - {u}, t2 - {u});
      CompileExtends(p, t - {u}, p2, t2 - {u}, re, t[u].schema);
    }
  }

  /** A learned type named by its (qualified) URI compiles, to what its
      stored schema compiles to. */
  lemma LearnedNameCompiles(p: map<string, string>, t: Registry, re: Regex, uri: string)
    requires LearnedUsable(p, t, re)
    requires uri in t && t[uri].Learned? && IsQualified(uri)
    ensures Compile(p, t, re, Text(uri)).Ok?
    ensures Compile(p, t, re, Text(uri)) == Compile(p, t, re, t[uri].schema)
  {
    AliasInFullRegistry(p, t, re, uri);
  }

  /** `//name` expands to the URI of the core type of that name. */
  lemma CoreNameExpands(k: Kind)
    ensures ExpandUri(DefaultPrefixes(), "//" + Subname(k)) == Ok(CoreUri(k))
  {
    ExpandCoreShort(Subname(k));
  }

  /** With the core types registered, `//name` means the bare core type. */
  lemma CoreNameMeaning(t: Registry, re: Regex, k: Kind)
    requires CoreUri(k) in t && t[CoreUri(k)] == Native(k)
    ensures Compile(DefaultPrefixes(), t, re, Text("//" + Subname(k))) == Bare(k)
  {
    CoreNameExpands(k);
    NativeBare(DefaultPrefixes(), t, re, "//" + Subname(k), k);
  }

  class Factory {
    const re: Regex
    var prefixes: map<string, string>
    var types: Registry

    /** The built-in prefixes stay, and every learned type stays usable. */
    ghost predicate Valid()
      reads this
    {
      && (forall x :: x in DefaultPrefixes() ==> x in prefixes && prefixes[x] == DefaultPrefixes()[x])
      && LearnedUsable(prefixes, types, re)
    }

    /** `Factory(opt)`; `registerCoreTypes` is `opt.get("register_core_types")`. */
    constructor (re: Regex, registerCoreTypes: bool)
      ensures Valid()
      ensures this.re == re && prefixes == DefaultPrefixes()
      ensures !registerCoreTypes ==> types == map[]
      ensures registerCoreTypes ==> types == CoreTable(|CoreKinds|)
    {
      this.re := re;
      prefixes := DefaultPrefixes();
      types := map[];
      new;
      if registerCoreTypes {
        var i := 0;
        while i < |CoreKinds|
          invariant 0 <= i <= |CoreKinds|
          invariant Valid() && this.re == re && prefixes == DefaultPrefixes()
          invariant types == CoreTable(i)
        {
          CoreTableOmits(i, i);
          var r := RegisterType(CoreKinds[i]);
          i := i + 1;
        }
      }
    }

    /** `add_prefix`: a prefix with a non-empty base cannot be replaced. */
    method AddPrefix(name: string, base: string) returns (r: Result<()>)
      requires Valid()
      modifies this
      ensures Valid()
      ensures types == old(types)
      ensures PrefixKnown(old(prefixes), name) ==> r == Error && prefixes == old(prefixes)
      ensures !PrefixKnown(old(prefixes), name) ==> r == Ok(()) && prefixes == old(prefixes)[name := base]
      ensures Extend(old(prefixes), old(types), prefixes, types)
    {
      if PrefixKnown(prefixes, name) {
        return Error;
      }
      ghost var before := prefixes;
      prefixes := prefixes[name := base];
      assert PrefixesExtend(before, prefixes);
      UsableExtends(before, types, prefixes, types, re);
      return Ok(());
    }

    /** `register_type` for a core type class. */
    method RegisterType(kind: Kind) returns (r: Result<()>)
      requires Valid()
      modifies this
      ensures Valid()
      ensures prefixes == old(prefixes)
      ensures CoreUri(kind) in old(types) ==> r == Error && types == old(types)
      ensures CoreUri(kind) !in old(types) ==> r == Ok(()) && types == old(types)[CoreUri(kind) := Native(kind)]
      ensures Extend(old(prefixes), old(types), prefixes, types)
    {
      var uri := CoreUri(kind);
      if uri in types {
        return Error;
      }
      ghost var before := types;
      types := types[uri := Native(kind)];
      UsableExtends(prefixes, before, prefixes, types, re);
      return Ok(());
    }

    /** `learn_type`: the URI must be new and the schema must compile
        against the current tables; the raw schema is stored. */
    method LearnType(uri: string, schema: Value) returns (r: Result<()>)
      requires Valid()
      modifies this
      ensures Valid()
      ensures prefixes == old(prefixes)
      ensures uri in old(types) ==> r == Error && types == old(types)
      ensures uri !in old(types) && Compile(prefixes, old(types), re, schema).Error? ==> r == Error && types == old(types)
      ensures uri !in old(types) && Compile(prefixes, old(types), re, schema).Ok? ==>
        r == Ok(()) && types == old(types)[uri := Learned(schema)]
      ensures Extend(old(prefixes), old(types), prefixes, types)
    {
      if uri in types {
        return Error;
      }
      var compiled := Compile(prefixes, types, re, schema);
      if compiled.Error? {
        return Error;
      }
      ghost var before := types;
      types := types[uri := Learned(schema)];
      assert types - {uri} == before;
      forall u | u in types && types[u].Learned?
        ensures Compile(prefixes, types - {u}, re, types[u].schema).Ok?
      {
        if u != uri {
          assert TypesExtend(before - {u}, types - {u});
          CompileExtends(prefixes, before - {u}, prefixes, types - {u}, re, before[u].schema);
        }
      }
      return Ok(());
    }
  }
}
