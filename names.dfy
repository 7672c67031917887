/** Type names and `Factory.expand_uri`: a fully qualified URI passes
    through, `/prefix/local` is expanded through the prefix table. */
module Names {
  import opened Results

  const CoreBase: string := "tag:codesimply.com,2008:rx/core/"
  const MetaBase: string := "tag:codesimply.com,2008:rx/meta/"

  /** The prefix table a fresh `Factory` starts with. */
  function DefaultPrefixes(): map<string, string>
  {
    map["" := CoreBase, ".meta" := MetaBase]
  }

  /** `\w` without the UNICODE flag. */
  predicate IsWordChar(ch: char)
  {
    ('a' <= ch <= 'z') || ('A' <= ch <= 'Z') || ('0' <= ch <= '9') || ch == '_'
  }

  /** The class `[-._a-z0-9]`. */
  predicate IsNameChar(ch: char)
  {
    ('a' <= ch <= 'z') || ('0' <= ch <= '9') || ch == '-' || ch == '.' || ch == '_'
  }

  predicate AllNameChars(s: string)
  {
    forall i :: 0 <= i < |s| ==> IsNameChar(s[i])
  }

  /** `re.match('^\w+:', name)`: one or more word characters, then a colon. */
  predicate IsQualified(name: string)
  {
    exists i :: 0 < i < |name| && name[i] == ':' && forall j :: 0 <= j < i ==> IsWordChar(name[j])
  }

  /** `p/l`, the part of a short form after its leading slash. */
  function Joined(p: string, l: string): string
  {
    p + "/" + l
  }

  /** `name` matches `^/([-._a-z0-9]*)/([-._a-z0-9]+)$` with groups `p` and
      `l`; Python's `$` also matches just before a final newline. */
  predicate ShortForm(name: string, p: string, l: string)
  {
    && (name == "/" + Joined(p, l) || name == "/" + Joined(p, l) + "\n")
    && AllNameChars(p) && AllNameChars(l) && |l| > 0
  }

  /** Index of the first '/' of `s`, or |s| when there is none. */
  function FirstSlash(s: string): (i: nat)
    ensures i <= |s|
    ensures forall j :: 0 <= j < i ==> s[j] != '/'
    ensures i < |s| ==> s[i] == '/'
  {
    if s == [] then 0 else if s[0] == '/' then 0 else 1 + FirstSlash(s[1..])
  }

  /** What follows the leading slash, without the newline `$` lets through. */
  function Body(name: string): string
    requires |name| > 0
  {
    if name[|name| - 1] == '\n' && |name| > 1 then name[1..|name| - 1] else name[1..]
  }

  /** The two groups of `p/l`, if `body` has that shape. */
  function SplitBody(body: string): Option<(string, string)>
  {
    var j := FirstSlash(body);
    if j == |body| then None
    else
      var p, l := body[..j], body[j + 1..];
      if AllNameChars(p) && AllNameChars(l) && |l| > 0 then Some((p, l)) else None
  }

  /** The groups of the short-form pattern, if `name` matches it. */
  function ParseShort(name: string): Option<(string, string)>
  {
    if |name| == 0 || name[0] != '/' then None else SplitBody(Body(name))
  }

  /** ParseShort recognises exactly the short forms, and returns their groups. */
  lemma ParseShortMeaning(name: string, p: string, l: string)
    ensures ParseShort(name) == Some((p, l)) <==> ShortForm(name, p, l)
  {
    if ShortForm(name, p, l) {
      ShortFormParses(name, p, l);
    }
    if ParseShort(name) == Some((p, l)) {
      ParsedIsShortForm(name, p, l);
    }
  }

  lemma ShortFormParses(name: string, p: string, l: string)
    requires ShortForm(name, p, l)
    ensures ParseShort(name) == Some((p, l))
  {
    var body := Joined(p, l);
    if name == "/" + body {
      assert name[|name| - 1] == l[|l| - 1];
      assert name[1..] == body;
    } else {
      assert name[1..|name| - 1] == body;
    }
    assert Body(name) == body;
    SlashFree(p, l);
    assert body[..|p|] == p;
    assert body[|p| + 1..] == l;
  }

  lemma ParsedIsShortForm(name: string, p: string, l: string)
    requires ParseShort(name) == Some((p, l))
    ensures ShortForm(name, p, l)
  {
    var body := Body(name);
    assert SplitBody(body) == Some((p, l));
    SplitAt(body, FirstSlash(body));
    BodyRebuilds(name);
  }

  /** The leading slash, the body and the optional final newline make up
      the name. */
  lemma BodyRebuilds(name: string)
    requires |name| > 0 && name[0] == '/'
    ensures name == "/" + Body(name) || name == "/" + Body(name) + "\n"
  {
    if name[|name| - 1] == '\n' && |name| > 1 {
      assert name == [name[0]] + name[1..|name| - 1] + [name[|name| - 1]];
    } else {
      assert name == [name[0]] + name[1..];
    }
  }

  lemma SplitAt(body: string, j: nat)
    requires j < |body| && body[j] == '/'
    ensures body == Joined(body[..j], body[j + 1..])
  {
    assert [body[j]] == "/";
    assert body == body[..j] + [body[j]] + body[j + 1..];
  }

  lemma SlashFree(p: string, l: string)
    requires AllNameChars(p)
    ensures FirstSlash(Joined(p, l)) == |p|
  {
    if p != [] {
      assert Joined(p, l)[1..] == Joined(p[1..], l);
      SlashFree(p[1..], l);
    }
  }

  /** A prefix counts as registered only when its base is non-empty
      (`prefix_registry.get(p)` is truthy). */
  predicate PrefixKnown(prefixes: map<string, string>, p: string)
  {
    p in prefixes && prefixes[p] != ""
  }

  /** `Factory.expand_uri`. */
  function ExpandUri(prefixes: map<string, string>, name: string): Result<string>
  {
    if IsQualified(name) then Ok(name)
    else match ParseShort(name)
      case None => Error
      case Some((p, l)) => if PrefixKnown(prefixes, p) then Ok(prefixes[p] + l) else Error
  }

  /** `p2` keeps every registered prefix of `p` with the same base. */
  predicate PrefixesExtend(p: map<string, string>, p2: map<string, string>)
  {
    forall x :: x in p && PrefixKnown(p, x) ==> x in p2 && p2[x] == p[x]
  }

  /** Registering more prefixes never changes an expansion that succeeded. */
  lemma ExpandExtends(p: map<string, string>, p2: map<string, string>, name: string)
    requires PrefixesExtend(p, p2)
    requires ExpandUri(p, name).Ok?
    ensures ExpandUri(p2, name) == ExpandUri(p, name)
  {
    if !IsQualified(name) {
      var (x, l) := ParseShort(name).value;
      assert PrefixKnown(p, x);
    }
  }

  /** The three outcomes of `expand_uri` for a name that is not qualified. */
  lemma ExpandShort(prefixes: map<string, string>, name: string, p: string, l: string)
    requires !IsQualified(name) && ShortForm(name, p, l)
    ensures PrefixKnown(prefixes, p) ==> ExpandUri(prefixes, name) == Ok(prefixes[p] + l)
    ensures !PrefixKnown(prefixes, p) ==> ExpandUri(prefixes, name) == Error
  {
    ParseShortMeaning(name, p, l);
  }

  lemma ExpandMalformed(prefixes: map<string, string>, name: string)
    requires !IsQualified(name) && forall p, l :: !ShortForm(name, p, l)
    ensures ExpandUri(prefixes, name) == Error
  {
    if ParseShort(name).Some? {
      var (p, l) := ParseShort(name).value;
      ParseShortMeaning(name, p, l);
    }
  }

  lemma QualifiedExtends(base: string, l: string)
    requires IsQualified(base)
    ensures IsQualified(base + l)
  {
    var i :| 0 < i < |base| && base[i] == ':' && forall j :: 0 <= j < i ==> IsWordChar(base[j]);
    assert (base + l)[i] == ':';
    assert forall j :: 0 <= j < i ==> (base + l)[j] == base[j];
  }

  /** When every registered base is itself a qualified URI (as the built-in
      ones are), expanding an expanded name changes nothing. */
  lemma ExpandIdempotent(prefixes: map<string, string>, name: string)
    requires forall p :: p in prefixes && prefixes[p] != "" ==> IsQualified(prefixes[p])
    requires ExpandUri(prefixes, name).Ok?
    ensures ExpandUri(prefixes, ExpandUri(prefixes, name).value) == ExpandUri(prefixes, name)
  {
    if !IsQualified(name) {
      var (p, l) := ParseShort(name).value;
      QualifiedExtends(prefixes[p], l);
    }
  }

  lemma DefaultBasesQualified()
    ensures forall p :: p in DefaultPrefixes() && DefaultPrefixes()[p] != "" ==> IsQualified(DefaultPrefixes()[p])
  {
    assert CoreBase[3] == ':' && MetaBase[3] == ':';
    assert IsWordChar(CoreBase[0]) && IsWordChar(CoreBase[1]) && IsWordChar(CoreBase[2]);
  }

  /** `//name` names a core type: under the default prefixes it expands to
      the core base followed by the name. */
  lemma ExpandCoreShort(name: string)
    requires AllNameChars(name) && |name| > 0
    ensures ExpandUri(DefaultPrefixes(), "//" + name) == Ok(CoreBase + name)
  {
    var n := "//" + name;
    assert n == "/" + Joined("", name);
    assert !IsQualified(n) by {
      assert !IsWordChar(n[0]);
    }
    ExpandShort(DefaultPrefixes(), n, "", name);
  }
}
