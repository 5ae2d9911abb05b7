/** The proxy ("typeclass") layer over database models: the search-token
    classifier of `smart_search`, the path lists of a proxy family, class path
    naming, the database-model lookup that creating a proxy class needs, the
    fallback chain of `set_proxy_class`, `is_proxy`, and deletion. */
module AutoProxy {
  import opened Wrappers
  import opened Text

  /** Python's `s[n:]` for `n >= 0`: empty when `n` is past the end. */
  function PyDrop(s: string, n: nat): (r: string)
    ensures n <= |s| ==> r == s[n..]
    ensures n > |s| ==> r == []
  {
    if n <= |s| then s[n..] else []
  }

  /** Where one search token goes. */
  datatype Criterion =
    | Plain(part: string)
    | PlusTag(tag: string, tagCategory: string)
    | NegTag(tag: string, tagCategory: string)
    | PlusAttr(attr: string, value: string, category: string)
    | NegAttr(attr: string, value: string, category: string)

  /** How many leading characters of an attribute key are cut: seven as
      written, six (the length of "attr==") as intended. */
  const ATTR_CUT_AS_WRITTEN: nat := 7
  const ATTR_CUT: nat := 6

  /** The classification of one token, cutting `attrCut` characters from an
      attribute key. */
  function ClassifyWith(part: string, attrCut: nat): Criterion {
    var (key, rest) := SplitFirst(part, ':');
    if "tag==" <= key then PlusTag(PyDrop(key, 5), rest)
    else if "tag!=" <= key then NegTag(PyDrop(key, 5), rest)
    else if rest != [] then
      var (value, category) := SplitFirst(rest, ':');
      if "attr==" <= key then PlusAttr(PyDrop(key, attrCut), value, category)
      else if "attr!=" <= key then NegAttr(PyDrop(key, attrCut), value, category)
      else Plain(part)
    else Plain(part)
  }

  /** The loop body of `smart_search` as written. */
  function ClassifyAsWritten(part: string): Criterion {
    ClassifyWith(part, ATTR_CUT_AS_WRITTEN)
  }

  /** The loop body of `smart_search` with the attribute name cut after its
      prefix. */
  function Classify(part: string): Criterion {
    ClassifyWith(part, ATTR_CUT)
  }

  /** The token "attr==<name>:<value>[:<category>]", or "attr!=..." when `op`
      is '!'. */
  function AttrToken(op: char, name: string, value: string, category: string, withCategory: bool): string {
    "attr" + [op] + "=" + name + ":" + value + (if withCategory then ":" + category else "")
  }

  /** The token "tag==<name>[:<category>]", or "tag!=..." when `op` is '!'. */
  function TagToken(op: char, name: string, category: string, withCategory: bool): string {
    "tag" + [op] + "=" + name + (if withCategory then ":" + category else "")
  }

  /** The prefix tests `ClassifyWith` makes, on an attribute key. */
  lemma AttrKeyPrefixes(op: char, name: string)
    requires op == '=' || op == '!'
    requires ':' !in name
    ensures ':' !in "attr" + [op] + "=" + name
    ensures !("tag==" <= "attr" + [op] + "=" + name) && !("tag!=" <= "attr" + [op] + "=" + name)
    ensures ("attr==" <= "attr" + [op] + "=" + name) <==> op == '='
    ensures ("attr!=" <= "attr" + [op] + "=" + name) <==> op == '!'
  {
    var key := "attr" + [op] + "=" + name;
    assert forall i :: 6 <= i < |key| ==> key[i] == name[i - 6];
    assert key[0] == 'a' && key[4] == op;
  }

  /** The value and category of an attribute token, split at the first ":". */
  lemma AttrRestSplit(value: string, category: string, withCategory: bool)
    requires ':' !in value && value != []
    requires !withCategory ==> category == []
    ensures SplitFirst(value + (if withCategory then ":" + category else ""), ':') == (value, category)
  {
    if withCategory {
      SplitFirstAt(value, category, ':');
      assert value + (":" + category) == value + [':'] + category;
    } else {
      assert value + "" == value;
    }
  }

  /** An attribute token is classified by its operator, the name being what is
      left of the key after `attrCut` characters. */
  lemma AttrClassified(op: char, name: string, value: string, category: string, withCategory: bool, attrCut: nat)
    requires op == '=' || op == '!'
    requires ':' !in name && ':' !in value && value != []
    requires !withCategory ==> category == []
    ensures ClassifyWith(AttrToken(op, name, value, category, withCategory), attrCut)
      == if op == '=' then PlusAttr(PyDrop("attr" + [op] + "=" + name, attrCut), value, category)
         else NegAttr(PyDrop("attr" + [op] + "=" + name, attrCut), value, category)
  {
    var key := "attr" + [op] + "=" + name;
    var rest := value + (if withCategory then ":" + category else "");
    AttrKeyPrefixes(op, name);
    SplitFirstAt(key, rest, ':');
    assert AttrToken(op, name, value, category, withCategory) == key + [':'] + rest;
    AttrRestSplit(value, category, withCategory);
  }

  /** Cutting an attribute key `6 + n` characters in leaves the name less its
      first `n` characters. */
  lemma KeyDrop(op: char, name: string, n: nat)
    requires n <= |name|
    ensures PyDrop("attr" + [op] + "=" + name, 6 + n) == name[n..]
  {
    var key := "attr" + [op] + "=" + name;
    assert |key| == 6 + |name|;
    assert key[6..] == name;
    assert key[6 + n..] == key[6..][n..];
  }

  /** With the six-character cut a well-formed attribute token reads back
      into its name, value and category (empty when absent). */
  lemma AttrTokenRoundTrip(op: char, name: string, value: string, category: string, withCategory: bool)
    requires op == '=' || op == '!'
    requires ':' !in name && ':' !in value && value != []
    requires !withCategory ==> category == []
    ensures Classify(AttrToken(op, name, value, category, withCategory))
      == if op == '=' then PlusAttr(name, value, category) else NegAttr(name, value, category)
  {
    AttrClassified(op, name, value, category, withCategory, ATTR_CUT);
    KeyDrop(op, name, 0);
    assert name[0..] == name;
  }

  /** As written, the seven-character cut drops the first character of every
      attribute name. */
  lemma AsWrittenDropsFirstChar(op: char, name: string, value: string, category: string, withCategory: bool)
    requires op == '=' || op == '!'
    requires ':' !in name && ':' !in value && value != [] && name != []
    requires !withCategory ==> category == []
    ensures ClassifyAsWritten(AttrToken(op, name, value, category, withCategory))
      == if op == '=' then PlusAttr(name[1..], value, category) else NegAttr(name[1..], value, category)
  {
    AttrClassified(op, name, value, category, withCategory, ATTR_CUT_AS_WRITTEN);
    KeyDrop(op, name, 1);
  }

  /** "attr==color:red" asks for attribute "olor" as written, "color" as
      intended. */
  lemma AttrColorExample()
    ensures ClassifyAsWritten("attr==color:red") == PlusAttr("olor", "red", "")
    ensures Classify("attr==color:red") == PlusAttr("color", "red", "")
  {
    assert AttrToken('=', "color", "red", "", false) == "attr==color:red";
    AsWrittenDropsFirstChar('=', "color", "red", "", false);
    AttrTokenRoundTrip('=', "color", "red", "", false);
  }

  /** The prefix tests `ClassifyWith` makes, on a tag key. */
  lemma TagKeyPrefixes(op: char, name: string)
    requires op == '=' || op == '!'
    requires ':' !in name
    ensures ':' !in "tag" + [op] + "=" + name
    ensures ("tag==" <= "tag" + [op] + "=" + name) <==> op == '='
    ensures ("tag!=" <= "tag" + [op] + "=" + name) <==> op == '!'
    ensures PyDrop("tag" + [op] + "=" + name, 5) == name
  {
    var key := "tag" + [op] + "=" + name;
    assert forall i :: 5 <= i < |key| ==> key[i] == name[i - 5];
    assert key[3] == op;
    assert key[5..] == name;
  }

  lemma StringAssoc(a: string, b: string, c: string)
    ensures (a + b) + c == a + (b + c)
  {
  }

  /** A tag token reads back into its name and category, the category being
      all that follows the first ":" (empty without one). */
  lemma TagTokenRoundTrip(op: char, name: string, category: string, withCategory: bool)
    requires op == '=' || op == '!'
    requires ':' !in name
    requires !withCategory ==> category == []
    ensures Classify(TagToken(op, name, category, withCategory))
      == if op == '=' then PlusTag(name, category) else NegTag(name, category)
  {
    var key := "tag" + [op] + "=" + name;
    TagKeyPrefixes(op, name);
    if withCategory {
      assert TagToken(op, name, category, withCategory) == key + (":" + category);
      StringAssoc(key, ":", category);
      SplitFirstAt(key, category, ':');
    } else {
      assert TagToken(op, name, category, withCategory) == key;
    }
  }

  /** A token without ":" that is not a tag goes whole to the plain list,
      whatever its key: an attribute needs a value. */
  lemma PlainTokens(part: string)
    requires ':' !in part
    requires !("tag==" <= part) && !("tag!=" <= part)
    ensures Classify(part) == Plain(part)
  {
  }

  /** The five lists `smart_search` fills. */
  datatype Buckets = Buckets(
    queries: seq<string>,
    plustags: seq<(string, string)>,
    negtags: seq<(string, string)>,
    plusattrs: seq<(string, string, string)>,
    negattrs: seq<(string, string, string)>)

  const NoBuckets := Buckets([], [], [], [], [])

  /** One criterion appended to its list. */
  function Put(b: Buckets, c: Criterion): Buckets {
    match c
    case Plain(part) => b.(queries := b.queries + [part])
    case PlusTag(t, cat) => b.(plustags := b.plustags + [(t, cat)])
    case NegTag(t, cat) => b.(negtags := b.negtags + [(t, cat)])
    case PlusAttr(a, v, cat) => b.(plusattrs := b.plusattrs + [(a, v, cat)])
    case NegAttr(a, v, cat) => b.(negattrs := b.negattrs + [(a, v, cat)])
  }

  /** The lists after placing the criteria in order. */
  function Bucketed(cs: seq<Criterion>): Buckets {
    if cs == [] then NoBuckets
    else Put(Bucketed(cs[..|cs| - 1]), cs[|cs| - 1])
  }

  /** Each token's criterion, in input order. */
  function Classified(parts: seq<string>): (r: seq<Criterion>)
    ensures |r| == |parts| && forall i :: 0 <= i < |parts| ==> r[i] == Classify(parts[i])
  {
    seq(|parts|, i requires 0 <= i < |parts| => Classify(parts[i]))
  }

  function Total(b: Buckets): nat {
    |b.queries| + |b.plustags| + |b.negtags| + |b.plusattrs| + |b.negattrs|
  }

  /** The lists of two runs, list by list, one after the other. */
  function Concat(a: Buckets, b: Buckets): Buckets {
    Buckets(a.queries + b.queries, a.plustags + b.plustags, a.negtags + b.negtags,
            a.plusattrs + b.plusattrs, a.negattrs + b.negattrs)
  }

  /** Each token lands in exactly one list. */
  lemma {:induction false} EveryTokenOnce(cs: seq<Criterion>)
    ensures Total(Bucketed(cs)) == |cs|
  {
    if cs != [] {
      EveryTokenOnce(cs[..|cs| - 1]);
    }
  }

  /** The lists keep input order: placing `c1 + c2` gives the lists of `c1`
      followed, list by list, by those of `c2`. */
  lemma {:induction false} BucketedKeepsOrder(c1: seq<Criterion>, c2: seq<Criterion>)
    ensures Bucketed(c1 + c2) == Concat(Bucketed(c1), Bucketed(c2))
    decreases |c2|
  {
    if c2 == [] {
      assert c1 + c2 == c1;
      assert Concat(Bucketed(c1), NoBuckets) == Bucketed(c1);
    } else {
      var init := c2[..|c2| - 1];
      BucketedKeepsOrder(c1, init);
      assert (c1 + c2)[..|c1 + c2| - 1] == c1 + init;
      PutConcat(Bucketed(c1), Bucketed(init), c2[|c2| - 1]);
    }
  }

  /** Placing a criterion after two runs places it after the second. */
  lemma PutConcat(a: Buckets, b: Buckets, c: Criterion)
    ensures Put(Concat(a, b), c) == Concat(a, Put(b, c))
  {
  }

  /** Classifying splits over the token list. */
  lemma ClassifiedAppend(p1: seq<string>, p2: seq<string>)
    ensures Classified(p1 + p2) == Classified(p1) + Classified(p2)
  {
  }

  /** One more token puts its criterion into the lists. */
  lemma BucketedStep(parts: seq<string>, i: nat)
    requires i < |parts|
    ensures Bucketed(Classified(parts[..i + 1])) == Put(Bucketed(Classified(parts[..i])), Classify(parts[i]))
  {
    var cs := Classified(parts[..i + 1]);
    assert cs[..|cs| - 1] == Classified(parts[..i]);
    assert cs[|cs| - 1] == Classify(parts[i]);
  }

  /** `smart_search(query)` over the tokens `shlex.split` gives: the loop
      fills the five lists and the plain tokens are joined with single spaces
      into `query`; the method then returns nothing. */
  method SmartSearch(parts: seq<string>) returns (query: string, buckets: Buckets)
    ensures buckets == Bucketed(Classified(parts))
    ensures query == Join(buckets.queries, " ")
  {
    var queries: seq<string> := [];
    var plustags: seq<(string, string)> := [];
    var negtags: seq<(string, string)> := [];
    var plusattrs: seq<(string, string, string)> := [];
    var negattrs: seq<(string, string, string)> := [];
    var i := 0;
    while i < |parts|
      invariant 0 <= i <= |parts|
      invariant Buckets(queries, plustags, negtags, plusattrs, negattrs) == Bucketed(Classified(parts[..i]))
    {
      BucketedStep(parts, i);
      ghost var before := Buckets(queries, plustags, negtags, plusattrs, negattrs);
      var part := parts[i];
      ghost var c := Classify(part);
      var (key, rest) := SplitFirst(part, ':');
      if "tag==" <= key {
        assert c == PlusTag(PyDrop(key, 5), rest);
        plustags := plustags + [(PyDrop(key, 5), rest)];
      } else if "tag!=" <= key {
        assert c == NegTag(PyDrop(key, 5), rest);
        negtags := negtags + [(PyDrop(key, 5), rest)];
      } else if rest != [] && ("attr==" <= key || "attr!=" <= key) {
        var (value, category) := SplitFirst(rest, ':');
        if "attr==" <= key {
          assert c == PlusAttr(PyDrop(key, ATTR_CUT), value, category);
          plusattrs := plusattrs + [(PyDrop(key, ATTR_CUT), value, category)];
        } else {
          assert c == NegAttr(PyDrop(key, ATTR_CUT), value, category);
          negattrs := negattrs + [(PyDrop(key, ATTR_CUT), value, category)];
        }
      } else {
        assert c == Plain(part);
        queries := queries + [part];
      }
      assert Buckets(queries, plustags, negtags, plusattrs, negattrs) == Put(before, c);
      i := i + 1;
    }
    assert parts[..|parts|] == parts;
    buckets := Buckets(queries, plustags, negtags, plusattrs, negattrs);
    query := Join(queries, " ");
  }

  /** A class as the proxy layer names it. */
  datatype ClassRef = ClassRef(modName: string, name: string)

  /** A proxy class's `path`: "<module>.<ClassName>". */
  function Path(c: ClassRef): (p: string)
    ensures |p| == |c.modName| + 1 + |c.name|
  {
    c.modName + "." + c.name
  }

  /** The class name is what follows the last "." of the path, so the
      `typename` is readable from the path. */
  lemma TypenameEndsPath(c: ClassRef)
    requires '.' !in c.name
    ensures Path(c)[|Path(c)| - |c.name|..] == c.name
    ensures Path(c)[|Path(c)| - |c.name| - 1] == '.'
    ensures forall i :: |Path(c)| - |c.name| <= i < |Path(c)| ==> Path(c)[i] != '.'
  {
    var p := Path(c);
    assert forall i :: |p| - |c.name| <= i < |p| ==> p[i] == c.name[i - (|p| - |c.name|)];
  }

  /** The paths a family query accepts: the model's own path, then the path of
      each of its subclasses. */
  function FamilyPaths(model: ClassRef, subclasses: seq<ClassRef>): (r: seq<string>)
    ensures |r| == |subclasses| + 1
  {
    [Path(model)] + seq(|subclasses|, i requires 0 <= i < |subclasses| => Path(subclasses[i]))
  }

  /** An object belongs to the family iff its proxy path is the model's or one
      of its subclasses'. */
  lemma FamilyMembers(model: ClassRef, subclasses: seq<ClassRef>, proxyPath: string)
    ensures proxyPath in FamilyPaths(model, subclasses)
      <==> proxyPath == Path(model) || exists c :: c in subclasses && Path(c) == proxyPath
  {
    var r := FamilyPaths(model, subclasses);
    if proxyPath in r && proxyPath != Path(model) {
      var k :| 0 <= k < |r| && r[k] == proxyPath;
      assert subclasses[k - 1] in subclasses;
    }
    if exists c :: c in subclasses && Path(c) == proxyPath {
      var c :| c in subclasses && Path(c) == proxyPath;
      var k :| 0 <= k < |subclasses| && subclasses[k] == c;
      assert r[k + 1] == proxyPath;
    }
  }

  /** A base class of a proxy class being created: a mixin without database
      metadata, or a model that is either proxy/abstract (with its parent
      models) or concrete. */
  datatype Base = Mixin | Model(name: string, proxyOrAbstract: bool, parents: seq<Base>)

  /** `_get_dbmodel` on one base: a proxy or abstract model with parents is
      looked through to its first parent; otherwise the model is the answer. */
  function Resolve(b: Base): Option<Base> {
    match b
    case Mixin => None
    case Model(_, pa, parents) => if pa && parents != [] then Resolve(parents[0]) else Some(b)
  }

  /** `_get_dbmodel(bases)`: mixins are skipped and the first model decides. */
  function DbModel(bases: seq<Base>): Option<Base> {
    if bases == [] then None
    else if bases[0].Mixin? then DbModel(bases[1..])
    else Resolve(bases[0])
  }

  /** What the lookup finds is a model, and never a proxy or abstract one
      with parents to look through. */
  lemma {:induction false} ResolvedIsDbModel(b: Base)
    ensures Resolve(b).Some? ==> (Resolve(b).value.Model?
      && !(Resolve(b).value.proxyOrAbstract && Resolve(b).value.parents != []))
  {
    match b
    case Mixin =>
    case Model(_, pa, parents) =>
      if pa && parents != [] {
        ResolvedIsDbModel(parents[0]);
      }
  }

  /** Mixins alone give no database model. */
  lemma {:induction false} MixinsOnly(bases: seq<Base>)
    requires forall i :: 0 <= i < |bases| ==> bases[i].Mixin?
    ensures DbModel(bases).None?
  {
    if bases != [] {
      MixinsOnly(bases[1..]);
    }
  }

  /** A concrete model after any number of mixins is the answer. */
  lemma {:induction false} FirstConcreteModel(bases: seq<Base>, k: nat)
    requires k < |bases| && bases[k].Model? && !bases[k].proxyOrAbstract
    requires forall i :: 0 <= i < k ==> bases[i].Mixin?
    ensures DbModel(bases) == Some(bases[k])
  {
    if k > 0 {
      FirstConcreteModel(bases[1..], k - 1);
    }
  }

  /** A proxy class as the metaclass sets it up. */
  datatype ProxyClass = ProxyClass(ref: ClassRef, typename: string, path: string, dbmodel: Base)

  /** Creating proxy class `name` in `module` over `bases`: a TypeError when no
      database model is found among the bases. */
  function NewProxyClass(modName: string, name: string, bases: seq<Base>): (r: Result<ProxyClass, string>)
    ensures r.Failure? <==> DbModel(bases).None?
    ensures r.Failure? ==> r.error == name + " does not appear to inherit from a database model."
    ensures r.Success? ==> (r.value.path == Path(ClassRef(modName, name)) && r.value.typename == name
      && r.value.dbmodel == DbModel(bases).value)
  {
    match DbModel(bases)
    case None => Failure(name + " does not appear to inherit from a database model.")
    case Some(m) => Success(ProxyClass(ClassRef(modName, name), name, modName + "." + name, m))
  }

  /** The class `set_proxy_class` settles on: the requested path if it loads,
      else the family's default class if it loads, else the concrete model,
      else the current class. */
  function ChooseClass(requested: Option<string>, loadable: map<string, ClassRef>, default: Option<ClassRef>,
                       concrete: Option<ClassRef>, current: ClassRef): ClassRef {
    if requested.Some? && requested.value in loadable then loadable[requested.value]
    else if default.Some? then default.value
    else if concrete.Some? then concrete.value
    else current
  }

  /** Every class the loader returns is found again under its own path. */
  predicate SelfNamed(loadable: map<string, ClassRef>) {
    forall p :: p in loadable ==> Path(loadable[p]) in loadable && loadable[Path(loadable[p])] == loadable[p]
  }

  /** Running the chain again on the path it wrote back settles on the same
      class: when the requested path loaded, because the loader finds a class
      under its own path; when it fell back, because a fallback path that does
      not load falls back the same way. */
  lemma ChooseClassIsStable(requested: Option<string>, loadable: map<string, ClassRef>, default: Option<ClassRef>,
                            concrete: Option<ClassRef>, current: ClassRef)
    requires SelfNamed(loadable)
    ensures var c := ChooseClass(requested, loadable, default, concrete, current);
      (requested.Some? && requested.value in loadable) || Path(c) !in loadable
      ==> ChooseClass(Some(Path(c)), loadable, default, concrete, current) == c
  {
  }

  /** The requested path wins whenever it loads; a path that does not load
      falls back to the default class first. */
  lemma ChooseClassOrder(requested: string, loadable: map<string, ClassRef>, default: Option<ClassRef>,
                         concrete: Option<ClassRef>, current: ClassRef)
    ensures requested in loadable ==> ChooseClass(Some(requested), loadable, default, concrete, current) == loadable[requested]
    ensures requested !in loadable && default.Some? ==> ChooseClass(Some(requested), loadable, default, concrete, current) == default.value
    ensures requested !in loadable && default.None? && concrete.Some?
      ==> ChooseClass(Some(requested), loadable, default, concrete, current) == concrete.value
  {
  }

  /** The argument of `is_proxy`: a path string or a class. */
  datatype ProxyArg = PathArg(s: string) | ClassArg(c: ClassRef)

  /** The paths `is_proxy` compares against: a string as given, then prefixed
      by each key of the `PROXY_PATHS` setting (a dict from module prefix to
      a list of paths), in the dict's iteration order (`prefixes`); a class by
      its path only. */
  function Candidates(arg: ProxyArg, prefixes: seq<string>): (r: seq<string>)
    ensures arg.ClassArg? ==> r == [Path(arg.c)]
    ensures arg.PathArg? ==> (|r| == |prefixes| + 1 && r[0] == arg.s
      && forall i :: 0 <= i < |prefixes| ==> r[i + 1] == prefixes[i] + "." + arg.s)
  {
    match arg
    case PathArg(s) => [s] + seq(|prefixes|, i requires 0 <= i < |prefixes| => prefixes[i] + "." + s)
    case ClassArg(c) => [Path(c)]
  }

  /** `is_proxy(proxy, exact)` for an object whose class has path `selfPath`
      and whose method resolution order lists, for each class, its path when it
      has one. */
  function IsProxy(selfPath: string, mro: seq<Option<string>>, arg: ProxyArg, prefixes: seq<string>, exact: bool): bool {
    var candidates := Candidates(arg, prefixes);
    if exact then selfPath in candidates
    else exists i :: 0 <= i < |mro| && mro[i].Some? && mro[i].value in candidates
  }

  /** The object's own class heads its resolution order, so an exact match is
      also an inherited one; and a class argument matches exactly iff it is the
      object's own class. */
  lemma ExactIsInherited(selfPath: string, mro: seq<Option<string>>, arg: ProxyArg, prefixes: seq<string>)
    requires mro != [] && mro[0] == Some(selfPath)
    ensures IsProxy(selfPath, mro, arg, prefixes, true) ==> IsProxy(selfPath, mro, arg, prefixes, false)
    ensures arg.ClassArg? ==> (IsProxy(selfPath, mro, arg, prefixes, true) <==> selfPath == Path(arg.c))
  {
  }

  /** A short name given as a string matches a class whose path is that name
      under one of the configured prefixes, exactly and through inheritance. */
  lemma ShortNameMatches(modName: string, name: string, mro: seq<Option<string>>, prefixes: seq<string>, k: nat)
    requires k < |prefixes| && prefixes[k] == modName
    requires mro != [] && mro[0] == Some(Path(ClassRef(modName, name)))
    ensures IsProxy(Path(ClassRef(modName, name)), mro, PathArg(name), prefixes, true)
    ensures IsProxy(Path(ClassRef(modName, name)), mro, PathArg(name), prefixes, false)
  {
    var r := Candidates(PathArg(name), prefixes);
    assert r[k + 1] == Path(ClassRef(modName, name));
  }

  /** An object of the proxy layer, with what `set_proxy_class` and `delete`
      change. */
  class ProxyObject {
    var cls: ClassRef
    var proxyPath: Option<string>
    var saves: seq<string>
    var deleted: bool
    const default: Option<ClassRef>
    const concrete: Option<ClassRef>

    /** `__init__`: the row is loaded with its class `cls` and stored path
        `proxyPath`, then `set_proxy_class` runs on that stored path, so the
        class goes through the fallback chain and "proxy_path" is saved once. */
    constructor (cls: ClassRef, proxyPath: Option<string>, default: Option<ClassRef>, concrete: Option<ClassRef>,
                 loadable: map<string, ClassRef>)
      ensures this.cls == ChooseClass(proxyPath, loadable, default, concrete, cls)
      ensures this.proxyPath == Some(Path(this.cls))
      ensures saves == ["proxy_path"] && !deleted
      ensures this.default == default && this.concrete == concrete
    {
      this.cls := cls;
      this.proxyPath := proxyPath;
      saves := [];
      deleted := false;
      this.default := default;
      this.concrete := concrete;
      new;
      SetProxyClass(None, loadable);
    }

    /** `set_proxy_class(proxy_path)`, with `loadable` what the class loader
        finds for each path (the family's default paths folded in): the chosen
        class is installed, its path written back, and that one field
        saved. */
    method SetProxyClass(requested: Option<string>, loadable: map<string, ClassRef>)
      modifies this
      ensures cls == ChooseClass(if requested.Some? then requested else old(proxyPath), loadable, default, concrete, old(cls))
      ensures proxyPath == Some(Path(cls))
      ensures saves == old(saves) + ["proxy_path"]
      ensures deleted == old(deleted)
    {
      var path := if requested.Some? then requested else proxyPath;
      if path.Some? && path.value in loadable {
        cls := loadable[path.value];
      } else if default.Some? {
        cls := default.value;
      } else if concrete.Some? {
        cls := concrete.value;
      }
      proxyPath := Some(cls.modName + "." + cls.name);
      saves := saves + ["proxy_path"];
    }

    /** `delete()`: the first call deletes the row and replaces `delete` by
        the method that raises; every later call raises ObjectDoesNotExist. */
    method Delete() returns (r: Result<(), string>)
      modifies this
      ensures old(deleted) ==> r == Failure("This object was already deleted!") && deleted
      ensures !old(deleted) ==> r.Success? && deleted
      ensures cls == old(cls) && proxyPath == old(proxyPath) && saves == old(saves)
    {
      if deleted {
        return Failure("This object was already deleted!");
      }
      deleted := true;
      return Success(());
    }
  }

  /** Deleting twice: the second call raises. */
  method DeleteTwice(o: ProxyObject) returns (first: Result<(), string>, second: Result<(), string>)
    requires !o.deleted
    modifies o
    ensures first.Success? && second.Failure?
  {
    first := o.Delete();
    second := o.Delete();
  }
}
