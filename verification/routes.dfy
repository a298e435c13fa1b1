/** The route-table half of `getPages`: the `reduce` that flattens the routes module into
    an ordered list of request paths, the removal of the `NotFound` group, and the mapping
    from a request path to the file it is written to. */
module Routes {
  import opened Results

  /** An entry's `route` field: one path segment, or a list of aliases of which only the first is used. */
  datatype RouteSpec = Segment(segment: string) | Aliases(aliases: seq<string>)

  /** A router entry; fields other than `route` play no part in generation. */
  datatype RouteEntry = RouteEntry(route: RouteSpec)

  /** One value of the routes module: a plain list of entries, or an object `{ prefix, config }`. */
  datatype RouteGroup =
    | Plain(entries: seq<RouteEntry>)
    | Prefixed(prefix: string, config: seq<RouteEntry>)

  /** The routes module as `Object.keys` enumerates it: group names paired with their groups. */
  type RouteTable = seq<(string, RouteGroup)>

  /** A page to generate: its request path and the entry it came from. */
  datatype Page = Page(path: string, entry: RouteEntry)

  /** Calling `.map` on a group object whose `prefix` is falsy throws a TypeError. */
  datatype RouteError = NotAList(group: string)

  /** The group the generator deletes from the table before generating. */
  const NotFoundKey: string := "NotFound"

  /** What a template literal renders for `undefined`. */
  const UndefinedText: string := "undefined"

  /** The output directory every file is written under. */
  const DistDir: string := "./dist"

  /** The render server's base URL; a page is requested at this text followed by its path. */
  const ApiBase: string := "http://localhost:8084"

  /** The file name the root path is written to instead of `/.html`. */
  const RootFile: string := "/main.html"

  /** The text the path template renders for an entry's route: a string route as it is,
      otherwise the alias list's element 0, which reads `undefined` when the list is empty. */
  function FirstAlias(spec: RouteSpec): (r: string)
    ensures spec.Segment? ==> r == spec.segment
    ensures spec.Aliases? && spec.aliases != [] ==> r == spec.aliases[0]
    ensures spec.Aliases? && spec.aliases == [] ==> r == UndefinedText
  {
    match spec
    case Segment(s) => s
    case Aliases(a) => if |a| > 0 then a[0] else UndefinedText
  }

  /** Only a group object with a non-empty (truthy) `prefix` takes the `config` branch;
      any other object falls to the plain branch, where `.map` is not a function. */
  predicate WellFormed(g: RouteGroup) {
    g.Plain? || g.prefix != []
  }

  /** The entries a well-formed group contributes. */
  function Entries(g: RouteGroup): seq<RouteEntry> {
    match g
    case Plain(es) => es
    case Prefixed(_, cfg) => cfg
  }

  /** The text rendered before the `/`. For an object group the source assigns `router.prefix`
      while `router` still holds the group's name, a string, so it reads `undefined`. */
  function PrefixText(g: RouteGroup): string {
    if g.Plain? then "" else UndefinedText
  }

  /** The request path of one entry of group `g`: a plain group's entries sit under the root,
      an object group's under the literal text `undefined`, whatever its `prefix` holds. */
  function EntryPath(g: RouteGroup, e: RouteEntry): (r: string)
    ensures g.Plain? ==> r == "/" + FirstAlias(e.route)
    ensures g.Prefixed? ==> r == UndefinedText + "/" + FirstAlias(e.route)
  {
    PrefixText(g) + "/" + FirstAlias(e.route)
  }

  /** The pages one group contributes to the accumulator, in list order. */
  function GroupPages(g: RouteGroup): seq<Page> {
    var es := Entries(g);
    seq(|es|, i requires 0 <= i < |es| => Page(EntryPath(g, es[i]), es[i]))
  }

  /** How many entries the groups of `t` hold, counted group by group from the front. */
  function EntryCount(t: RouteTable): nat {
    if t == [] then 0 else |Entries(t[0].1)| + EntryCount(t[1..])
  }

  /** The `reduce` of `getPages` over the groups of `t`, left to right: each group's pages
      are appended to the accumulator; the first malformed group throws. */
  function Flatten(t: RouteTable): (r: Result<seq<Page>, RouteError>)
    ensures r.Ok? <==> forall i :: 0 <= i < |t| ==> WellFormed(t[i].1)
    ensures r.Err? ==> exists i :: 0 <= i < |t| && !WellFormed(t[i].1) && r.error == NotAList(t[i].0)
                                   && forall j :: 0 <= j < i ==> WellFormed(t[j].1)
  {
    if t == [] then Ok([])
    else
      var init := t[..|t| - 1];
      var (key, g) := t[|t| - 1];
      var acc := Flatten(init);
      if acc.Err? then acc
      else if !WellFormed(g) then Err(NotAList(key))
      else Ok(acc.value + GroupPages(g))
  }

  lemma {:induction false} EntryCountSnoc(t: RouteTable)
    requires t != []
    ensures EntryCount(t) == EntryCount(t[..|t| - 1]) + |Entries(t[|t| - 1].1)|
  {
    if |t| > 1 {
      EntryCountSnoc(t[1..]);
      assert t[1..][..|t[1..]| - 1] == t[..|t| - 1][1..];
    }
  }

  /** Flattening yields exactly one page per entry of every group: no entry is dropped and
      none is merged with another, even when two entries share a path. */
  lemma {:induction false} FlattenCount(t: RouteTable)
    requires Flatten(t).Ok?
    ensures |Flatten(t).value| == EntryCount(t)
  {
    if t != [] {
      var init := t[..|t| - 1];
      FlattenCount(init);
      EntryCountSnoc(t);
    }
  }

  /** Entry `j` of group `i` is the page at position `EntryCount(t[..i]) + j`: groups appear in
      key order, entries in list order, and each page's path is the prefix text, a `/`, and the
      entry's first alias. */
  lemma {:induction false} FlattenAt(t: RouteTable, i: nat, j: nat)
    requires Flatten(t).Ok?
    requires i < |t| && j < |Entries(t[i].1)|
    ensures EntryCount(t[..i]) + j < |Flatten(t).value|
    ensures var e := Entries(t[i].1)[j];
            Flatten(t).value[EntryCount(t[..i]) + j] == Page(EntryPath(t[i].1, e), e)
  {
    var init := t[..|t| - 1];
    FlattenCount(init);
    FlattenCount(t);
    if i < |t| - 1 {
      FlattenAt(init, i, j);
      assert init[..i] == t[..i];
    } else {
      assert t[..i] == init;
    }
  }

  /** A group object's pages never mention its `prefix`: two object groups that differ only in
      their (truthy) prefixes produce the same pages, every path starting with `undefined/`. */
  lemma PrefixIsIgnored(p1: string, p2: string, cfg: seq<RouteEntry>, k: nat)
    requires p1 != [] && p2 != []
    requires k < |cfg|
    ensures GroupPages(Prefixed(p1, cfg)) == GroupPages(Prefixed(p2, cfg))
    ensures GroupPages(Prefixed(p1, cfg))[k].path == UndefinedText + "/" + FirstAlias(cfg[k].route)
  {
  }

  /** In a plain group the path is `/` followed by the alias, so the alias `""` gives `/`. */
  lemma PlainGroupPath(es: seq<RouteEntry>, k: nat)
    requires k < |es|
    ensures GroupPages(Plain(es))[k].path == "/" + FirstAlias(es[k].route)
    ensures FirstAlias(es[k].route) == "" ==> GroupPages(Plain(es))[k].path == "/"
  {
  }

  /** Only the first alias matters: later aliases never change the path, and a one-segment
      entry behaves like an alias list that starts with that segment. */
  lemma LaterAliasesIgnored(first: string, rest1: seq<string>, rest2: seq<string>)
    ensures FirstAlias(Aliases([first] + rest1)) == FirstAlias(Aliases([first] + rest2))
    ensures FirstAlias(Aliases([first] + rest1)) == FirstAlias(Segment(first))
  {
  }

  /** The table after `delete Routes.NotFound`: every group except `NotFound`, in order. */
  function RemoveNotFound(t: RouteTable): (r: RouteTable)
    ensures forall i :: 0 <= i < |r| ==> r[i].0 != NotFoundKey
    ensures |r| <= |t|
    ensures (forall i :: 0 <= i < |t| ==> t[i].0 != NotFoundKey) ==> r == t
  {
    if t == [] then []
    else if t[0].0 == NotFoundKey then RemoveNotFound(t[1..])
    else [t[0]] + RemoveNotFound(t[1..])
  }

  /** Deleting `NotFound` keeps every other group, and adds none. */
  lemma {:induction false} RemoveNotFoundKeepsOthers(t: RouteTable, key: string, g: RouteGroup)
    ensures (key, g) in RemoveNotFound(t) <==> (key, g) in t && key != NotFoundKey
  {
    if t != [] {
      RemoveNotFoundKeepsOthers(t[1..], key, g);
      assert t == [t[0]] + t[1..];
    }
  }

  lemma {:induction false} RemoveNotFoundAppend(a: RouteTable, b: RouteTable)
    ensures RemoveNotFound(a + b) == RemoveNotFound(a) + RemoveNotFound(b)
  {
    if a == [] {
      assert a + b == b;
    } else {
      var ab := a + b;
      assert ab[0] == a[0];
      assert ab[1..] == a[1..] + b;
      RemoveNotFoundAppend(a[1..], b);
      if a[0].0 == NotFoundKey {
        assert RemoveNotFound(ab) == RemoveNotFound(a[1..] + b);
      } else {
        assert RemoveNotFound(ab) == [a[0]] + RemoveNotFound(a[1..] + b);
        assert RemoveNotFound(a) == [a[0]] + RemoveNotFound(a[1..]);
      }
    }
  }

  /** Every group of `t` is well formed. */
  predicate AllWellFormed(t: RouteTable) {
    forall i :: 0 <= i < |t| ==> WellFormed(t[i].1)
  }

  /** Every group of `t` other than `NotFound` is well formed. */
  predicate OthersWellFormed(t: RouteTable) {
    forall i :: 0 <= i < |t| && t[i].0 != NotFoundKey ==> WellFormed(t[i].1)
  }

  lemma WellFormedCons(t: RouteTable)
    requires t != []
    ensures AllWellFormed(t) <==> WellFormed(t[0].1) && AllWellFormed(t[1..])
  {
    if WellFormed(t[0].1) && AllWellFormed(t[1..]) {
      forall i | 0 <= i < |t|
        ensures WellFormed(t[i].1)
      {
        if i > 0 {
          assert t[i] == t[1..][i - 1];
        }
      }
    }
  }

  lemma OthersWellFormedCons(t: RouteTable)
    requires t != []
    ensures OthersWellFormed(t) <==> (t[0].0 != NotFoundKey ==> WellFormed(t[0].1)) && OthersWellFormed(t[1..])
  {
    if (t[0].0 != NotFoundKey ==> WellFormed(t[0].1)) && OthersWellFormed(t[1..]) {
      forall i | 0 <= i < |t| && t[i].0 != NotFoundKey
        ensures WellFormed(t[i].1)
      {
        if i > 0 {
          assert t[i] == t[1..][i - 1];
        }
      }
    }
  }

  /** After the deletion, the table is well formed exactly when every group other than
      `NotFound` is. */
  lemma {:induction false} RemoveNotFoundWellFormed(t: RouteTable)
    ensures AllWellFormed(RemoveNotFound(t)) <==> OthersWellFormed(t)
  {
    if t != [] {
      var rest := RemoveNotFound(t[1..]);
      RemoveNotFoundWellFormed(t[1..]);
      OthersWellFormedCons(t);
      if t[0].0 == NotFoundKey {
        assert RemoveNotFound(t) == rest;
      } else {
        var r := RemoveNotFound(t);
        assert r == [t[0]] + rest;
        assert r[0] == t[0] && r[1..] == rest;
        WellFormedCons(r);
      }
    }
  }

  /** The pages generated from the routes module once `NotFound` has been deleted: generation
      fails exactly when some other group is malformed, and otherwise yields one page per entry
      of the remaining groups. */
  function Generate(t: RouteTable): (r: Result<seq<Page>, RouteError>)
    ensures r.Ok? <==> forall i :: 0 <= i < |t| && t[i].0 != NotFoundKey ==> WellFormed(t[i].1)
    ensures r.Ok? ==> |r.value| == EntryCount(RemoveNotFound(t))
  {
    RemoveNotFoundWellFormed(t);
    var r := Flatten(RemoveNotFound(t));
    if r.Ok? then FlattenCount(RemoveNotFound(t)); r else r
  }

  /** The `NotFound` group contributes nothing, wherever it stands and whatever it holds:
      even a malformed `NotFound` group does not make generation fail. */
  lemma NotFoundContributesNothing(a: RouteTable, g: RouteGroup, b: RouteTable)
    ensures Generate(a + [(NotFoundKey, g)] + b) == Generate(a + b)
  {
    var nf: RouteTable := [(NotFoundKey, g)];
    assert RemoveNotFound(nf) == RemoveNotFound([]);
    RemoveNotFoundAppend(a + nf, b);
    RemoveNotFoundAppend(a, nf);
    RemoveNotFoundAppend(a, b);
    assert RemoveNotFound(a) + [] == RemoveNotFound(a);
    assert RemoveNotFound(a + nf + b) == RemoveNotFound(a + b);
  }

  /** The `.map` step's renaming of a request path into an output file name. */
  function OutputPath(path: string): (r: string)
    ensures path == "/" ==> r == RootFile
  {
    if path == "/" then RootFile else path + ".html"
  }

  /** Every output name ends in `.html`, and off the root what comes before it is the path. */
  lemma OutputPathShape(path: string)
    ensures |OutputPath(path)| >= 5 && OutputPath(path)[|OutputPath(path)| - 5..] == ".html"
    ensures path != "/" ==> OutputPath(path)[..|OutputPath(path)| - 5] == path
  {
    if path == "/" {
      assert RootFile == "/main" + ".html";
    }
  }

  /** The file a page is written to: the root path goes to `./dist/main.html`, any other path
      to `./dist` followed by the path and `.html`. */
  function DistFile(path: string): (r: string)
    ensures path == "/" ==> r == "./dist/main.html"
    ensures path != "/" ==> r == DistDir + path + ".html"
  {
    assert DistDir + RootFile == "./dist/main.html";
    assert path != "/" ==> DistDir + (path + ".html") == DistDir + path + ".html";
    DistDir + OutputPath(path)
  }

  lemma OutputPathInjectiveOffRoot(p: string, q: string)
    requires p != "/" && q != "/" && OutputPath(p) == OutputPath(q)
    ensures p == q
  {
    var o := OutputPath(p);
    OutputPathShape(p);
    OutputPathShape(q);
    assert p == o[..|o| - 5];
    assert q == o[..|o| - 5];
  }

  lemma RootNameOnlyFromMain(q: string)
    requires q != "/"
    ensures OutputPath(q) == RootFile <==> q == "/main"
  {
    assert "/main" + ".html" == RootFile;
    OutputPathShape(q);
    if OutputPath(q) == RootFile {
      assert q == RootFile[..|RootFile| - 5];
      assert RootFile[..|RootFile| - 5] == "/main";
    }
  }

  /** Output names are not unique: two different request paths get the same output name
      exactly when they are `/` and `/main`. */
  lemma OutputPathCollisions(p: string, q: string)
    ensures OutputPath(p) == OutputPath(q) <==> p == q || {p, q} == {"/", "/main"}
  {
    if p != "/" && q != "/" {
      if OutputPath(p) == OutputPath(q) {
        OutputPathInjectiveOffRoot(p, q);
      }
      assert "/" !in {p, q};
    } else if p == "/" && q != "/" {
      RootNameOnlyFromMain(q);
      assert {p, q} == {"/", "/main"} <==> q == "/main";
    } else if q == "/" && p != "/" {
      RootNameOnlyFromMain(p);
      assert {p, q} == {"/", "/main"} <==> p == "/main";
    }
  }

  /** Prepending the output directory adds no collisions and removes none: two paths are
      written to the same file name exactly when their output names agree. */
  lemma DistFileCollisions(p: string, q: string)
    ensures DistFile(p) == DistFile(q) <==> p == q || {p, q} == {"/", "/main"}
  {
    var a, b := OutputPath(p), OutputPath(q);
    assert DistFile(p) == DistDir + a && DistFile(q) == DistDir + b;
    if DistDir + a == DistDir + b {
      assert a == (DistDir + a)[|DistDir|..];
      assert b == (DistDir + b)[|DistDir|..];
    }
    OutputPathCollisions(p, q);
  }

  /** The root alias `""` and the alias `"main"` of a plain group both land in `./dist/main.html`. */
  lemma RootAndMainCollide()
    ensures DistFile(EntryPath(Plain([]), RouteEntry(Segment("")))) == "./dist/main.html"
    ensures DistFile(EntryPath(Plain([]), RouteEntry(Segment("main")))) == "./dist/main.html"
  {
    assert EntryPath(Plain([]), RouteEntry(Segment(""))) == "/";
    assert EntryPath(Plain([]), RouteEntry(Segment("main"))) == "/main";
    assert "./dist" + "/main" + ".html" == "./dist/main.html";
  }

  /** An object group's pages are requested from, and written to, places the generator did not
      intend: the `undefined` text lands right after the server's base URL and right after
      `./dist`, so the write targets `./distundefined/<alias>.html`, outside the output
      directory. */
  lemma PrefixedPagesLeaveDist(p: string, cfg: seq<RouteEntry>, a: string)
    requires p != []
    ensures ApiBase + EntryPath(Prefixed(p, cfg), RouteEntry(Segment(a))) == "http://localhost:8084undefined/" + a
    ensures DistFile(EntryPath(Prefixed(p, cfg), RouteEntry(Segment(a)))) == "./distundefined/" + a + ".html"
  {
    var path := EntryPath(Prefixed(p, cfg), RouteEntry(Segment(a)));
    assert path == "undefined/" + a;
    assert path != "/";
    assert ApiBase + ("undefined/" + a) == "http://localhost:8084undefined/" + a;
    assert DistDir + ("undefined/" + a) + ".html" == "./distundefined/" + a + ".html";
  }
}
