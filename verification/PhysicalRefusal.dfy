/**
 That the alias check refuses nothing without need: whatever it refuses could come to lie one in the
 other, and where no link or mount is involved it refuses exactly what overlaps as text.
 */
module PhysicalRefusals {
  import opened Common
  import opened Paths
  import opened Physical
  import opened PhysicalProfiles
  import R = RuntimeContexts

  // ---- Making what is missing -------------------------------------------------------------

  // The object a chain of new ones has reached after `n` steps.
  function Reached(at: Id, first: Id, n: nat): Id {
    if n == 0 then at else first + n - 1
  }

  // The file system after every name of a missing rest was made, one in the other.
  ghost function Made(g: Graph, at: Id, names: seq<string>, first: Id): Graph {
    if names == [] then g
    else
      var n: nat := |names| - 1;
      Made(g, at, names[..n], first)[(Reached(at, first, n), names[n]) := Reached(at, first, n + 1)]
  }

  // What the chain has added, and under which objects.
  ghost predicate Chain(g: Graph, g': Graph, first: Id, n: nat) {
    && (forall k: (Id, string) :: k in g ==> k in g' && g'[k] == g[k])
    && (forall k: (Id, string) :: k in g' && k !in g ==> first <= g'[k] < first + n)
    && (forall k: (Id, string) :: k in g' ==> k.0 < first || k.0 + 1 < first + n)
    && (forall j: (Id, string), k: (Id, string) :: j in g' && k in g' && g'[j] == g'[k] && g'[j] >= first ==> j == k)
  }

  lemma ChainStep(g: Graph, g': Graph, first: Id, n: nat, key: (Id, string))
    requires Chain(g, g', first, n) && key !in g' && (forall k: (Id, string) :: k in g ==> g[k] < first)
    requires key.0 < first || key.0 < first + n
    ensures Chain(g, g'[key := first + n], first, n + 1)
  {
    var h := g'[key := first + n];
    forall j: (Id, string), k: (Id, string) | j in h && k in h && h[j] == h[k] && h[j] >= first ensures j == k {
      if j != key && k != key { assert g'[j] == g'[k]; }
    }
  }

  lemma NextIsNew(g: Graph, g': Graph, first: Id, n: nat, at: Id, name: string)
    requires Later(g, g, first) && Chain(g, g', first, n) && at < first && (n == 0 ==> (at, name) !in g)
    ensures (Reached(at, first, n), name) !in g'
  {
  }

  lemma {:induction false} MadeChain(g: Graph, at: Id, names: seq<string>, first: Id)
    requires Later(g, g, first) && at < first && MissingBelow(g, at, names)
    ensures Chain(g, Made(g, at, names, first), first, |names|)
  {
    if names != [] {
      var n: nat := |names| - 1;
      assert n > 0 ==> names[..n][0] == names[0];
      MadeChain(g, at, names[..n], first);
      NextIsNew(g, Made(g, at, names[..n], first), first, n, at, names[n]);
      ChainStep(g, Made(g, at, names[..n], first), first, n, (Reached(at, first, n), names[n]));
    }
  }

  lemma MadeLater(g: Graph, at: Id, names: seq<string>, first: Id)
    requires Later(g, g, first) && at < first && MissingBelow(g, at, names)
    ensures Later(g, Made(g, at, names, first), first)
  {
    MadeChain(g, at, names, first);
  }

  lemma {:induction false} WalkMore(g: Graph, g': Graph, from: Id, names: seq<string>)
    requires (forall k: (Id, string) :: k in g ==> k in g' && g'[k] == g[k]) && Walk(g, from, names).Some?
    ensures Walk(g', from, names) == Walk(g, from, names)
  {
    if names != [] { WalkMore(g, g', from, names[..|names| - 1]); }
  }

  lemma {:induction false} MadeWalks(g: Graph, at: Id, names: seq<string>, first: Id)
    requires Later(g, g, first) && at < first && MissingBelow(g, at, names)
    ensures Walk(Made(g, at, names, first), at, names) == Some(Reached(at, first, |names|))
  {
    if names != [] {
      var n: nat := |names| - 1;
      assert n > 0 ==> names[..n][0] == names[0];
      MadeWalks(g, at, names[..n], first);
      MadeChain(g, at, names[..n], first);
      WalkMore(Made(g, at, names[..n], first), Made(g, at, names, first), at, names[..n]);
    }
  }

  // ---- Nesting ----------------------------------------------------------------------------

  // Some names lead from the one object to the other.
  ghost predicate LeadsTo(g: Graph, a: Id, b: Id) {
    exists names :: Walk(g, a, names) == Some(b)
  }

  /** Both paths exist, and one's object is the other's or lies in it. */
  ghost predicate Nested(g: Graph, root: Id, p: Path, q: Path)
    requires Plain(p) && Plain(q)
  {
    var a, b := Walk(g, root, Names(p)), Walk(g, root, Names(q));
    a.Some? && b.Some? && (LeadsTo(g, a.value, b.value) || LeadsTo(g, b.value, a.value))
  }

  /** What the platform calls the canonical path of an object is a path to that object. */
  ghost predicate Canonical(probe: Probe, g: Graph, root: Id) {
    forall p :: Plain(p) && probe(p).Found? ==>
      Plain(probe(p).canonical) && Walk(g, root, Names(probe(p).canonical)) == Some(probe(p).identity)
  }

  // A located path: its nearest existing ancestor's canonical path, and the missing rest.
  ghost predicate At(g: Graph, root: Id, l: Location, home: Path, rest: seq<string>) {
    && Plain(home) && Walk(g, root, Names(home)) == Some(l.identity)
    && MissingBelow(g, l.identity, rest)
    && |l.missingSuffix| == |rest| && (forall i :: 0 <= i < |rest| ==> l.missingSuffix[i] == Normal(rest[i]))
    && l.resolvedPath == home + l.missingSuffix
  }

  // In every later state the path leads where the rest leads from the object.
  ghost predicate Stands(g: Graph, root: Id, first: Id, p: Path, at: Id, rest: seq<string>)
    requires Plain(p)
  {
    forall g': Graph :: Later(g, g', first) ==> Walk(g', root, Names(p)) == Walk(g', at, rest)
  }

  lemma StandsIn(g: Graph, root: Id, first: Id, p: Path, at: Id, rest: seq<string>, g': Graph)
    requires Plain(p) && Stands(g, root, first, p, at, rest) && Later(g, g', first)
    ensures Walk(g', root, Names(p)) == Walk(g', at, rest)
  {
  }

  lemma LocatedAt1(probe: Probe, g: Graph, root: Id, first: Id, p: Path) returns (home: Path, rest: seq<string>)
    requires Reflects(probe, g, root) && Canonical(probe, g, root) && Later(g, g, first) && root < first && Plain(p)
    ensures Located(probe, p).Some? && At(g, root, Located(probe, p).value, home, rest)
    ensures Located(probe, p).value.identity < first
    ensures Stands(g, root, first, p, Located(probe, p).value.identity, rest)
  {
    PlainLocated(probe, g, root, p);
    var l := Located(probe, p).value;
    var k := LocatedSplits(probe, p);
    rest := LeadsFromAncestor(probe, g, root, g, first, p);
    forall g': Graph | Later(g, g', first) ensures Walk(g', root, Names(p)) == Walk(g', l.identity, rest) {
      var again := LeadsFromAncestor(probe, g, root, g', first, p);
      assert again == rest;
    }
    home := probe(p[..k]).canonical;
    FoundPlain(probe, g, root, p, k);
  }

  lemma FoundPlain(probe: Probe, g: Graph, root: Id, p: Path, k: nat)
    requires Reflects(probe, g, root) && Plain(p) && k <= |p| && probe(p[..k]).Found?
    requires forall j :: k < j <= |p| ==> probe(p[..j]).Missing?
    ensures k >= 1 && Plain(p[..k])
  {
    assert p[..1] == [RootDir] && Names([RootDir]) == [];
    assert probe(p[..1]).Found?;
  }

  // Nothing that is missing below an object is on the way to anything that exists.
  lemma NoWayThrough(g: Graph, root: Id, home: Path, rest: seq<string>, further: Path)
    requires Plain(home) && Walk(g, root, Names(home)).Some? && MissingBelow(g, Walk(g, root, Names(home)).value, rest)
    requires Plain(further) && Walk(g, root, Names(further)).Some? && |home| < |further| && home <= further && rest != []
    ensures further[|home|] != Normal(rest[0])
  {
    var n := |home|;
    assert home == further[..n];
    WalkPrefix(g, root, Names(further), n);
    assert Names(further)[..n][..n - 1] == Names(home);
    assert Names(further)[..n][n - 1] == further[n].name;
  }

  lemma {:induction false} WalkPrefix(g: Graph, root: Id, names: seq<string>, n: nat)
    requires n <= |names| && Walk(g, root, names).Some?
    ensures Walk(g, root, names[..n]).Some?
  {
    if n < |names| {
      WalkPrefix(g, root, names[..|names| - 1], n);
      assert names[..|names| - 1][..n] == names[..n];
    } else {
      assert names[..n] == names;
    }
  }

  // ---- Whatever is refused could nest -----------------------------------------------------

  // Below one object the one rest continues the other.
  lemma RestsNest(g: Graph, root: Id, first: Id, p: Path, q: Path, at: Id, s: seq<string>, t: seq<string>) returns (g': Graph)
    requires Later(g, g, first) && at < first && MissingBelow(g, at, t) && s <= t && Plain(p) && Plain(q)
    requires Stands(g, root, first, p, at, s) && Stands(g, root, first, q, at, t)
    ensures Later(g, g', first) && Nested(g', root, p, q)
  {
    g' := Made(g, at, t, first);
    MadeLater(g, at, t, first);
    MadeWalks(g, at, t, first);
    StandsIn(g, root, first, p, at, s, g');
    StandsIn(g, root, first, q, at, t, g');
    ContinuesInto(g', at, s, t);
  }

  lemma ContinuesInto(g: Graph, at: Id, s: seq<string>, t: seq<string>)
    requires s <= t && Walk(g, at, t).Some?
    ensures Walk(g, at, s).Some? && LeadsTo(g, Walk(g, at, s).value, Walk(g, at, t).value)
  {
    WalkPrefix(g, at, t, |s|);
    assert t[..|s|] == s && t == s + t[|s|..];
    WalkConcat(g, at, s, t[|s|..]);
  }

  // The one exists, and the other's nearest existing ancestor lies in it.
  lemma HomesNest(g: Graph, root: Id, first: Id, p: Path, q: Path, a: Id, home: Path, b: Id, home': Path, t: seq<string>) returns (g': Graph)
    requires Later(g, g, first) && root < first && Plain(p) && Plain(q) && Plain(home) && Plain(home') && home <= home'
    requires Walk(g, root, Names(home)) == Some(a) && Walk(g, root, Names(home')) == Some(b) && b < first
    requires MissingBelow(g, b, t) && Stands(g, root, first, p, a, []) && Stands(g, root, first, q, b, t)
    ensures Later(g, g', first) && Nested(g', root, p, q)
  {
    g' := Made(g, b, t, first);
    MadeLater(g, b, t, first);
    MadeWalks(g, b, t, first);
    StandsIn(g, root, first, p, a, [], g');
    StandsIn(g, root, first, q, b, t, g');
    FromHome(g, g', root, first, a, home, b, home', t);
  }

  lemma FromHome(g: Graph, g': Graph, root: Id, first: Id, a: Id, home: Path, b: Id, home': Path, t: seq<string>)
    requires Later(g, g', first) && root < first && Plain(home) && Plain(home') && home <= home' && Walk(g', b, t).Some?
    requires Walk(g, root, Names(home)) == Some(a) && Walk(g, root, Names(home')) == Some(b)
    ensures LeadsTo(g', a, Walk(g', b, t).value)
  {
    var names, n := Names(home'), |home| - 1;
    assert names[..n] == Names(home);
    WalkLater(g, g', first, root, names);
    WalkLater(g, g', first, root, names[..n]);
    PassesBy(g', root, a, b, names, n, t);
  }

  lemma PassesBy(g: Graph, root: Id, a: Id, b: Id, names: seq<string>, n: nat, t: seq<string>)
    requires n <= |names| && Walk(g, root, names[..n]) == Some(a) && Walk(g, root, names) == Some(b) && Walk(g, b, t).Some?
    ensures LeadsTo(g, a, Walk(g, b, t).value)
  {
    assert names == names[..n] + names[n..];
    WalkConcat(g, root, names[..n], names[n..]);
    WalkConcat(g, a, names[n..], t);
  }

  // If the resolved path of the one begins with that of the other.
  lemma ResolvedNest(g: Graph, root: Id, first: Id, p: Path, q: Path, a: Location, home: Path, s: seq<string>,
                     b: Location, home': Path, t: seq<string>) returns (g': Graph)
    requires Later(g, g, first) && root < first && Plain(p) && Plain(q)
    requires At(g, root, a, home, s) && At(g, root, b, home', t) && a.identity < first && b.identity < first
    requires Stands(g, root, first, p, a.identity, s) && Stands(g, root, first, q, b.identity, t)
    requires a.resolvedPath <= b.resolvedPath
    ensures Later(g, g', first) && Nested(g', root, p, q)
  {
    HomesOrdered(g, root, a, home, s, b, home', t);
    if |home| == |home'| {
      g' := RestsNest(g, root, first, p, q, a.identity, s, t);
    } else {
      g' := HomesNest(g, root, first, p, q, a.identity, home, b.identity, home', t);
    }
  }

  // Either the ancestors are one and the rests continue each other, or the one path exists and the
  // other's ancestor lies in it.
  lemma HomesOrdered(g: Graph, root: Id, a: Location, home: Path, s: seq<string>, b: Location, home': Path, t: seq<string>)
    requires At(g, root, a, home, s) && At(g, root, b, home', t) && a.resolvedPath <= b.resolvedPath
    ensures home <= home'
    ensures if |home| == |home'| then a.identity == b.identity && s <= t else s == []
  {
    var pa, qb := a.resolvedPath, b.resolvedPath;
    assert home == pa[..|home|] && home' == qb[..|home'|];
    if |home| == |home'| {
      assert home == home';
      SameRest(home, a.missingSuffix, s, b.missingSuffix, t);
    } else if |home| < |home'| {
      if s != [] {
        assert pa[|home|] == Normal(s[0]) == home'[|home|];
        NoWayThrough(g, root, home, s, home');
      }
    } else {
      assert qb[|home'|] == Normal(t[0]) == home[|home'|];
      NoWayThrough(g, root, home', t, home);
    }
  }

  lemma SameRest(home: Path, a: Path, s: seq<string>, b: Path, t: seq<string>)
    requires home + a <= home + b && |a| == |s| && |b| == |t|
    requires (forall i :: 0 <= i < |s| ==> a[i] == Normal(s[i])) && (forall i :: 0 <= i < |t| ==> b[i] == Normal(t[i]))
    ensures s <= t
  {
    forall i | 0 <= i < |s| ensures s[i] == t[i] {
      assert (home + a)[|home| + i] == (home + b)[|home| + i];
    }
  }

  lemma ClashNests(probe: Probe, g: Graph, root: Id, first: Id, p: Path, q: Path) returns (g': Graph)
    requires Reflects(probe, g, root) && Canonical(probe, g, root) && Later(g, g, first) && root < first
    requires Plain(p) && Plain(q) && Located(probe, p).Some? && Located(probe, q).Some?
    requires Clashes(Located(probe, p).value, Located(probe, q).value, Exact)
    ensures Later(g, g', first) && Nested(g', root, p, q)
  {
    var a, b := Located(probe, p).value, Located(probe, q).value;
    var home, s := LocatedAt1(probe, g, root, first, p);
    var home', t := LocatedAt1(probe, g, root, first, q);
    OverlapText(a.resolvedPath, b.resolvedPath);
    OverlapText(a.missingSuffix, b.missingSuffix);
    if a.resolvedPath <= b.resolvedPath {
      g' := ResolvedNest(g, root, first, p, q, a, home, s, b, home', t);
    } else if b.resolvedPath <= a.resolvedPath {
      g' := ResolvedNest(g, root, first, q, p, b, home', t, a, home, s);
    } else if a.missingSuffix <= b.missingSuffix {
      SameRest([], a.missingSuffix, s, b.missingSuffix, t);
      g' := RestsNest(g, root, first, p, q, a.identity, s, t);
    } else {
      SameRest([], b.missingSuffix, t, a.missingSuffix, s);
      g' := RestsNest(g, root, first, q, p, a.identity, t, s);
    }
  }

  /** Nothing is refused without need: if two lists of resolved paths are refused, then a path of the one
      and a path of the other could come to be one object, or one in the other, by nothing but making
      what is still missing. */
  lemma RefusedCouldNest(probe: Probe, g: Graph, root: Id, first: Id, portable: seq<Path>, standard: seq<Path>)
    returns (i: nat, j: nat, g': Graph)
    requires Reflects(probe, g, root) && Canonical(probe, g, root) && Later(g, g, first) && root < first
    requires (forall m :: 0 <= m < |portable| ==> Plain(portable[m])) && (forall n :: 0 <= n < |standard| ==> Plain(standard[n]))
    requires !Accepts(probe, portable, standard, Exact)
    ensures i < |portable| && j < |standard| && Later(g, g', first) && Nested(g', root, portable[i], standard[j])
  {
    forall m | 0 <= m < |portable| ensures Located(probe, portable[m]).Some? { PlainLocated(probe, g, root, portable[m]); }
    i, j :| i < |portable| && j < |standard| && !Separate(probe, portable[i], standard[j], Exact);
    PlainLocated(probe, g, root, standard[j]);
    g' := ClashNests(probe, g, root, first, portable[i], standard[j]);
  }

  // ---- What must be refused ---------------------------------------------------------------

  // Names of which none exists in the folder yet, not even the first.
  ghost predicate AllMissing(probe: Probe, dir: Path, rest: Path) {
    && (forall i :: 0 <= i < |rest| ==> rest[i].Normal?)
    && forall n :: 0 < n <= |rest| ==> probe(dir + rest[..n]).Missing?
  }

  lemma {:induction false} LocatedBelow(probe: Probe, dir: Path, rest: Path)
    requires probe(dir).Found? && AllMissing(probe, dir, rest)
    ensures Located(probe, dir + rest) == Some(Location(probe(dir).identity, rest, probe(dir).canonical + rest))
  {
    if rest == [] {
      assert dir + rest == dir && probe(dir).canonical + rest == probe(dir).canonical;
    } else {
      var n := |rest| - 1;
      assert forall m :: 0 < m <= n ==> rest[..n][..m] == rest[..m];
      LocatedBelow(probe, dir, rest[..n]);
      assert rest[..|rest|] == rest && rest == rest[..n] + [rest[n]];
      assert (dir + rest)[..|dir + rest| - 1] == dir + rest[..n];
      assert probe(dir).canonical + rest[..n] + [rest[n]] == probe(dir).canonical + rest;
    }
  }

  /** Whatever would overlap below one existing folder is refused, also under two spellings that the
      case rule takes for one name, and although neither exists yet. */
  lemma OverlapBelowIsRefused(probe: Probe, dir: Path, s: Path, t: Path, rule: CaseRule,
                              portable: seq<Path>, standard: seq<Path>, i: nat, j: nat)
    requires probe(dir).Found? && AllMissing(probe, dir, s) && AllMissing(probe, dir, t)
    requires i < |portable| && j < |standard| && portable[i] == dir + s && standard[j] == dir + t
    requires |s| <= |t| && forall k :: 0 <= k < |s| ==>
               if rule.Exact? then s[k] == t[k] else rule.fold(s[k].name) == rule.fold(t[k].name)
    ensures !Accepts(probe, portable, standard, rule) && !Accepts(probe, standard, portable, rule)
  {
    LocatedBelow(probe, dir, s);
    LocatedBelow(probe, dir, t);
    assert Covers(s, t, rule);
    assert !Separate(probe, portable[i], standard[j], rule) && !Separate(probe, standard[j], portable[i], rule);
  }

  /** So is what lies in the other by the canonical paths of what exists. */
  lemma InsideIsRefused(probe: Probe, rule: CaseRule, portable: seq<Path>, standard: seq<Path>, i: nat, j: nat)
    requires i < |portable| && j < |standard| && probe(portable[i]).Found? && probe(standard[j]).Found?
    requires probe(portable[i]).canonical <= probe(standard[j]).canonical || probe(standard[j]).canonical <= probe(portable[i]).canonical
    ensures !Accepts(probe, portable, standard, rule)
  {
    var c, d := probe(portable[i]).canonical, probe(standard[j]).canonical;
    if c <= d { assert Covers(c, d, rule); } else { assert Covers(d, c, rule); }
    assert !Separate(probe, portable[i], standard[j], rule);
  }

  // ---- Without links and mounts -----------------------------------------------------------

  /** Every object is reached by one path only, which is its canonical one. */
  ghost predicate OnePathEach(probe: Probe, g: Graph, root: Id) {
    && (forall p :: Plain(p) && probe(p).Found? ==> probe(p).canonical == p)
    && (forall p, q :: Plain(p) && Plain(q) && Walk(g, root, Names(p)).Some? && Walk(g, root, Names(p)) == Walk(g, root, Names(q)) ==> p == q)
  }

  lemma ResolvedIsPath(probe: Probe, g: Graph, root: Id, p: Path) returns (k: nat)
    requires Reflects(probe, g, root) && OnePathEach(probe, g, root) && Plain(p)
    ensures Located(probe, p).Some? && Located(probe, p).value.resolvedPath == p
    ensures 1 <= k <= |p| && Plain(p[..k]) && Located(probe, p).value.missingSuffix == p[k..]
    ensures Walk(g, root, Names(p[..k])) == Some(Located(probe, p).value.identity)
  {
    PlainLocated(probe, g, root, p);
    k := LocatedSplits(probe, p);
    FoundPlain(probe, g, root, p, k);
    assert p == p[..k] + p[k..];
  }

  lemma SeparateAsText(probe: Probe, g: Graph, root: Id, p: Path, q: Path)
    requires Reflects(probe, g, root) && OnePathEach(probe, g, root) && Plain(p) && Plain(q)
    ensures Separate(probe, p, q, Exact) <==> !(p <= q) && !(q <= p)
  {
    var k := ResolvedIsPath(probe, g, root, p);
    var m := ResolvedIsPath(probe, g, root, q);
    var a, b := Located(probe, p).value, Located(probe, q).value;
    OverlapText(p, q);
    OverlapText(p[k..], q[m..]);
    if a.identity == b.identity { RestsText(p, k, q, m); }
  }

  lemma OverlapText(a: Path, b: Path)
    ensures Overlap(a, b, Exact) <==> a <= b || b <= a
  {
    CoversText(a, b);
    CoversText(b, a);
  }

  lemma CoversText(a: Path, b: Path)
    ensures Covers(a, b, Exact) <==> a <= b
  {
  }

  lemma RestsText(p: Path, k: nat, q: Path, m: nat)
    requires k <= |p| && m <= |q| && p[..k] == q[..m]
    ensures (p[k..] <= q[m..] ==> p <= q) && (q[m..] <= p[k..] ==> q <= p)
  {
    assert p == p[..k] + p[k..] && q == q[..m] + q[m..];
  }

  /** Without links and mounts the check is the comparison of texts, whatever exists and whatever does
      not: accepted exactly if no path of the one list is, or lies below, one of the other. */
  lemma WithoutLinksByText(probe: Probe, g: Graph, root: Id, portable: seq<Path>, standard: seq<Path>)
    requires Reflects(probe, g, root) && OnePathEach(probe, g, root)
    requires (forall m :: 0 <= m < |portable| ==> Plain(portable[m])) && (forall n :: 0 <= n < |standard| ==> Plain(standard[n]))
    ensures Accepts(probe, portable, standard, Exact) <==>
              forall i, j :: 0 <= i < |portable| && 0 <= j < |standard| ==> !(portable[i] <= standard[j]) && !(standard[j] <= portable[i])
  {
    forall m | 0 <= m < |portable| ensures Located(probe, portable[m]).Some? { PlainLocated(probe, g, root, portable[m]); }
    forall i, j | 0 <= i < |portable| && 0 <= j < |standard|
      ensures Separate(probe, portable[i], standard[j], Exact) <==> !(portable[i] <= standard[j]) && !(standard[j] <= portable[i])
    {
      SeparateAsText(probe, g, root, portable[i], standard[j]);
    }
  }

  // ---- The first start --------------------------------------------------------------------

  // A home directory with nothing in it yet; the program is started there.
  const FIRST: Graph := map[(0, "home") := 1, (1, "u") := 2]
  const USER: Path := [RootDir, Normal("home"), Normal("u")]
  const USER_DATA: Path := USER + [Normal(".local"), Normal("share"), Normal("orbok")]
  const USER_CONFIG: Path := USER + [Normal(".config"), Normal("orbok")]

  lemma {:induction false} OnlyHome(names: seq<string>)
    ensures Walk(FIRST, 0, names).Some? ==>
              |names| <= 2 && Walk(FIRST, 0, names) == Some(|names|) && names == ["home", "u"][..|names|]
  {
    if names != [] {
      var n := |names| - 1;
      OnlyHome(names[..n]);
      assert names == names[..n] + [names[n]];
    }
  }

  lemma OnePathAtFirst()
    ensures OnePathEach(Answers(FIRST, 0), FIRST, 0) && Reflects(Answers(FIRST, 0), FIRST, 0)
  {
    GraphAnswers(FIRST, 0);
    forall p, q | Plain(p) && Plain(q) && Walk(FIRST, 0, Names(p)).Some? && Walk(FIRST, 0, Names(p)) == Walk(FIRST, 0, Names(q))
      ensures p == q
    {
      OnlyHome(Names(p));
      OnlyHome(Names(q));
      SameNames(p, q);
    }
  }

  lemma SameNames(p: Path, q: Path)
    requires Plain(p) && Plain(q) && Names(p) == Names(q)
    ensures p == q
  {
    assert |Names(p)| == |p| - 1 && |Names(q)| == |q| - 1;
    forall i | 1 <= i < |p| ensures p[i] == q[i] {
      assert Names(p)[i - 1] == Names(q)[i - 1];
    }
  }

  ghost function AtHome(mode: R.Mode): R.Context {
    if mode.Portable? then R.ContextAt(R.Portable, USER, USER + [R.PORTABLE_DATA_DIR], USER + [R.PORTABLE_DATA_DIR])
    else R.ContextAt(R.Standard, USER, USER_DATA, USER_CONFIG)
  }

  lemma HomeNames()
    ensures "orbok-data"[0] == 'o' && ".local"[0] == '.' && ".config"[0] == '.'
    ensures Normalized(USER) == USER && Normalized(USER_DATA) == USER_DATA && Normalized(USER_CONFIG) == USER_CONFIG
  {
    PlainNormalized(USER);
    PlainNormalized(USER_DATA);
    PlainNormalized(USER_CONFIG);
  }

  lemma ApartAtHome()
    ensures var portable := USER + [R.PORTABLE_DATA_DIR];
            !Overlap(portable, USER_DATA, Exact) && !Overlap(portable, USER_CONFIG, Exact)
  {
    HomeNames();
    var portable := USER + [R.PORTABLE_DATA_DIR];
    assert portable[3] == Normal("orbok-data") && USER_DATA[3] == Normal(".local") && USER_CONFIG[3] == Normal(".config");
  }

  lemma HomeProfiles()
    ensures Profiles(AtHome(R.Portable), AtHome(R.Standard), USER, USER_DATA, USER_CONFIG, Exact)
  {
    HomeNames();
    ApartAtHome();
  }

  // Every checked path begins with the home directory, and then differs from the other side.
  lemma HomePaths(p: Path, q: Path)
    requires p in PortableChecked(AtHome(R.Portable)) && q in StandardChecked(Some(USER_DATA), Some(USER_CONFIG))
    ensures Plain(p) && Plain(q) && !(p <= q) && !(q <= p)
  {
    assert "orbok-data"[0] == 'o' && ".local"[0] == '.' && ".config"[0] == '.';
    assert |p| > 3 && p[3] == Normal("orbok-data");
    assert |q| > 3 && (q[3] == Normal(".local") || q[3] == Normal(".config"));
  }

  /** The first start, with neither profile on disk yet and both to be made below one home directory:
      everything that is checked is missing from one and the same object, and the check accepts. */
  lemma FirstStartAccepted()
    ensures Profiles(AtHome(R.Portable), AtHome(R.Standard), USER, USER_DATA, USER_CONFIG, Exact)
    ensures Accepts(Answers(FIRST, 0), PortableChecked(AtHome(R.Portable)), StandardChecked(Some(USER_DATA), Some(USER_CONFIG)), Exact)
  {
    HomeProfiles();
    OnePathAtFirst();
    AcceptedAtHome(Answers(FIRST, 0), FIRST, 0, PortableChecked(AtHome(R.Portable)), StandardChecked(Some(USER_DATA), Some(USER_CONFIG)));
  }

  lemma AcceptedAtHome(probe: Probe, g: Graph, root: Id, portable: seq<Path>, standard: seq<Path>)
    requires portable == PortableChecked(AtHome(R.Portable)) && standard == StandardChecked(Some(USER_DATA), Some(USER_CONFIG))
    requires OnePathEach(probe, g, root) && Reflects(probe, g, root)
    ensures Accepts(probe, portable, standard, Exact)
  {
    HomeLists(portable, standard);
    AcceptedByText(probe, g, root, portable, standard);
  }

  lemma HomeLists(portable: seq<Path>, standard: seq<Path>)
    requires portable == PortableChecked(AtHome(R.Portable)) && standard == StandardChecked(Some(USER_DATA), Some(USER_CONFIG))
    ensures |portable| == 3 && |standard| == 4
    ensures forall p, q :: p in portable && q in standard ==> Plain(p) && Plain(q) && !(p <= q) && !(q <= p)
  {
    forall p, q | p in portable && q in standard ensures Plain(p) && Plain(q) && !(p <= q) && !(q <= p) { HomePaths(p, q); }
  }

  lemma AcceptedByText(probe: Probe, g: Graph, root: Id, portable: seq<Path>, standard: seq<Path>)
    requires Reflects(probe, g, root) && OnePathEach(probe, g, root)
    requires forall p, q :: p in portable && q in standard ==> Plain(p) && Plain(q) && !(p <= q) && !(q <= p)
    requires portable != [] && standard != []
    ensures Accepts(probe, portable, standard, Exact)
  {
    assert portable[0] in portable && standard[0] in standard;
    forall m | 0 <= m < |portable| ensures Plain(portable[m]) { assert portable[m] in portable && standard[0] in standard; }
    forall n | 0 <= n < |standard| ensures Plain(standard[n]) { assert portable[0] in portable && standard[n] in standard; }
    WithoutLinksByText(probe, g, root, portable, standard);
  }
}
