/**
 Telling whether two paths denote the same object although neither may exist yet: the nearest
 existing ancestor's identity and the missing rest. The file system is a graph of objects in which
 one object may be reached by several paths.
 */
module Physical {
  import opened Common
  import opened Paths

  type Id = nat

  datatype Lookup = Found(canonical: Path, identity: Id) | Missing | Failed

  // What the platform says of each path.
  type Probe = Path -> Lookup

  datatype Location = Location(identity: Id, missingSuffix: Path, resolvedPath: Path)

  /** The longest existing ancestor, or an error: a probe that fails otherwise than by absence, or a
      missing component that has no name. */
  function Located(probe: Probe, p: Path): Option<Location> {
    match probe(p)
    case Found(canonical, identity) => Some(Location(identity, [], canonical))
    case Failed => None
    case Missing =>
      if p == [] || !p[|p| - 1].Normal? then None
      else
        match Located(probe, p[..|p| - 1])
        case None => None
        case Some(l) => Some(Location(l.identity, l.missingSuffix + [p[|p| - 1]], l.resolvedPath + [p[|p| - 1]]))
  }

  method PhysicalLocation(probe: Probe, p: Path) returns (location: Option<Location>)
    ensures location == Located(probe, p)
  {
    var existing := p;
    var suffix: seq<Component> := [];  // nearest the root last
    ExtendedNothing(Located(probe, p));
    while true
      invariant existing <= p
      invariant p == existing + Reversed(suffix)
      invariant Located(probe, p) == Extended(Located(probe, existing), Reversed(suffix))
      decreases |existing|
    {
      match probe(existing) {
        case Found(canonical, identity) =>
          var resolved, missing := PushBack(canonical, suffix);
          assert [] + missing == missing;
          return Some(Location(identity, missing, resolved));
        case Failed => return None;
        case Missing =>
          if existing == [] || !existing[|existing| - 1].Normal? { return None; }
          OneUp(probe, existing, suffix);
          suffix := suffix + [existing[|existing| - 1]];
          existing := existing[..|existing| - 1];
      }
    }
  }

  // Moving the last component of a missing path over to the suffix.
  lemma OneUp(probe: Probe, existing: Path, suffix: seq<Component>)
    requires probe(existing).Missing? && existing != [] && existing[|existing| - 1].Normal?
    ensures var parent, suffix' := existing[..|existing| - 1], suffix + [existing[|existing| - 1]];
            && parent + Reversed(suffix') == existing + Reversed(suffix)
            && Extended(Located(probe, parent), Reversed(suffix')) == Extended(Located(probe, existing), Reversed(suffix))
  {
    var last, parent := existing[|existing| - 1], existing[..|existing| - 1];
    ReversedAppend(suffix, last);
    assert existing == parent + [last];
    ExtendedTwice(Located(probe, parent), [last], Reversed(suffix));
  }

  method PushBack(canonical: Path, suffix: seq<Component>) returns (resolved: Path, missing: Path)
    ensures missing == Reversed(suffix) && resolved == canonical + missing
  {
    resolved, missing := canonical, [];
    var i := |suffix|;
    while i > 0
      invariant 0 <= i <= |suffix|
      invariant missing == Reversed(suffix[i..]) && resolved == canonical + missing
    {
      i := i - 1;
      ReversedHead(suffix, i);
      resolved, missing := resolved + [suffix[i]], missing + [suffix[i]];
    }
    assert suffix[0..] == suffix;
  }

  ghost function Extended(l: Option<Location>, rest: Path): Option<Location> {
    match l
    case None => None
    case Some(Location(identity, missing, resolved)) => Some(Location(identity, missing + rest, resolved + rest))
  }

  lemma {:induction false} ReversedHead(s: seq<Component>, i: nat)
    requires i < |s|
    ensures Reversed(s[i..]) == Reversed(s[i + 1..]) + [s[i]]
    decreases |s|
  {
    if i == |s| - 1 {
      assert s[i..] == [s[i]];
      assert Reversed([s[i]]) == [s[i]] + Reversed([s[i]][..0]);
    } else {
      ReversedHead(s[..|s| - 1], i);
      assert s[i..][..|s[i..]| - 1] == s[..|s| - 1][i..];
      assert s[i + 1..][..|s[i + 1..]| - 1] == s[..|s| - 1][i + 1..];
    }
  }

  lemma ExtendedNothing(l: Option<Location>)
    ensures Extended(l, []) == l
  {
    if l.Some? { assert l.value.missingSuffix + [] == l.value.missingSuffix && l.value.resolvedPath + [] == l.value.resolvedPath; }
  }

  lemma ExtendedTwice(l: Option<Location>, a: Path, b: Path)
    ensures Extended(Extended(l, a), b) == Extended(l, a + b)
  {
    if l.Some? {
      assert l.value.missingSuffix + a + b == l.value.missingSuffix + (a + b);
      assert l.value.resolvedPath + a + b == l.value.resolvedPath + (a + b);
    }
  }

  /** Ancestor and missing rest make up the path, the ancestor exists, and no longer one does. */
  lemma {:induction false} LocatedSplits(probe: Probe, p: Path) returns (k: nat)
    requires Located(probe, p).Some?
    ensures k <= |p| && var l := Located(probe, p).value;
            && l.missingSuffix == p[k..] && probe(p[..k]).Found?
            && probe(p[..k]).identity == l.identity && l.resolvedPath == probe(p[..k]).canonical + p[k..]
            && (forall j :: k < j <= |p| ==> probe(p[..j]).Missing?)
            && (forall j :: k <= j < |p| ==> p[j].Normal?)
  {
    if probe(p).Found? {
      k := |p|;
      assert p[..k] == p;
    } else {
      var parent := p[..|p| - 1];
      k := LocatedSplits(probe, parent);
      assert forall j :: 0 <= j <= |p| - 1 ==> p[..j] == parent[..j];
      assert p[..|p|] == p;
      assert p[k..] == parent[k..] + [p[|p| - 1]];
    }
  }

  // ---- The check --------------------------------------------------------------------------

  ghost predicate Clashes(a: Location, b: Location, rule: CaseRule) {
    || Overlap(a.resolvedPath, b.resolvedPath, rule)
    || (a.identity == b.identity && Overlap(a.missingSuffix, b.missingSuffix, rule))
  }

  ghost predicate Separate(probe: Probe, p: Path, q: Path, rule: CaseRule) {
    && Located(probe, p).Some? && Located(probe, q).Some?
    && !Clashes(Located(probe, p).value, Located(probe, q).value, rule)
  }

  ghost predicate Accepts(probe: Probe, portable: seq<Path>, standard: seq<Path>, rule: CaseRule) {
    && (forall i :: 0 <= i < |portable| ==> Located(probe, portable[i]).Some?)
    && (forall i, j :: 0 <= i < |portable| && 0 <= j < |standard| ==> Separate(probe, portable[i], standard[j], rule))
  }

  /** The nested loop accepts exactly when every path of either list can be located and no two of
      them clash; `standard` is not even looked at for an empty `portable`. */
  method ValidateSeparation(probe: Probe, portable: seq<Path>, standard: seq<Path>, rule: CaseRule) returns (ok: bool)
    ensures ok <==> Accepts(probe, portable, standard, rule)
  {
    for i := 0 to |portable|
      invariant forall m :: 0 <= m < i ==> Located(probe, portable[m]).Some?
      invariant forall m, n :: 0 <= m < i && 0 <= n < |standard| ==> Separate(probe, portable[m], standard[n], rule)
    {
      var a := PhysicalLocation(probe, portable[i]);
      if a.None? { return false; }
      for j := 0 to |standard|
        invariant forall n :: 0 <= n < j ==> Separate(probe, portable[i], standard[n], rule)
      {
        var b := PhysicalLocation(probe, standard[j]);
        assert Separate(probe, portable[i], standard[j], rule) <==> b.Some? && !Clashes(a.value, b.value, rule);
        if b.None? { return false; }
        var canonical := PathsOverlap(a.value.resolvedPath, b.value.resolvedPath, rule);
        var suffixes := PathsOverlap(a.value.missingSuffix, b.value.missingSuffix, rule);
        if canonical || (a.value.identity == b.value.identity && suffixes) { return false; }
      }
    }
    ok := true;
  }

  // ---- Objects ----------------------------------------------------------------------------

  /** Which object each name in each object leads to. Links and mounts lead where they lead. */
  type Graph = map<(Id, string), Id>

  function Walk(g: Graph, from: Id, names: seq<string>): Option<Id> {
    if names == [] then Some(from)
    else
      match Walk(g, from, names[..|names| - 1])
      case None => None
      case Some(at) => if (at, names[|names| - 1]) in g then Some(g[(at, names[|names| - 1])]) else None
  }

  /** A later file system: nothing was removed or moved, and whatever was made since (`first` on) was
      made once, in one place. */
  ghost predicate Later(g: Graph, g': Graph, first: Id) {
    && (forall k: (Id, string) :: k in g ==> k in g' && g'[k] == g[k] && k.0 < first && g[k] < first)
    && (forall k: (Id, string) :: k in g' && k !in g ==> g'[k] >= first)
    && (forall j: (Id, string), k: (Id, string) :: j in g' && k in g' && g'[j] == g'[k] && g'[j] >= first ==> j == k)
  }

  // Nothing named so is in the ancestor yet.
  predicate MissingBelow(g: Graph, at: Id, names: seq<string>) {
    names != [] ==> (at, names[0]) !in g
  }

  // Every step from an existing ancestor into the missing rest leads to something new.
  lemma {:induction false} NewBelow(g: Graph, g': Graph, first: Id, at: Id, names: seq<string>)
    requires Later(g, g', first) && at < first && MissingBelow(g, at, names)
    requires Walk(g', at, names).Some? && names != []
    ensures Walk(g', at, names).value >= first
  {
    var n := |names| - 1;
    if n > 0 {
      assert names[..n][0] == names[0];
      NewBelow(g, g', first, at, names[..n]);
    } else {
      assert names[..n] == [];
    }
  }

  /** Two missing rests below two existing objects lead to one object, in any later file system in
      which both exist, exactly if the objects are one and the rests are the same names. */
  lemma {:induction false} SameFuture(g: Graph, g': Graph, first: Id, a: Id, s: seq<string>, b: Id, t: seq<string>)
    requires Later(g, g', first) && a < first && b < first
    requires MissingBelow(g, a, s) && MissingBelow(g, b, t)
    requires Walk(g', a, s).Some? && Walk(g', b, t).Some?
    ensures Walk(g', a, s) == Walk(g', b, t) <==> a == b && s == t
    decreases |s|
  {
    if s != [] { NewBelow(g, g', first, a, s); }
    if t != [] { NewBelow(g, g', first, b, t); }
    if s != [] && t != [] {
      var s', t' := s[..|s| - 1], t[..|t| - 1];
      assert s' != [] ==> s'[0] == s[0];
      assert t' != [] ==> t'[0] == t[0];
      SameFuture(g, g', first, a, s', b, t');
      if Walk(g', a, s) == Walk(g', b, t) {
        assert s == s' + [s[|s| - 1]] && t == t' + [t[|t| - 1]];
      }
    }
  }

  lemma {:induction false} WalkConcat(g: Graph, from: Id, a: seq<string>, b: seq<string>)
    requires Walk(g, from, a).Some?
    ensures Walk(g, from, a + b) == Walk(g, Walk(g, from, a).value, b)
  {
    if b == [] {
      assert a + b == a;
    } else {
      var b' := b[..|b| - 1];
      assert (a + b)[..|a + b| - 1] == a + b';
      WalkConcat(g, from, a, b');
    }
  }

  lemma {:induction false} WalkLater(g: Graph, g': Graph, first: Id, from: Id, names: seq<string>)
    requires Later(g, g', first) && Walk(g, from, names).Some? && from < first
    ensures Walk(g', from, names) == Walk(g, from, names) && Walk(g, from, names).value < first
  {
    if names != [] { WalkLater(g, g', first, from, names[..|names| - 1]); }
  }

  /** The platform answers for resolved paths what the graph says, from its root on. */
  ghost predicate Reflects(probe: Probe, g: Graph, root: Id) {
    forall p :: Plain(p) ==>
      match Walk(g, root, Names(p))
      case Some(id) => probe(p).Found? && probe(p).identity == id
      case None => probe(p).Missing?
  }

  // The nearest existing ancestor in the graph, and that the next name is missing from it.
  lemma ExistingAncestor(probe: Probe, g: Graph, root: Id, p: Path) returns (k: nat)
    requires Reflects(probe, g, root) && Plain(p) && Located(probe, p).Some?
    ensures var l := Located(probe, p).value;
            && 1 <= k <= |p| && l.missingSuffix == p[k..]
            && Walk(g, root, Names(p)[..k - 1]) == Some(l.identity)
            && (k < |p| ==> (l.identity, p[k].name) !in g)
  {
    k := LocatedSplits(probe, p);
    assert Names([RootDir]) == [] && p[..1] == [RootDir];
    assert probe(p[..1]).Found?;
    var names := Names(p);
    assert Names(p[..k]) == names[..k - 1];
    if k < |p| {
      assert Names(p[..k + 1]) == names[..k];
      assert names[..k][..k - 1] == names[..k - 1] && names[..k][k - 1] == p[k].name;
      assert probe(p[..k + 1]).Missing?;
    }
  }

  // A resolved path leads where its missing rest leads from its nearest existing ancestor.
  lemma LeadsFromAncestor(probe: Probe, g: Graph, root: Id, g': Graph, first: Id, p: Path) returns (rest: seq<string>)
    requires Reflects(probe, g, root) && Later(g, g', first) && root < first
    requires Plain(p) && Located(probe, p).Some?
    ensures var l := Located(probe, p).value;
            && l.identity < first && MissingBelow(g, l.identity, rest)
            && Walk(g', root, Names(p)) == Walk(g', l.identity, rest)
            && |rest| == |l.missingSuffix| && forall i :: 0 <= i < |rest| ==> l.missingSuffix[i] == Normal(rest[i])
  {
    var k := ExistingAncestor(probe, g, root, p);
    var names := Names(p);
    rest := names[k - 1..];
    WalkOn(g, g', first, root, names, k - 1);
    NamesFrom(p, k);
  }

  lemma NamesFrom(p: Path, k: nat)
    requires Plain(p) && 1 <= k <= |p|
    ensures var rest := Names(p)[k - 1..];
            && |rest| == |p[k..]| && (forall i :: 0 <= i < |rest| ==> p[k..][i] == Normal(rest[i]))
            && (rest != [] ==> rest[0] == p[k].name)
  {
    var names := Names(p);
    forall i | 0 <= i < |p| - k ensures p[k..][i] == Normal(names[k - 1..][i]) {
      assert p[k..][i] == p[k + i] && names[k - 1..][i] == names[k - 1 + i];
    }
  }

  lemma WalkOn(g: Graph, g': Graph, first: Id, root: Id, names: seq<string>, n: nat)
    requires Later(g, g', first) && root < first && n <= |names| && Walk(g, root, names[..n]).Some?
    ensures Walk(g, root, names[..n]).value < first
    ensures Walk(g', root, names) == Walk(g', Walk(g, root, names[..n]).value, names[n..])
  {
    assert names == names[..n] + names[n..];
    WalkLater(g, g', first, root, names[..n]);
    WalkConcat(g', root, names[..n], names[n..]);
  }

  /** Located paths of one identity and one missing rest are one object, now and later, and located
      paths that do not clash are never the same object. */
  lemma LocationsDecide(probe: Probe, g: Graph, root: Id, g': Graph, first: Id, p: Path, q: Path, rule: CaseRule)
    requires Reflects(probe, g, root) && Later(g, g', first) && root < first
    requires Plain(p) && Plain(q) && Located(probe, p).Some? && Located(probe, q).Some?
    requires Walk(g', root, Names(p)).Some? && Walk(g', root, Names(q)).Some?
    ensures var a, b := Located(probe, p).value, Located(probe, q).value;
            && (Walk(g', root, Names(p)) == Walk(g', root, Names(q)) <==>
                  a.identity == b.identity && a.missingSuffix == b.missingSuffix)
            && (Separate(probe, p, q, rule) ==> Walk(g', root, Names(p)) != Walk(g', root, Names(q)))
  {
    var a, b := Located(probe, p).value, Located(probe, q).value;
    var s := LeadsFromAncestor(probe, g, root, g', first, p);
    var t := LeadsFromAncestor(probe, g, root, g', first, q);
    SameFuture(g, g', first, a.identity, s, b.identity, t);
    assert s == t <==> a.missingSuffix == b.missingSuffix;
    CoversOrder(a.missingSuffix, [], [], rule);
  }

  // Both paths exist and lead to one object.
  ghost predicate Meet(g: Graph, root: Id, p: Path, q: Path)
    requires Plain(p) && Plain(q)
  {
    Walk(g, root, Names(p)).Some? && Walk(g, root, Names(p)) == Walk(g, root, Names(q))
  }

  /** What the check is for: if it accepts two lists of resolved paths, then in no later state of the
      file system is a path of the one the same object as a path of the other. */
  lemma AcceptedNeverMeet(probe: Probe, g: Graph, root: Id, g': Graph, first: Id,
                          portable: seq<Path>, standard: seq<Path>, rule: CaseRule, i: nat, j: nat)
    requires Accepts(probe, portable, standard, rule) && i < |portable| && j < |standard|
    requires Plain(portable[i]) && Plain(standard[j])
    requires Reflects(probe, g, root) && Later(g, g', first) && root < first
    ensures !Meet(g', root, portable[i], standard[j])
  {
    assert Separate(probe, portable[i], standard[j], rule);
    if Meet(g', root, portable[i], standard[j]) {
      LocationsDecide(probe, g, root, g', first, portable[i], standard[j], rule);
    }
  }
}
