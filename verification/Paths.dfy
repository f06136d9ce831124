/**
 Paths as their components, and the two lexical operations everything about them rests on:
 normalising an absolute path and comparing one path's components with another's.
 */
module Paths {
  import opened Common

  datatype Component = RootDir | CurDir | ParentDir | Normal(name: string)

  type Path = seq<Component>

  predicate IsAbsolute(p: Path) {
    p != [] && p[0].RootDir?
  }

  // Replaced by an absolute path, extended by any other.
  function Join(base: Path, p: Path): Path {
    if IsAbsolute(p) then p else base + p
  }

  // ---- Normalising ------------------------------------------------------------------------

  // Popping stops at the root.
  function Up(p: Path): Path {
    if p != [] && !p[|p| - 1].RootDir? then p[..|p| - 1] else p
  }

  ghost function Normalized(p: Path): Path {
    if p == [] then []
    else
      var before := Normalized(p[..|p| - 1]);
      match p[|p| - 1]
      case RootDir => [RootDir]
      case Normal(name) => before + [Normal(name)]
      case CurDir => before
      case ParentDir => Up(before)
  }

  method NormalizeAbsolute(p: Path) returns (r: Option<Path>)
    ensures r == if IsAbsolute(p) then Some(Normalized(p)) else None
    ensures r.None? <==> p == [] || p[0] != RootDir
  {
    if !IsAbsolute(p) { return None; }
    var normalized: Path := [];
    for i := 0 to |p|
      invariant normalized == Normalized(p[..i])
    {
      assert p[..i + 1][..i] == p[..i];
      match p[i] {
        case RootDir => normalized := [RootDir];
        case Normal(_) => normalized := normalized + [p[i]];
        case CurDir =>
        case ParentDir => normalized := Up(normalized);
      }
    }
    assert p[..|p|] == p;
    r := Some(normalized);
  }

  /** The root first and only there, then names. */
  predicate Plain(p: Path) {
    IsAbsolute(p) && forall i :: 1 <= i < |p| ==> p[i].Normal?
  }

  // A path as the platform splits one: the root can only come first.
  predicate Split(p: Path) {
    forall i :: 1 <= i < |p| ==> !p[i].RootDir?
  }

  lemma {:induction false} NormalizedPlain(p: Path)
    requires IsAbsolute(p)
    ensures Plain(Normalized(p))
  {
    if |p| > 1 {
      NormalizedPlain(p[..|p| - 1]);
    }
  }

  lemma {:induction false} PlainNormalized(p: Path)
    requires Plain(p)
    ensures Normalized(p) == p
  {
    if |p| > 1 {
      PlainNormalized(p[..|p| - 1]);
      assert p == p[..|p| - 1] + [p[|p| - 1]];
    } else {
      assert p == [RootDir];
    }
  }

  /** Normalising is idempotent, and its result has no `.` and no `..`. */
  lemma NormalizedTwice(p: Path)
    requires IsAbsolute(p)
    ensures Normalized(Normalized(p)) == Normalized(p)
    ensures CurDir !in Normalized(p) && ParentDir !in Normalized(p)
  {
    NormalizedPlain(p);
    PlainNormalized(Normalized(p));
  }

  /** Read from the right instead: each `..` cancels the nearest name to its left that is not yet
      cancelled; `skip` names are cancelled by what is further right. */
  ghost function Survivors(p: Path, skip: nat): seq<string> {
    if p == [] then []
    else
      var before := p[..|p| - 1];
      match p[|p| - 1]
      case RootDir => []
      case Normal(name) => if skip > 0 then Survivors(before, skip - 1) else Survivors(before, 0) + [name]
      case CurDir => Survivors(before, skip)
      case ParentDir => Survivors(before, skip + 1)
  }

  ghost function Names(p: Path): seq<string>
    requires Plain(p)
  {
    seq(|p| - 1, i requires 0 <= i < |p| - 1 => p[i + 1].name)
  }

  ghost function DropLast(s: seq<string>, n: nat): seq<string> {
    if n >= |s| then [] else s[..|s| - n]
  }

  /** The stack and the reading from the right agree on every absolute path. */
  lemma {:induction false} NormalizedSurvives(p: Path, skip: nat)
    requires IsAbsolute(p)
    ensures Plain(Normalized(p))
    ensures Survivors(p, skip) == DropLast(Names(Normalized(p)), skip)
  {
    NormalizedPlain(p);
    if |p| > 1 {
      var before, last := p[..|p| - 1], p[|p| - 1];
      NormalizedPlain(before);
      match last
      case RootDir => assert Names([RootDir]) == [];
      case Normal(name) =>
        NormalizedSurvives(before, if skip > 0 then skip - 1 else 0);
        assert Names(Normalized(p)) == Names(Normalized(before)) + [name];
      case CurDir => NormalizedSurvives(before, skip);
      case ParentDir =>
        NormalizedSurvives(before, skip + 1);
        UpNames(Normalized(before));
    } else {
      assert Normalized(p) == [RootDir];
    }
  }

  lemma UpNames(p: Path)
    requires Plain(p)
    ensures Plain(Up(p)) && Names(Up(p)) == DropLast(Names(p), 1)
  {
  }

  /** Normalising in two steps is normalising at once: what is joined to a directory means the same
      whether the directory was normalised first or not. */
  lemma {:induction false} NormalizedJoin(a: Path, b: Path)
    requires IsAbsolute(a)
    ensures Normalized(Normalized(a) + b) == Normalized(a + b)
  {
    if b == [] {
      NormalizedTwice(a);
      assert Normalized(a) + b == Normalized(a) && a + b == a;
    } else {
      var b' := b[..|b| - 1];
      assert (a + b)[..|a + b| - 1] == a + b' && (Normalized(a) + b)[..|Normalized(a) + b| - 1] == Normalized(a) + b';
      NormalizedJoin(a, b');
    }
  }

  // ---- Comparing --------------------------------------------------------------------------

  /** How names compare: exactly, or after folding their text (the platform's lowercase). */
  datatype CaseRule = Exact | Ignoring(fold: string -> string)

  function Shown(c: Component): string {
    match c
    case RootDir => "/"
    case CurDir => "."
    case ParentDir => ".."
    case Normal(name) => name
  }

  predicate Same(a: Component, b: Component, rule: CaseRule) {
    match rule
    case Exact => a == b
    case Ignoring(fold) => fold(Shown(a)) == fold(Shown(b))
  }

  /** `root` is a component-wise prefix of `p`. */
  ghost predicate Covers(root: Path, p: Path, rule: CaseRule) {
    |root| <= |p| && forall i :: 0 <= i < |root| ==> Same(root[i], p[i], rule)
  }

  // The runtime context's comparison.
  method ComponentsStartWith(p: Path, prefix: Path, rule: CaseRule) returns (r: bool)
    ensures r <==> Covers(prefix, p, rule)
    ensures rule.Exact? ==> (r <==> prefix <= p)
    ensures rule.Ignoring? && Plain(prefix) && Plain(p) ==>
              (r <==> |prefix| <= |p| && forall i :: 1 <= i < |prefix| ==> rule.fold(prefix[i].name) == rule.fold(p[i].name))
  {
    var taken := 0;
    for i := 0 to |prefix|
      invariant taken == i <= |p|
      invariant forall k :: 0 <= k < i ==> Same(prefix[k], p[k], rule)
    {
      if taken == |p| { return false; }
      if !Same(p[taken], prefix[i], rule) { return false; }
      taken := taken + 1;
    }
    r := true;
  }

  // The folders' comparison, which also returns what is below.
  method RelativeUnderWith(root: Path, p: Path, rule: CaseRule) returns (r: Option<Path>)
    ensures r.Some? <==> Covers(root, p, rule)
    ensures r.Some? ==> r.value == p[|root|..]
    ensures rule.Exact? ==> (r.Some? <==> root <= p)
    ensures rule.Ignoring? && Plain(root) && Plain(p) ==>
              (r.Some? <==> |root| <= |p| && forall i :: 1 <= i < |root| ==> rule.fold(root[i].name) == rule.fold(p[i].name))
  {
    var below := p;
    for i := 0 to |root|
      invariant i <= |p| && below == p[i..]
      invariant forall k :: 0 <= k < i ==> Same(root[k], p[k], rule)
    {
      if below == [] { return None; }
      if !Same(root[i], below[0], rule) { return None; }
      below := below[1..];
    }
    r := Some(below);
  }

  ghost predicate Overlap(a: Path, b: Path, rule: CaseRule) {
    Covers(a, b, rule) || Covers(b, a, rule)
  }

  method PathsOverlap(a: Path, b: Path, rule: CaseRule) returns (r: bool)
    ensures r <==> Overlap(a, b, rule)
  {
    r := ComponentsStartWith(a, b, rule);
    if !r {
      r := ComponentsStartWith(b, a, rule);
    }
  }

  // ---- Folders ----------------------------------------------------------------------------

  /** Covering is a preorder; folders that cover each other are the same up to the case rule. */
  lemma CoversOrder(a: Path, b: Path, c: Path, rule: CaseRule)
    ensures Covers(a, a, rule)
    ensures Covers(a, b, rule) && Covers(b, c, rule) ==> Covers(a, c, rule)
    ensures Covers(a, b, rule) && Covers(b, a, rule) ==>
              |a| == |b| && forall i :: 0 <= i < |a| ==> Same(a[i], b[i], rule)
    ensures rule.Exact? && Covers(a, b, rule) && Covers(b, a, rule) ==> a == b
  {
  }

  /** The folders covering one path form a chain. */
  lemma CoversChain(a: Path, b: Path, p: Path, rule: CaseRule)
    requires Covers(a, p, rule) && Covers(b, p, rule)
    ensures Overlap(a, b, rule)
  {
    if |a| <= |b| {
      assert Covers(a, b, rule);
    } else {
      assert Covers(b, a, rule);
    }
  }

  /** Among folders none of which covers another, each path is covered by at most one. */
  lemma OneFolderPerPath(folders: seq<Path>, p: Path, i: nat, j: nat, rule: CaseRule)
    requires forall m, n :: 0 <= m < |folders| && 0 <= n < |folders| && m != n ==> !Covers(folders[m], folders[n], rule)
    requires i < |folders| && j < |folders| && Covers(folders[i], p, rule) && Covers(folders[j], p, rule)
    ensures i == j
  {
    CoversChain(folders[i], folders[j], p, rule);
  }

  /** A root joined with what is below it is the path again: exactly under the exact rule, and up to
      the spelling of the root under the other. */
  lemma JoinRebuilds(root: Path, p: Path, rule: CaseRule)
    requires Covers(root, p, rule) && Split(p)
    ensures var again := Join(root, p[|root|..]);
            && |again| == |p| && forall i :: 0 <= i < |p| ==> Same(again[i], p[i], rule)
    ensures rule.Exact? ==> Join(root, p[|root|..]) == p
  {
  }

  // Extending paths that do not overlap cannot make them overlap.
  lemma ApartBelow(a: Path, b: Path, a': Path, b': Path, rule: CaseRule)
    requires !Overlap(a, b, rule) && a <= a' && b <= b'
    ensures !Overlap(a', b', rule)
  {
    if Covers(a', b', rule) {
      if |a| <= |b| { assert Covers(a, b, rule); } else { assert Covers(b, a, rule); }
    }
    if Covers(b', a', rule) {
      if |a| <= |b| { assert Covers(a, b, rule); } else { assert Covers(b, a, rule); }
    }
  }
}
