/**
 Measuring a directory with an explicit stack: the sum of the file sizes and the number of files
 below it, whatever order each directory lists its entries in, or an error if anything below it
 cannot be read.
 */
module DirWalk {
  import opened Common

  type Name = nat

  // What lies under a path. Links and special files are neither followed nor counted.
  datatype Entry =
    | Regular(len: nat)
    | Directory(children: map<Name, Entry>)
    | Special
    | Unreadable

  datatype Measure = Measured(bytes: nat, items: nat) | Unknown

  // One unknown part makes the whole unknown.
  function Add(a: Measure, b: Measure): Measure {
    match (a, b)
    case (Measured(b1, i1), Measured(b2, i2)) => Measured(b1 + b2, i1 + i2)
    case _ => Unknown
  }

  ghost function Size(e: Entry): Measure
    decreases e, 1
  {
    match e
    case Regular(len) => Measured(len, 1)
    case Directory(children) => SizeOf(e, children.Keys)
    case Special => Measured(0, 0)
    case Unreadable => Unknown
  }

  /** The named children of a directory together. */
  ghost function SizeOf(e: Entry, names: set<Name>): Measure
    requires e.Directory? && names <= e.children.Keys
    decreases e, 0, |names|
  {
    if names == {} then Measured(0, 0)
    else
      var name :| name in names;
      Add(Size(e.children[name]), SizeOf(e, names - {name}))
  }

  lemma AddSwap(a: Measure, b: Measure, c: Measure)
    ensures Add(a, Add(b, c)) == Add(b, Add(a, c)) && Add(Add(a, b), c) == Add(a, Add(b, c))
  {
  }

  lemma {:induction false} SizeSplit(e: Entry, names: set<Name>, name: Name)
    requires e.Directory? && names <= e.children.Keys && name in names
    ensures SizeOf(e, names) == Add(Size(e.children[name]), SizeOf(e, names - {name}))
    decreases |names|
  {
    var first :| first in names && SizeOf(e, names) == Add(Size(e.children[first]), SizeOf(e, names - {first}));
    if first != name {
      SizeSplit(e, names - {first}, name);
      SizeSplit(e, names - {name}, first);
      assert names - {first} - {name} == names - {name} - {first};
      AddSwap(Size(e.children[first]), Size(e.children[name]), SizeOf(e, names - {first} - {name}));
    }
  }

  // The sum reads nothing but the named children.
  lemma {:induction false} SameChildren(c: map<Name, Entry>, d: map<Name, Entry>, names: set<Name>)
    requires names <= c.Keys && names <= d.Keys && forall name <- names :: c[name] == d[name]
    ensures SizeOf(Directory(c), names) == SizeOf(Directory(d), names)
    decreases |names|
  {
    if names != {} {
      var name :| name in names;
      SizeSplit(Directory(c), names, name);
      SizeSplit(Directory(d), names, name);
      SameChildren(c, d, names - {name});
    }
  }

  lemma SizeMore(children: map<Name, Entry>, name: Name, e: Entry)
    requires name !in children
    ensures Size(Directory(children[name := e])) == Add(Size(e), Size(Directory(children)))
  {
    var more := children[name := e];
    assert Directory(more).children == more && more.Keys - {name} == children.Keys;
    SizeSplit(Directory(more), more.Keys, name);
    SameChildren(children, more, children.Keys);
  }

  /** What is measured, entry by entry: nothing in an empty directory; a file adds its length and one item,
      a subdirectory what is in it, a link or special file nothing; what cannot be read leaves the whole
      unknown. */
  lemma OneMoreEntry(children: map<Name, Entry>, name: Name, e: Entry)
    requires name !in children
    ensures children == map[] ==> Size(Directory(children)) == Measured(0, 0)
    ensures var before, after := Size(Directory(children)), Size(Directory(children[name := e]));
            match before
            case Unknown => after.Unknown?
            case Measured(bytes, items) =>
              match e
              case Regular(len) => after == Measured(bytes + len, items + 1)
              case Special => after == Measured(bytes, items)
              case Unreadable => after.Unknown?
              case Directory(_) =>
                if Size(e).Unknown? then after.Unknown? else after == Measured(bytes + Size(e).bytes, items + Size(e).items)
  {
    SizeMore(children, name, e);
    if children == map[] { assert Directory(children).children.Keys == {}; }
  }

  // ---- The walk ---------------------------------------------------------------------------

  ghost function Pending(stack: seq<Entry>): Measure {
    if stack == [] then Measured(0, 0) else Add(Size(stack[|stack| - 1]), Pending(stack[..|stack| - 1]))
  }

  // Entries still to be visited, directories themselves included.
  ghost function Weight(e: Entry): nat
    decreases e, 1
  {
    if e.Directory? then 1 + WeightOf(e, e.children.Keys) else 0
  }

  ghost function WeightOf(e: Entry, names: set<Name>): nat
    requires e.Directory? && names <= e.children.Keys
    decreases e, 0, |names|
  {
    if names == {} then 0
    else
      var name :| name in names;
      Weight(e.children[name]) + WeightOf(e, names - {name})
  }

  lemma {:induction false} WeightSplit(e: Entry, names: set<Name>, name: Name)
    requires e.Directory? && names <= e.children.Keys && name in names
    ensures WeightOf(e, names) == Weight(e.children[name]) + WeightOf(e, names - {name})
    decreases |names|
  {
    var first :| first in names && WeightOf(e, names) == Weight(e.children[first]) + WeightOf(e, names - {first});
    if first != name {
      WeightSplit(e, names - {first}, name);
      WeightSplit(e, names - {name}, first);
      assert names - {first} - {name} == names - {name} - {first};
    }
  }

  ghost function StackWeight(stack: seq<Entry>): nat {
    if stack == [] then 0 else Weight(stack[|stack| - 1]) + StackWeight(stack[..|stack| - 1])
  }

  lemma Popped(stack: seq<Entry>)
    requires stack != []
    ensures Pending(stack) == Add(Size(stack[|stack| - 1]), Pending(stack[..|stack| - 1]))
    ensures StackWeight(stack) == Weight(stack[|stack| - 1]) + StackWeight(stack[..|stack| - 1])
  {
  }

  lemma Pushed(stack: seq<Entry>, e: Entry)
    ensures Pending(stack + [e]) == Add(Size(e), Pending(stack))
    ensures StackWeight(stack + [e]) == Weight(e) + StackWeight(stack)
  {
    assert (stack + [e])[..|stack|] == stack;
  }

  // A directory read entry by entry, in an order nothing is known about.
  method ReadDirectory(dir: Entry, stack: seq<Entry>, bytes: nat, items: nat)
    returns (ok: bool, stack': seq<Entry>, bytes': nat, items': nat)
    requires dir.Directory? && forall e <- stack :: e.Directory?
    ensures ok ==>
              && (forall e <- stack' :: e.Directory?)
              && Add(Measured(bytes', items'), Pending(stack')) == Add(Measured(bytes, items), Add(Size(dir), Pending(stack)))
              && StackWeight(stack') == StackWeight(stack) + Weight(dir) - 1
    ensures !ok ==> Size(dir).Unknown?
  {
    ok, stack', bytes', items' := true, stack, bytes, items;
    var left := dir.children.Keys;
    while left != {}
      invariant left <= dir.children.Keys && forall e <- stack' :: e.Directory?
      invariant Add(Measured(bytes', items'), Add(SizeOf(dir, left), Pending(stack')))
             == Add(Measured(bytes, items), Add(Size(dir), Pending(stack)))
      invariant StackWeight(stack') + WeightOf(dir, left) == StackWeight(stack) + Weight(dir) - 1
      invariant SizeOf(dir, left).Unknown? ==> Size(dir).Unknown?
      decreases |left|
    {
      var name :| name in left;
      var e := dir.children[name];
      SizeSplit(dir, left, name);
      WeightSplit(dir, left, name);
      match e {
        case Directory(_) =>
          Pushed(stack', e);
          AddSwap(Size(e), SizeOf(dir, left - {name}), Pending(stack'));
          stack' := stack' + [e];
        case Regular(len) => bytes', items' := bytes' + len, items' + 1;
        case Special =>
        case Unreadable => return false, stack', bytes', items';
      }
      left := left - {name};
    }
  }

  /** The loop returns what the recursive sum does, for every tree: a missing path is empty, a path
      that is no directory cannot be read. */
  method DirSize(path: Option<Entry>) returns (size: Measure)
    ensures path.None? ==> size == Measured(0, 0)
    ensures path.Some? && path.value.Directory? ==> size == Size(path.value)
    ensures path.Some? && !path.value.Directory? ==> size == Unknown
  {
    if path.None? { return Measured(0, 0); }
    if !path.value.Directory? { return Unknown; }
    size := Walk([path.value]);
    OnlyRoot(path.value);
  }

  // Pop a directory and read it.
  method Visit(stack: seq<Entry>, bytes: nat, items: nat)
    returns (ok: bool, stack': seq<Entry>, bytes': nat, items': nat)
    requires stack != [] && forall e <- stack :: e.Directory?
    ensures ok ==> forall e <- stack' :: e.Directory?
    ensures ok ==> Add(Measured(bytes', items'), Pending(stack')) == Add(Measured(bytes, items), Pending(stack))
    ensures ok ==> StackWeight(stack') < StackWeight(stack)
    ensures !ok ==> Pending(stack).Unknown?
  {
    Popped(stack);
    ok, stack', bytes', items' := ReadDirectory(stack[|stack| - 1], stack[..|stack| - 1], bytes, items);
  }

  method Walk(start: seq<Entry>) returns (size: Measure)
    requires forall e <- start :: e.Directory?
    ensures size == Pending(start)
  {
    var stack, bytes, items := start, 0, 0;
    Nothing(Pending(start));
    while stack != []
      invariant forall e <- stack :: e.Directory?
      invariant Add(Measured(bytes, items), Pending(stack)) == Pending(start)
      decreases StackWeight(stack)
    {
      var ok;
      ok, stack, bytes, items := Visit(stack, bytes, items);
      if !ok { return Unknown; }
    }
    Nothing(Measured(bytes, items));
    size := Measured(bytes, items);
  }

  lemma Nothing(m: Measure)
    ensures Add(m, Measured(0, 0)) == m && Add(Measured(0, 0), m) == m
  {
  }

  lemma OnlyRoot(root: Entry)
    ensures Pending([root]) == Size(root)
  {
    Popped([root]);
    Nothing(Size(root));
  }
}
