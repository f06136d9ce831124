/**
 One bounded priority queue. The items are kept so that popping the back serves the highest
 priority and, among equals, the oldest. The specification a caller sees is `arrivals`, the
 waiting jobs in the order they came: pushing appends, popping takes the first job of the
 greatest priority.
 */
module BoundedQueues {
  import opened Common
  import opened Jobs

  // Index of the first arrival whose priority no other arrival exceeds.
  function Best(arrivals: seq<Job>): (b: nat)
    requires arrivals != []
    ensures b < |arrivals|
    ensures forall i :: 0 <= i < |arrivals| ==> arrivals[i].priority <= arrivals[b].priority
    ensures forall i :: 0 <= i < b ==> arrivals[i].priority < arrivals[b].priority
  {
    var n := |arrivals| - 1;
    if n == 0 then 0
    else
      var b := Best(arrivals[..n]);
      if arrivals[b].priority < arrivals[n].priority then n else b
  }

  // The jobs of one priority, in order.
  ghost function Class(s: seq<Job>, p: nat): seq<Job> {
    if s == [] then []
    else Class(s[..|s| - 1], p) + if s[|s| - 1].priority == p then [s[|s| - 1]] else []
  }

  ghost predicate Ascending(s: seq<Job>) {
    forall i, j :: 0 <= i < j < |s| ==> s[i].priority <= s[j].priority
  }

  /** `items` holds the arrivals: sorted towards the back, and per priority newest first. */
  ghost predicate Holds(items: seq<Job>, arrivals: seq<Job>) {
    && Ascending(items)
    && forall p :: Reversed(Class(items, p)) == Class(arrivals, p)
  }

  lemma {:induction false} ClassConcat(a: seq<Job>, b: seq<Job>, p: nat)
    ensures Class(a + b, p) == Class(a, p) + Class(b, p)
  {
    if b == [] {
      assert a + b == a;
    } else {
      var b' := b[..|b| - 1];
      assert (a + b)[..|a + b| - 1] == a + b';
      ClassConcat(a, b', p);
    }
  }

  lemma {:induction false} ReversedConcat(a: seq<Job>, b: seq<Job>)
    ensures Reversed(a + b) == Reversed(b) + Reversed(a)
  {
    if b == [] {
      assert a + b == a;
    } else {
      assert (a + b)[..|a + b| - 1] == a + b[..|b| - 1];
      ReversedConcat(a, b[..|b| - 1]);
    }
  }

  lemma ReversedSingle(j: Job)
    ensures Reversed([j]) == [j]
  {
    assert Reversed([j][..0]) == [];
  }

  lemma {:induction false} ReversedLength(s: seq<Job>)
    ensures |Reversed(s)| == |s|
  {
    if s != [] { ReversedLength(s[..|s| - 1]); }
  }

  lemma {:induction false} ClassEmpty(s: seq<Job>, p: nat)
    requires forall i :: 0 <= i < |s| ==> s[i].priority != p
    ensures Class(s, p) == []
  {
    if s != [] { ClassEmpty(s[..|s| - 1], p); }
  }

  lemma {:induction false} ClassNonEmpty(s: seq<Job>, i: nat)
    requires i < |s|
    ensures Class(s, s[i].priority) != []
  {
    if i < |s| - 1 { ClassNonEmpty(s[..|s| - 1], i); }
  }

  lemma SingleClass(j: Job, p: nat)
    ensures Class([j], p) == if j.priority == p then [j] else []
  {
    assert [j][..0] == [];
  }

  // Inserting behind everything of equal or higher priority keeps each class...
  lemma PushClass(low: seq<Job>, high: seq<Job>, j: Job, p: nat)
    requires forall i :: 0 <= i < |low| ==> low[i].priority < j.priority
    ensures Reversed(Class(low + [j] + high, p)) == Reversed(Class(low + high, p)) + Class([j], p)
  {
    ClassConcat(low + [j], high, p);
    ClassConcat(low, [j], p);
    ClassConcat(low, high, p);
    SingleClass(j, p);
    if p == j.priority {
      ClassEmpty(low, p);
      assert Class(low + high, p) == Class(high, p);
      assert Class(low + [j] + high, p) == [j] + Class(high, p);
      ReversedConcat([j], Class(high, p));
      ReversedSingle(j);
    } else {
      assert Class(low + [j] + high, p) == Class(low + high, p);
    }
  }

  // ...and the order, hence the correspondence with the arrivals.
  lemma PushHolds(items: seq<Job>, arrivals: seq<Job>, j: Job, at: nat)
    requires Holds(items, arrivals)
    requires at <= |items|
    requires forall i :: 0 <= i < at ==> items[i].priority < j.priority
    requires forall i :: at <= i < |items| ==> j.priority <= items[i].priority
    ensures Holds(items[..at] + [j] + items[at..], arrivals + [j])
  {
    var low, high := items[..at], items[at..];
    assert Ascending(low + [j] + high);
    forall p ensures Reversed(Class(low + [j] + high, p)) == Class(arrivals + [j], p) {
      assert low + high == items;
      PushClass(low, high, j, p);
      ClassConcat(arrivals, [j], p);
    }
  }

  // The back of the items is the first best arrival.
  lemma BackIsBest(items: seq<Job>, arrivals: seq<Job>)
    requires Holds(items, arrivals) && items != []
    ensures arrivals != [] && items[|items| - 1] == arrivals[Best(arrivals)]
  {
    var last := items[|items| - 1];
    var p := last.priority;
    assert Class(arrivals, p) == [last] + Reversed(Class(items[..|items| - 1], p)) by {
      ReversedAppend(Class(items[..|items| - 1], p), last);
    }
    assert arrivals != [];
    BestPriority(items, arrivals);
    var b := Best(arrivals);
    assert arrivals == arrivals[..b] + [arrivals[b]] + arrivals[b + 1..];
    FirstOfClass(arrivals[..b], arrivals[b], arrivals[b + 1..]);
    assert Class(arrivals, p)[0] == arrivals[b];
  }

  lemma BestPriority(items: seq<Job>, arrivals: seq<Job>)
    requires Holds(items, arrivals) && items != [] && arrivals != []
    ensures arrivals[Best(arrivals)].priority == items[|items| - 1].priority
  {
    var p, q := items[|items| - 1].priority, arrivals[Best(arrivals)].priority;
    if p > q {
      ClassEmpty(arrivals, p);
      ClassNonEmpty(items, |items| - 1);
      ReversedLength(Class(items, p));
    } else if p < q {
      ClassEmpty(items, q);
      ClassNonEmpty(arrivals, Best(arrivals));
    }
  }

  lemma FirstOfClass(early: seq<Job>, j: Job, late: seq<Job>)
    requires forall i :: 0 <= i < |early| ==> early[i].priority != j.priority
    ensures Class(early + [j] + late, j.priority) == [j] + Class(late, j.priority)
  {
    ClassConcat(early + [j], late, j.priority);
    ClassConcat(early, [j], j.priority);
    ClassEmpty(early, j.priority);
    SingleClass(j, j.priority);
  }

  lemma PopSameClass(front: seq<Job>, last: Job, early: seq<Job>, late: seq<Job>)
    requires forall i :: 0 <= i < |early| ==> early[i].priority != last.priority
    requires Reversed(Class(front + [last], last.priority)) == Class(early + [last] + late, last.priority)
    ensures Reversed(Class(front, last.priority)) == Class(early + late, last.priority)
  {
    var p := last.priority;
    ClassConcat(front, [last], p);
    ReversedAppend(Class(front, p), last);
    SingleClass(last, p);
    ClassConcat(early, late, p);
    ClassEmpty(early, p);
    FirstOfClass(early, last, late);
    assert ([last] + Reversed(Class(front, p)))[1..] == ([last] + Class(late, p))[1..];
  }

  lemma PopOtherClass(front: seq<Job>, last: Job, early: seq<Job>, late: seq<Job>, p: nat)
    requires p != last.priority
    requires Reversed(Class(front + [last], p)) == Class(early + [last] + late, p)
    ensures Reversed(Class(front, p)) == Class(early + late, p)
  {
    ClassConcat(front, [last], p);
    SingleClass(last, p);
    assert Class(front + [last], p) == Class(front, p);
    ClassConcat(early + [last], late, p);
    ClassConcat(early, [last], p);
    assert Class(early + [last], p) == Class(early, p);
    ClassConcat(early, late, p);
  }

  lemma PopHolds(items: seq<Job>, arrivals: seq<Job>)
    requires Holds(items, arrivals) && items != []
    ensures arrivals != []
    ensures Holds(items[..|items| - 1], Without(arrivals, Best(arrivals)))
  {
    BackIsBest(items, arrivals);
    var b := Best(arrivals);
    var front, last := items[..|items| - 1], items[|items| - 1];
    var early, late := arrivals[..b], arrivals[b + 1..];
    assert items == front + [last] && arrivals == early + [last] + late;
    forall p ensures Reversed(Class(front, p)) == Class(early + late, p) {
      PopClass(front, last, early, late, p);
    }
  }

  lemma PopClass(front: seq<Job>, last: Job, early: seq<Job>, late: seq<Job>, p: nat)
    requires forall i :: 0 <= i < |early| ==> early[i].priority < last.priority
    requires Reversed(Class(front + [last], p)) == Class(early + [last] + late, p)
    ensures Reversed(Class(front, p)) == Class(early + late, p)
  {
    if p == last.priority {
      PopSameClass(front, last, early, late);
    } else {
      PopOtherClass(front, last, early, late, p);
    }
  }

  lemma {:induction false} HoldsLength(items: seq<Job>, arrivals: seq<Job>)
    requires Holds(items, arrivals)
    ensures |items| == |arrivals|
    decreases |items|
  {
    if items == [] {
      if arrivals != [] {
        ClassNonEmpty(arrivals, 0);
        assert Class(items, arrivals[0].priority) == [];
        assert false;
      }
    } else {
      PopHolds(items, arrivals);
      HoldsLength(items[..|items| - 1], Without(arrivals, Best(arrivals)));
    }
  }

  class BoundedQueue {
    const capacity: nat
    var items: seq<Job>
    ghost var arrivals: seq<Job>

    ghost predicate Valid()
      reads this
    {
      Holds(items, arrivals) && |items| == |arrivals| <= capacity
    }

    constructor (capacity: nat)
      ensures Valid() && this.capacity == capacity && arrivals == []
    {
      this.capacity := capacity;
      items := [];
      arrivals := [];
    }

    method IsFull() returns (full: bool)
      requires Valid()
      ensures full <==> |arrivals| == capacity
    {
      full := |items| >= capacity;
    }

    method Push(job: Job)
      requires Valid() && |arrivals| < capacity
      modifies this
      ensures Valid()
      ensures arrivals == old(arrivals) + [job]
    {
      var at := 0;
      var i := |items|;
      while i > 0
        invariant 0 <= i <= |items|
        invariant at == 0
        invariant forall k :: i <= k < |items| ==> job.priority <= items[k].priority
        invariant items == old(items) && arrivals == old(arrivals)
      {
        if items[i - 1].priority < job.priority {
          at := i;
          break;
        }
        i := i - 1;
      }
      PushHolds(items, arrivals, job, at);
      items := items[..at] + [job] + items[at..];
      arrivals := arrivals + [job];
    }

    method Pop() returns (job: Option<Job>)
      requires Valid()
      modifies this
      ensures Valid()
      ensures old(arrivals) == [] ==> job == None && arrivals == []
      ensures old(arrivals) != [] ==>
                && job == Some(old(arrivals)[Best(old(arrivals))])
                && arrivals == Without(old(arrivals), Best(old(arrivals)))
    {
      if items == [] {
        job := None;
      } else {
        PopHolds(items, arrivals);
        BackIsBest(items, arrivals);
        job := Some(items[|items| - 1]);
        items := items[..|items| - 1];
        arrivals := Without(arrivals, Best(arrivals));
      }
    }
  }
}
