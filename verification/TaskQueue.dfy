/** The time-ordered queue behind the agent's task thread. */
module TaskQueues {
  import opened Sequences

  datatype Option<+T> = None | Some(value: T)

  /** A tag is an object's address; the null tag marks a task that can never be removed. */
  type Tag = nat
  const NULL_TAG: Tag := 0

  /** One multimap element: the time a task becomes due, the task, and its tag. */
  datatype Entry<T> = Entry(time: int, task: T, tag: Tag)

  function Max(a: int, b: int): int {
    if a < b then b else a
  }

  predicate Sorted<T>(q: seq<Entry<T>>) {
    forall i, j :: 0 <= i < j < |q| ==> q[i].time <= q[j].time
  }

  /** Multimap insertion: behind every element whose time is not larger. */
  function Insert<T>(q: seq<Entry<T>>, e: Entry<T>): seq<Entry<T>> {
    if q == [] then [e]
    else if e.time < q[0].time then [e] + q
    else [q[0]] + Insert(q[1..], e)
  }

  function AddTask<T>(q: seq<Entry<T>>, now: int, task: T, delay: int, tag: Tag): seq<Entry<T>> {
    Insert(q, Entry(now + Max(0, delay), task, tag))
  }

  /** The time given to a front insertion: one tick before both the clock and the earliest element. */
  function FrontTime<T>(q: seq<Entry<T>>, now: int): int {
    if q == [] || now < q[0].time then now - 1 else q[0].time - 1
  }

  function AddFront<T>(q: seq<Entry<T>>, now: int, task: T, tag: Tag): seq<Entry<T>> {
    Insert(q, Entry(FrontTime(q, now), task, tag))
  }

  predicate Ready<T>(q: seq<Entry<T>>, now: int) {
    q != [] && q[0].time <= now
  }

  function RemoveTag<T>(q: seq<Entry<T>>, tag: Tag): seq<Entry<T>> {
    if q == [] then []
    else if q[0].tag == tag then RemoveTag(q[1..], tag)
    else [q[0]] + RemoveTag(q[1..], tag)
  }

  predicate HasTag<T>(q: seq<Entry<T>>, tag: Tag) {
    tag != NULL_TAG && exists i :: 0 <= i < |q| && q[i].tag == tag
  }

  // ---------------------------------------------------------------------------
  // The queue object
  // ---------------------------------------------------------------------------

  /** Where insertion puts an element: after exactly the elements that are due no later. */
  ghost predicate InsertionPoint<T>(q: seq<Entry<T>>, e: Entry<T>, k: nat) {
    && k <= |q|
    && (forall i :: 0 <= i < k ==> q[i].time <= e.time)
    && (forall i :: k <= i < |q| ==> e.time < q[i].time)
  }

  lemma {:induction false} InsertAt<T>(q: seq<Entry<T>>, e: Entry<T>, k: nat)
    requires InsertionPoint(q, e, k)
    ensures Insert(q, e) == q[..k] + [e] + q[k..]
  {
    if k > 0 {
      InsertAt(q[1..], e, k - 1);
      assert q[..k] == [q[0]] + q[1..][..k - 1];
      assert q[k..] == q[1..][k - 1..];
    } else if q != [] {
      assert e.time < q[0].time;
    }
  }

  /** One step of the loop that removes a tag: the element at it is erased or passed. */
  lemma RemoveTagStep<T>(q: seq<Entry<T>>, it: nat, tag: Tag)
    requires it < |q|
    ensures q[it].tag == tag ==> (q[..it] + q[it + 1..])[..it] == q[..it] && (q[..it] + q[it + 1..])[it..] == q[it + 1..]
    ensures q[..it] + RemoveTag(q[it..], tag)
         == if q[it].tag == tag then q[..it] + RemoveTag(q[it + 1..], tag) else q[..it + 1] + RemoveTag(q[it + 1..], tag)
  {
    assert q[it..][1..] == q[it + 1..];
    if q[it].tag != tag {
      assert q[..it + 1] == q[..it] + [q[it]];
      Associates(q[..it], [q[it]], RemoveTag(q[it + 1..], tag));
    }
  }

  lemma {:induction false} RemoveTagSorted<T>(q: seq<Entry<T>>, tag: Tag)
    requires Sorted(q)
    ensures Sorted(RemoveTag(q, tag))
    ensures q != [] ==> forall i :: 0 <= i < |RemoveTag(q, tag)| ==> q[0].time <= RemoveTag(q, tag)[i].time
  {
    if q != [] {
      RemoveTagSorted(q[1..], tag);
      assert q[1..] != [] ==> q[0].time <= q[1..][0].time;
    }
  }

  class TaskQueue<T(==)> {
    /** The multimap, in iteration order. */
    var ops: seq<Entry<T>>

    ghost predicate Valid()
      reads this
    {
      Sorted(ops)
    }

    constructor ()
      ensures Valid() && ops == []
    {
      ops := [];
    }

    /** Stands for the multimap's emplace. */
    method Emplace(e: Entry<T>)
      requires Valid()
      modifies this
      ensures Valid() && ops == Insert(old(ops), e)
    {
      var k := 0;
      while k < |ops| && ops[k].time <= e.time
        invariant 0 <= k <= |ops|
        invariant forall i :: 0 <= i < k ==> ops[i].time <= e.time
      {
        k := k + 1;
      }
      InsertAt(ops, e, k);
      ops := ops[..k] + [e] + ops[k..];
    }

    method Add(task: T, delay: int, tag: Tag, now: int)
      requires Valid()
      modifies this
      ensures Valid() && ops == AddTask(old(ops), now, task, delay, tag)
    {
      var adjustedDelay := Max(0, delay);
      Emplace(Entry(now + adjustedDelay, task, tag));
    }

    /** None stands for the largest time point. */
    method NextTime() returns (t: Option<int>)
      requires Valid()
      ensures t.None? <==> ops == []
      ensures t.Some? ==> t.value == ops[0].time && forall i :: 0 <= i < |ops| ==> t.value <= ops[i].time
    {
      t := if ops == [] then None else Some(ops[0].time);
    }

    method PushFront(task: T, tag: Tag, now: int)
      requires Valid()
      modifies this
      ensures Valid() && ops == AddFront(old(ops), now, task, tag)
    {
      var earliest := NextTime();
      var opTime;
      if earliest.None? || now < earliest.value {
        opTime := now - 1;
      } else {
        opTime := earliest.value - 1;
      }
      Emplace(Entry(opTime, task, tag));
    }

    method PopNextReady(now: int) returns (r: Option<Entry<T>>)
      requires Valid()
      modifies this
      ensures Valid()
      ensures r.Some? <==> Ready(old(ops), now)
      ensures r.Some? ==> [r.value] + ops == old(ops)
      ensures r.None? ==> ops == old(ops)
    {
      r := None;
      if ops != [] && ops[0].time <= now {
        r := Some(ops[0]);
        ops := ops[1..];
      }
    }

    method Remove(tag: Tag)
      requires Valid()
      modifies this
      ensures Valid()
      ensures ops == if tag == NULL_TAG then old(ops) else RemoveTag(old(ops), tag)
    {
      if tag != NULL_TAG {
        var it := 0;
        while it < |ops|
          invariant 0 <= it <= |ops|
          invariant ops[..it] + RemoveTag(ops[it..], tag) == RemoveTag(old(ops), tag)
          decreases |ops| - it
        {
          RemoveTagStep(ops, it, tag);
          if ops[it].tag == tag {
            ops := ops[..it] + ops[it + 1..];
          } else {
            it := it + 1;
          }
        }
        assert ops[..it] + [] == ops;
        RemoveTagSorted(old(ops), tag);
      }
    }

    method Exists(tag: Tag) returns (found: bool)
      requires Valid()
      ensures found <==> HasTag(ops, tag)
    {
      found := false;
      if tag != NULL_TAG {
        var i := 0;
        while i < |ops| && !found
          invariant 0 <= i <= |ops|
          invariant found <==> exists j :: 0 <= j < i && ops[j].tag == tag
        {
          found := ops[i].tag == tag;
          i := i + 1;
        }
      }
    }
  }
}
