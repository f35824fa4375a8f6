/** What the task queue promises over whole runs, for any sequence of calls and a clock that never goes back. */
module QueueOrder {
  import opened TaskQueues

  /** A queued job. Identifiers are handed out in the order of the insertions. */
  datatype Job = Job(id: nat, front: bool, added: int, delay: int)

  /** How a job left the queue; a popped job records the clock and how many jobs had been inserted by then. */
  datatype Exit =
    | Popped(job: Job, at: int, inserted: nat)
    | Removed(job: Job)

  datatype Run = Run(now: int, inserted: nat, ops: seq<Entry<Job>>, exits: seq<Exit>)

  datatype Call =
    | CallAdd(delay: int, tag: Tag)
    | CallAddFront(tag: Tag)
    | CallPop
    | CallRemove(tag: Tag)
    | Elapse(ticks: nat)

  const Fresh: Run := Run(0, 0, [], [])

  function Removals(q: seq<Entry<Job>>, tag: Tag): seq<Exit> {
    if q == [] then []
    else if q[0].tag == tag then [Removed(q[0].task)] + Removals(q[1..], tag)
    else Removals(q[1..], tag)
  }

  function Step(r: Run, c: Call): Run {
    match c
    case CallAdd(delay, tag) =>
      r.(ops := AddTask(r.ops, r.now, Job(r.inserted, false, r.now, delay), delay, tag), inserted := r.inserted + 1)
    case CallAddFront(tag) =>
      r.(ops := AddFront(r.ops, r.now, Job(r.inserted, true, r.now, 0), tag), inserted := r.inserted + 1)
    case CallPop =>
      if Ready(r.ops, r.now)
      then r.(ops := r.ops[1..], exits := r.exits + [Popped(r.ops[0].task, r.now, r.inserted)])
      else r
    case CallRemove(tag) =>
      if tag == NULL_TAG then r
      else r.(ops := RemoveTag(r.ops, tag), exits := r.exits + Removals(r.ops, tag))
    case Elapse(ticks) => r.(now := r.now + ticks)
  }

  function Play(calls: seq<Call>): Run {
    if calls == [] then Fresh else Step(Play(calls[..|calls| - 1]), calls[|calls| - 1])
  }

  // ---------------------------------------------------------------------------
  // What every run keeps
  // ---------------------------------------------------------------------------

  function Due(j: Job): int {
    j.added + Max(0, j.delay)
  }

  /** Jobs the queue must never let overtake a: those inserted later with a delay no smaller. */
  predicate InOrder(a: Job, b: Job) {
    !a.front && !b.front && a.id < b.id && Max(0, a.delay) <= Max(0, b.delay)
  }

  predicate EntryOk(e: Entry<Job>, now: int, inserted: nat) {
    && e.task.id < inserted
    && e.task.added <= now
    && (if e.task.front then e.time < e.task.added else e.time == Due(e.task))
  }

  /** Relation of an element to one behind it: earlier, or a front insertion made later, or first come first served. */
  predicate PairOk(a: Entry<Job>, b: Entry<Job>) {
    && a.time <= b.time
    && (b.task.front ==> a.task.front && b.task.id < a.task.id)
    && (!a.task.front && !b.task.front && a.time == b.time ==> a.task.id < b.task.id)
  }

  predicate InsertionOrder(a: Job, b: Job) {
    && a.id != b.id
    && (a.id < b.id ==> a.added <= b.added)
    && (b.id < a.id ==> b.added <= a.added)
  }

  predicate QueueOk(q: seq<Entry<Job>>, now: int, inserted: nat) {
    && (forall i :: 0 <= i < |q| ==> EntryOk(q[i], now, inserted))
    && (forall i, j :: 0 <= i < j < |q| ==> PairOk(q[i], q[j]) && InsertionOrder(q[i].task, q[j].task))
  }

  /** A job that left the queue, seen from one still in it. */
  predicate ExitOk(x: Exit, queued: Job) {
    x.Popped? ==>
      && !InOrder(queued, x.job)
      && !(queued.front && x.job.id < queued.id < x.inserted)
  }

  predicate Promptness(x: Exit) {
    x.Popped? && !x.job.front ==> Due(x.job) <= x.at
  }

  /** How often an identifier occurs in the queue, and among the jobs that left it. */
  function Count(q: seq<Entry<Job>>, id: nat): nat {
    if q == [] then 0 else (if q[0].task.id == id then 1 else 0) + Count(q[1..], id)
  }

  function ExitCount(xs: seq<Exit>, id: nat): nat {
    if xs == [] then 0 else (if xs[0].job.id == id then 1 else 0) + ExitCount(xs[1..], id)
  }

  ghost predicate ExitsOk(r: Run) {
    forall k :: 0 <= k < |r.exits| ==>
      && r.exits[k].job.id < r.inserted
      && (r.exits[k].Popped? ==> r.exits[k].inserted <= r.inserted)
      && Promptness(r.exits[k])
  }

  ghost predicate NoneOvertaken(r: Run) {
    forall k, i :: 0 <= k < |r.exits| && 0 <= i < |r.ops| ==> ExitOk(r.exits[k], r.ops[i].task)
  }

  predicate OneFate(r: Run, id: nat) {
    Count(r.ops, id) + ExitCount(r.exits, id) == if id < r.inserted then 1 else 0
  }

  ghost predicate Invariant(r: Run) {
    && QueueOk(r.ops, r.now, r.inserted)
    && ExitsOk(r)
    && NoneOvertaken(r)
    && (forall id: nat :: OneFate(r, id))
  }

  lemma {:induction false} InsertCounts(q: seq<Entry<Job>>, e: Entry<Job>, id: nat)
    ensures Count(Insert(q, e), id) == Count(q, id) + if e.task.id == id then 1 else 0
  {
    if q != [] && q[0].time <= e.time {
      InsertCounts(q[1..], e, id);
    } else {
      assert ([e] + q)[1..] == q;
    }
  }

  lemma {:induction false} ExitCountSplit(a: seq<Exit>, b: seq<Exit>, id: nat)
    ensures ExitCount(a + b, id) == ExitCount(a, id) + ExitCount(b, id)
  {
    if a == [] {
      assert a + b == b;
    } else {
      ExitCountSplit(a[1..], b, id);
      assert (a + b)[1..] == a[1..] + b;
    }
  }

  lemma {:induction false} RemovalCounts(q: seq<Entry<Job>>, tag: Tag, id: nat)
    ensures Count(RemoveTag(q, tag), id) + ExitCount(Removals(q, tag), id) == Count(q, id)
  {
    if q != [] {
      RemovalCounts(q[1..], tag, id);
    }
  }

  lemma {:induction false} RemovalsComeFrom(q: seq<Entry<Job>>, tag: Tag, x: Exit)
    requires x in Removals(q, tag)
    ensures x.Removed? && exists i :: 0 <= i < |q| && q[i].task == x.job
  {
    if q[0].tag == tag && x == Removed(q[0].task) {
      assert q[0].task == x.job;
    } else {
      RemovalsComeFrom(q[1..], tag, x);
      var i :| 0 <= i < |q[1..]| && q[1..][i].task == x.job;
      assert q[i + 1].task == x.job;
    }
  }

  lemma {:induction false} KeptComesFrom(q: seq<Entry<Job>>, tag: Tag, i: nat) returns (k: nat)
    requires i < |RemoveTag(q, tag)|
    ensures k < |q| && RemoveTag(q, tag)[i] == q[k]
  {
    if q[0].tag != tag && i == 0 {
      k := 0;
    } else {
      var below := KeptComesFrom(q[1..], tag, if q[0].tag == tag then i else i - 1);
      k := below + 1;
    }
  }

  /** Removing by tag keeps the other elements, in their order. */
  lemma {:induction false} RemoveKeepsOrder(q: seq<Entry<Job>>, tag: Tag, now: int, inserted: nat)
    requires QueueOk(q, now, inserted)
    ensures QueueOk(RemoveTag(q, tag), now, inserted)
  {
    if q != [] {
      RemoveKeepsOrder(q[1..], tag, now, inserted);
      var rest := RemoveTag(q[1..], tag);
      forall j | 0 <= j < |rest| ensures PairOk(q[0], rest[j]) && InsertionOrder(q[0].task, rest[j].task) {
        var k := KeptComesFrom(q[1..], tag, j);
        assert q[k + 1] == rest[j];
      }
    }
  }

  /** A queue stays well ordered when an element that fits between its two halves is put there. */
  lemma SpliceKeepsQueue(q: seq<Entry<Job>>, e: Entry<Job>, k: nat, now: int, inserted: nat)
    requires QueueOk(q, now, inserted) && k <= |q|
    requires e.task.id == inserted && EntryOk(e, now, inserted + 1) && e.task.added == now
    requires forall i :: 0 <= i < k ==> PairOk(q[i], e)
    requires forall i :: k <= i < |q| ==> PairOk(e, q[i])
    ensures QueueOk(q[..k] + [e] + q[k..], now, inserted + 1)
  {
    var s := q[..k] + [e] + q[k..];
    forall i, j | 0 <= i < j < |s| ensures PairOk(s[i], s[j]) && InsertionOrder(s[i].task, s[j].task) {
      if i < k && j < k {
        assert PairOk(q[i], q[j]) && InsertionOrder(q[i].task, q[j].task);
      } else if i < k && k < j {
        assert PairOk(q[i], q[j - 1]) && InsertionOrder(q[i].task, q[j - 1].task);
      } else if k < i {
        assert PairOk(q[i - 1], q[j - 1]) && InsertionOrder(q[i - 1].task, q[j - 1].task);
      } else if i == k {
        assert EntryOk(q[j - 1], now, inserted);
      } else {
        assert EntryOk(q[i], now, inserted);
      }
    }
    forall i | 0 <= i < |s| ensures EntryOk(s[i], now, inserted + 1) {
      assert i < k ==> EntryOk(q[i], now, inserted);
      assert i > k ==> EntryOk(q[i - 1], now, inserted);
    }
  }

  /** Where Insert splits the queue. */
  lemma {:induction false} InsertSplits(q: seq<Entry<Job>>, e: Entry<Job>) returns (k: nat)
    requires forall i, j :: 0 <= i < j < |q| ==> q[i].time <= q[j].time
    ensures InsertionPoint(q, e, k) && Insert(q, e) == q[..k] + [e] + q[k..]
  {
    k := 0;
    while k < |q| && q[k].time <= e.time
      invariant 0 <= k <= |q|
      invariant forall i :: 0 <= i < k ==> q[i].time <= e.time
    {
      k := k + 1;
    }
    InsertAt(q, e, k);
  }

  lemma QueueIsSorted(q: seq<Entry<Job>>, now: int, inserted: nat)
    requires QueueOk(q, now, inserted)
    ensures forall i, j :: 0 <= i < j < |q| ==> q[i].time <= q[j].time
  {
    forall i, j | 0 <= i < j < |q| ensures q[i].time <= q[j].time {
      assert PairOk(q[i], q[j]);
    }
  }

  lemma AddKeepsInvariant(r: Run, delay: int, tag: Tag)
    requires Invariant(r)
    ensures Invariant(Step(r, CallAdd(delay, tag)))
  {
    var e := Entry(r.now + Max(0, delay), Job(r.inserted, false, r.now, delay), tag);
    QueueIsSorted(r.ops, r.now, r.inserted);
    var k := InsertSplits(r.ops, e);
    forall i | 0 <= i < |r.ops| ensures if i < k then PairOk(r.ops[i], e) else PairOk(e, r.ops[i]) {
      assert EntryOk(r.ops[i], r.now, r.inserted);
    }
    SpliceKeepsQueue(r.ops, e, k, r.now, r.inserted);
    InsertionKeepsExits(r, e, k);
  }

  lemma AddFrontKeepsInvariant(r: Run, tag: Tag)
    requires Invariant(r)
    ensures Invariant(Step(r, CallAddFront(tag)))
  {
    var e := Entry(FrontTime(r.ops, r.now), Job(r.inserted, true, r.now, 0), tag);
    QueueIsSorted(r.ops, r.now, r.inserted);
    assert InsertionPoint(r.ops, e, 0);
    InsertAt(r.ops, e, 0);
    forall i | 0 <= i < |r.ops| ensures PairOk(e, r.ops[i]) {
      assert EntryOk(r.ops[i], r.now, r.inserted);
    }
    SpliceKeepsQueue(r.ops, e, 0, r.now, r.inserted);
    InsertionKeepsExits(r, e, 0);
  }

  /** Jobs that have left are not affected by a new one: its identifier is larger than all they compare with. */
  lemma InsertionKeepsExits(r: Run, e: Entry<Job>, k: nat)
    requires Invariant(r) && InsertionPoint(r.ops, e, k) && e.task.id == r.inserted
    ensures var r' := r.(ops := Insert(r.ops, e), inserted := r.inserted + 1);
            ExitsOk(r') && NoneOvertaken(r') && forall id: nat :: OneFate(r', id)
  {
    InsertAt(r.ops, e, k);
    var r' := r.(ops := Insert(r.ops, e), inserted := r.inserted + 1);
    forall x, i | 0 <= x < |r'.exits| && 0 <= i < |r'.ops| ensures ExitOk(r'.exits[x], r'.ops[i].task) {
      if i < k {
        assert ExitOk(r.exits[x], r.ops[i].task);
      } else if i > k {
        assert ExitOk(r.exits[x], r.ops[i - 1].task);
      }
    }
    forall id: nat ensures OneFate(r', id) {
      assert OneFate(r, id);
      InsertCounts(r.ops, e, id);
    }
  }

  lemma PopKeepsInvariant(r: Run)
    requires Invariant(r)
    ensures Invariant(Step(r, CallPop))
  {
    if Ready(r.ops, r.now) {
      var r' := Step(r, CallPop);
      var x := Popped(r.ops[0].task, r.now, r.inserted);
      assert EntryOk(r.ops[0], r.now, r.inserted);
      forall i | 0 <= i < |r'.ops| ensures ExitOk(x, r'.ops[i].task) {
        assert PairOk(r.ops[0], r.ops[i + 1]) && InsertionOrder(r.ops[0].task, r.ops[i + 1].task);
        assert EntryOk(r.ops[i + 1], r.now, r.inserted);
      }
      forall k, i | 0 <= k < |r.exits| && 0 <= i < |r'.ops| ensures ExitOk(r.exits[k], r'.ops[i].task) {
        assert ExitOk(r.exits[k], r.ops[i + 1].task);
      }
      forall id: nat ensures OneFate(r', id) {
        assert OneFate(r, id);
        ExitCountSplit(r.exits, [x], id);
      }
    }
  }

  lemma RemoveKeepsInvariant(r: Run, tag: Tag)
    requires Invariant(r)
    ensures Invariant(Step(r, CallRemove(tag)))
  {
    if tag != NULL_TAG {
      var r' := Step(r, CallRemove(tag));
      var gone := Removals(r.ops, tag);
      RemoveKeepsOrder(r.ops, tag, r.now, r.inserted);
      forall k | 0 <= k < |gone| ensures gone[k].Removed? && gone[k].job.id < r.inserted {
        RemovalsComeFrom(r.ops, tag, gone[k]);
        var i :| 0 <= i < |r.ops| && r.ops[i].task == gone[k].job;
        assert EntryOk(r.ops[i], r.now, r.inserted);
      }
      forall k, i | 0 <= k < |r'.exits| && 0 <= i < |r'.ops| ensures ExitOk(r'.exits[k], r'.ops[i].task) {
        var j := KeptComesFrom(r.ops, tag, i);
        if k < |r.exits| {
          assert ExitOk(r.exits[k], r.ops[j].task);
        } else {
          assert r'.exits[k] == gone[k - |r.exits|];
        }
      }
      forall id: nat ensures OneFate(r', id) {
        assert OneFate(r, id);
        RemovalCounts(r.ops, tag, id);
        ExitCountSplit(r.exits, gone, id);
      }
    }
  }

  lemma {:induction false} PlayKeepsInvariant(calls: seq<Call>)
    ensures Invariant(Play(calls))
  {
    if calls != [] {
      var r := Play(calls[..|calls| - 1]);
      PlayKeepsInvariant(calls[..|calls| - 1]);
      match calls[|calls| - 1]
      case CallAdd(delay, tag) => AddKeepsInvariant(r, delay, tag);
      case CallAddFront(tag) => AddFrontKeepsInvariant(r, tag);
      case CallPop => PopKeepsInvariant(r);
      case CallRemove(tag) => RemoveKeepsInvariant(r, tag);
      case Elapse(ticks) =>
        var r' := Step(r, Elapse(ticks));
        forall i | 0 <= i < |r'.ops| ensures EntryOk(r'.ops[i], r'.now, r'.inserted) {
          assert EntryOk(r.ops[i], r.now, r.inserted);
        }
        forall id: nat ensures OneFate(r', id) {
          assert OneFate(r, id);
        }
    }
  }

  // ---------------------------------------------------------------------------
  // The promises
  // ---------------------------------------------------------------------------

  predicate Queued(r: Run, j: Job) {
    exists i :: 0 <= i < |r.ops| && r.ops[i].task == j
  }

  /** No job runs before its delay is over. */
  lemma NeverEarly(calls: seq<Call>, x: Exit)
    requires x in Play(calls).exits && x.Popped? && !x.job.front
    ensures x.job.added + x.job.delay <= x.at && x.job.added <= x.at
  {
    PlayKeepsInvariant(calls);
    assert Promptness(x);
  }

  /**
   * First come, first served: once a job has been popped, no earlier insertion whose delay
   * was no larger is still in the queue, whatever front insertions were made in between.
   */
  lemma NeverOvertaken(calls: seq<Call>, x: Exit, j: Job)
    requires x in Play(calls).exits && x.Popped? && Queued(Play(calls), j)
    ensures !x.job.front && !j.front && j.id < x.job.id ==> Max(0, j.delay) > Max(0, x.job.delay)
  {
    PlayKeepsInvariant(calls);
    var r := Play(calls);
    var k :| 0 <= k < |r.exits| && r.exits[k] == x;
    var i :| 0 <= i < |r.ops| && r.ops[i].task == j;
    assert ExitOk(r.exits[k], r.ops[i].task);
  }

  /** A front insertion leaves before everything that was in the queue when it was made. */
  lemma FrontGoesFirst(calls: seq<Call>, x: Exit, j: Job)
    requires x in Play(calls).exits && x.Popped? && Queued(Play(calls), j) && j.front
    ensures j.id < x.job.id || x.inserted <= j.id
  {
    PlayKeepsInvariant(calls);
    var r := Play(calls);
    var k :| 0 <= k < |r.exits| && r.exits[k] == x;
    var i :| 0 <= i < |r.ops| && r.ops[i].task == j;
    assert ExitOk(r.exits[k], r.ops[i].task);
    QueuedCounts(r.ops, i);
    ExitCounts(r.exits, k);
    assert OneFate(r, j.id);
  }

  lemma {:induction false} QueuedCounts(q: seq<Entry<Job>>, i: nat)
    requires i < |q|
    ensures Count(q, q[i].task.id) >= 1
  {
    if i > 0 {
      QueuedCounts(q[1..], i - 1);
    }
  }

  lemma {:induction false} ExitCounts(xs: seq<Exit>, k: nat)
    requires k < |xs|
    ensures ExitCount(xs, xs[k].job.id) >= 1
  {
    if k > 0 {
      ExitCounts(xs[1..], k - 1);
    }
  }

  /** Every inserted job is in exactly one place: still queued, popped once, or removed once. */
  lemma ExactlyOneFate(calls: seq<Call>, id: nat)
    ensures Count(Play(calls).ops, id) + ExitCount(Play(calls).exits, id) ==
            if id < Play(calls).inserted then 1 else 0
  {
    PlayKeepsInvariant(calls);
    assert OneFate(Play(calls), id);
  }
}
