/** The download's queue seen by kind of task: what insertion, removal and popping do to each kind. */
module EngineQueue {
  import opened TaskQueues
  import opened Engine

  datatype Kind = KUpdate | KRetry | KTransient | KAlreadyDone | KCheck | KCall

  function KindOf(t: Task): Kind {
    match t
    case Headers(_) => KUpdate
    case Data(_) => KUpdate
    case Done => KUpdate
    case Failed(_) => KUpdate
    case Retry => KRetry
    case TransientRetry => KTransient
    case AlreadyDone => KAlreadyDone
    case Check => KCheck
    case Call(_, _) => KCall
  }

  function TagOf(k: Kind): Tag {
    match k
    case KCheck => TRACKER_TAG
    case KCall => NULL_TAG
    case _ => DOWNLOAD_TAG
  }

  /** The queued tasks of one kind, in queue order. */
  function Select(q: seq<Entry<Task>>, k: Kind): seq<Task> {
    if q == [] then []
    else if KindOf(q[0].task) == k then [q[0].task] + Select(q[1..], k)
    else Select(q[1..], k)
  }

  /** Kinds that are never scheduled into the future. */
  predicate Immediate(k: Kind) {
    k in {KUpdate, KAlreadyDone, KCall}
  }

  /** The longest delay a kind of task is scheduled with. */
  function Latest(k: Kind): int {
    if Immediate(k) then 0
    else if k == KCheck then CHECK_INTERVAL
    else if k == KTransient then TRANSIENT_RETRY_DELAY
    else MAX_RETRY_DELAY
  }

  predicate EntryOk(e: Entry<Task>, now: int) {
    && e.tag == TagOf(KindOf(e.task))
    && e.time <= now + Latest(KindOf(e.task))
  }

  /** Anything ahead of an AlreadyDone task is a caller's operation or another one. */
  predicate Shielded(q: seq<Entry<Task>>) {
    forall i, j :: 0 <= i < j < |q| && q[j].task == AlreadyDone ==> KindOf(q[i].task) in {KAlreadyDone, KCall}
  }

  predicate QueueOk(q: seq<Entry<Task>>, now: int) {
    && Sorted(q)
    && (forall i :: 0 <= i < |q| ==> EntryOk(q[i], now))
    && Shielded(q)
  }

  lemma {:induction false} SelectSplit(a: seq<Entry<Task>>, b: seq<Entry<Task>>, k: Kind)
    ensures Select(a + b, k) == Select(a, k) + Select(b, k)
  {
    if a == [] {
      assert a + b == b;
    } else {
      SelectSplit(a[1..], b, k);
      assert (a + b)[1..] == a[1..] + b;
    }
  }

  lemma {:induction false} SelectNone(q: seq<Entry<Task>>, k: Kind)
    requires forall i :: 0 <= i < |q| ==> KindOf(q[i].task) != k
    ensures Select(q, k) == []
  {
    if q != [] {
      SelectNone(q[1..], k);
    }
  }

  lemma {:induction false} SelectSome(q: seq<Entry<Task>>, k: Kind, i: nat)
    requires i < |q| && KindOf(q[i].task) == k
    ensures Select(q, k) != [] && q[i].task in Select(q, k)
  {
    if i > 0 {
      SelectSome(q[1..], k, i - 1);
    }
  }

  lemma {:induction false} SelectedIsQueued(q: seq<Entry<Task>>, k: Kind, t: Task) returns (i: nat)
    requires t in Select(q, k)
    ensures i < |q| && q[i].task == t && KindOf(t) == k
  {
    if KindOf(q[0].task) == k && q[0].task == t {
      i := 0;
    } else {
      var below := SelectedIsQueued(q[1..], k, t);
      i := below + 1;
    }
  }

  /** Where an element goes. */
  lemma {:induction false} Place(q: seq<Entry<Task>>, e: Entry<Task>) returns (k: nat)
    requires Sorted(q)
    ensures InsertionPoint(q, e, k) && Insert(q, e) == q[..k] + [e] + q[k..]
  {
    k := 0;
    while k < |q| && q[k].time <= e.time
      invariant 0 <= k <= |q|
      invariant forall i :: 0 <= i < k ==> q[i].time <= e.time
    {
      k := k + 1;
    }
    InsertAt(q, e, k);
  }

  lemma AddTaskSelects(q: seq<Entry<Task>>, now: int, task: Task, delay: int, k: Kind)
    requires QueueOk(q, now)
    ensures var q' := AddTask(q, now, task, delay, TagOf(KindOf(task)));
            && (KindOf(task) != k ==> Select(q', k) == Select(q, k))
            && (KindOf(task) == k && Immediate(k) ==> Select(q', k) == Select(q, k) + [task])
            && (KindOf(task) == k ==> |Select(q', k)| == |Select(q, k)| + 1)
  {
    var e := Entry(now + Max(0, delay), task, TagOf(KindOf(task)));
    var p := Place(q, e);
    SelectSplit(q[..p] + [e], q[p..], k);
    SelectSplit(q[..p], [e], k);
    SelectSplit(q[..p], q[p..], k);
    assert q[..p] + q[p..] == q;
    if KindOf(task) == k && Immediate(k) {
      forall i | 0 <= i < |q[p..]| ensures KindOf(q[p..][i].task) != k {
        assert EntryOk(q[p + i], now);
      }
      SelectNone(q[p..], k);
    }
  }

  lemma AddTaskKeepsQueue(q: seq<Entry<Task>>, now: int, task: Task, delay: int)
    requires QueueOk(q, now) && task != AlreadyDone && delay <= Latest(KindOf(task))
    ensures QueueOk(AddTask(q, now, task, delay, TagOf(KindOf(task))), now)
  {
    var e := Entry(now + Max(0, delay), task, TagOf(KindOf(task)));
    var p := Place(q, e);
    forall i | p <= i < |q| ensures q[i].task != AlreadyDone {
      assert EntryOk(q[i], now);
    }
    SpliceKeepsQueue(q, now, e, p);
  }

  lemma SpliceKeepsQueue(q: seq<Entry<Task>>, now: int, e: Entry<Task>, p: nat)
    requires QueueOk(q, now) && EntryOk(e, now) && e.task != AlreadyDone && InsertionPoint(q, e, p)
    requires forall i :: p <= i < |q| ==> q[i].task != AlreadyDone
    ensures QueueOk(q[..p] + [e] + q[p..], now)
  {
    var q' := q[..p] + [e] + q[p..];
    assert Shielded(q');
    assert Sorted(q');
    forall i | 0 <= i < |q'| ensures EntryOk(q'[i], now) {
      assert i < p ==> EntryOk(q[i], now);
      assert i > p ==> EntryOk(q[i - 1], now);
    }
  }

  lemma AddFrontKeepsQueue(q: seq<Entry<Task>>, now: int, task: Task)
    requires QueueOk(q, now) && KindOf(task) in {KAlreadyDone, KCall}
    ensures AddFront(q, now, task, TagOf(KindOf(task))) == [Entry(FrontTime(q, now), task, TagOf(KindOf(task)))] + q
    ensures QueueOk(AddFront(q, now, task, TagOf(KindOf(task))), now)
  {
    var e := Entry(FrontTime(q, now), task, TagOf(KindOf(task)));
    assert InsertionPoint(q, e, 0);
    InsertAt(q, e, 0);
    var q' := [e] + q;
    assert Insert(q, e) == q';
    forall i | 0 <= i < |q'| ensures EntryOk(q'[i], now) {
      assert i > 0 ==> EntryOk(q[i - 1], now);
    }
  }

  lemma PopKeepsQueue(q: seq<Entry<Task>>, now: int)
    requires QueueOk(q, now) && q != []
    ensures QueueOk(q[1..], now)
  {
  }

  lemma {:induction false} RemoveSelects(q: seq<Entry<Task>>, now: int, tag: Tag, k: Kind)
    requires forall i :: 0 <= i < |q| ==> EntryOk(q[i], now)
    ensures Select(RemoveTag(q, tag), k) == if TagOf(k) == tag then [] else Select(q, k)
  {
    if q != [] {
      assert EntryOk(q[0], now);
      RemoveSelects(q[1..], now, tag, k);
    }
  }

  lemma {:induction false} KeptComesFrom(q: seq<Entry<Task>>, tag: Tag)
    ensures forall e :: e in RemoveTag(q, tag) ==> e in q && e.tag != tag
  {
    if q != [] {
      KeptComesFrom(q[1..], tag);
    }
  }

  lemma {:induction false} RemoveKeepsQueue(q: seq<Entry<Task>>, now: int, tag: Tag)
    requires QueueOk(q, now) && tag != NULL_TAG
    ensures QueueOk(RemoveTag(q, tag), now)
  {
    if q != [] {
      RemoveKeepsQueue(q[1..], now, tag);
      KeptComesFrom(q[1..], tag);
      var rest := RemoveTag(q[1..], tag);
      forall j | 0 <= j < |rest|
        ensures q[0].time <= rest[j].time && (rest[j].task == AlreadyDone ==> KindOf(q[0].task) in {KAlreadyDone, KCall})
      {
        assert rest[j] in q[1..];
        var i :| 0 <= i < |q[1..]| && q[1..][i] == rest[j];
        assert q[i + 1] == rest[j];
      }
    }
  }

  lemma TrackerTagIsCheck(q: seq<Entry<Task>>, now: int)
    requires QueueOk(q, now)
    ensures HasTag(q, TRACKER_TAG) <==> Select(q, KCheck) != []
  {
    if HasTag(q, TRACKER_TAG) {
      var i :| 0 <= i < |q| && q[i].tag == TRACKER_TAG;
      assert EntryOk(q[i], now);
      SelectSome(q, KCheck, i);
    }
    if Select(q, KCheck) != [] {
      var i := SelectedIsQueued(q, KCheck, Select(q, KCheck)[0]);
      assert EntryOk(q[i], now);
    }
  }

  // ---------------------------------------------------------------------------
  // The download's own tasks
  // ---------------------------------------------------------------------------

  /** What is queued for the download, by kind; callers' operations are left out. */
  datatype Contents = Contents(
    updates: seq<Task>, retries: nat, transients: nat, alreadyDone: nat, checks: nat)

  const EMPTY := Contents([], 0, 0, 0, 0)

  function ContentsOf(q: seq<Entry<Task>>): Contents {
    Contents(Select(q, KUpdate), |Select(q, KRetry)|, |Select(q, KTransient)|,
             |Select(q, KAlreadyDone)|, |Select(q, KCheck)|)
  }

  function With(c: Contents, t: Task): Contents {
    match KindOf(t)
    case KUpdate => c.(updates := c.updates + [t])
    case KRetry => c.(retries := c.retries + 1)
    case KTransient => c.(transients := c.transients + 1)
    case KAlreadyDone => c.(alreadyDone := c.alreadyDone + 1)
    case KCheck => c.(checks := c.checks + 1)
    case KCall => c
  }

  /** Updates are served first in, first out, whatever timers are queued with them. */
  lemma AddTaskContents(q: seq<Entry<Task>>, now: int, task: Task, delay: int)
    requires QueueOk(q, now) && task != AlreadyDone && delay <= Latest(KindOf(task))
    ensures QueueOk(AddTask(q, now, task, delay, TagOf(KindOf(task))), now)
    ensures ContentsOf(AddTask(q, now, task, delay, TagOf(KindOf(task)))) == With(ContentsOf(q), task)
  {
    AddTaskKeepsQueue(q, now, task, delay);
    AddTaskSelects(q, now, task, delay, KUpdate);
    AddTaskSelects(q, now, task, delay, KRetry);
    AddTaskSelects(q, now, task, delay, KTransient);
    AddTaskSelects(q, now, task, delay, KAlreadyDone);
    AddTaskSelects(q, now, task, delay, KCheck);
  }

  lemma AddFrontContents(q: seq<Entry<Task>>, now: int, task: Task)
    requires QueueOk(q, now) && KindOf(task) in {KAlreadyDone, KCall}
    ensures QueueOk(AddFront(q, now, task, TagOf(KindOf(task))), now)
    ensures ContentsOf(AddFront(q, now, task, TagOf(KindOf(task)))) == With(ContentsOf(q), task)
  {
    AddFrontKeepsQueue(q, now, task);
    var e := Entry(FrontTime(q, now), task, TagOf(KindOf(task)));
    assert ([e] + q)[1..] == q;
  }

  /** Popping: an update popped is the oldest one. */
  lemma PopContents(q: seq<Entry<Task>>, now: int)
    requires QueueOk(q, now) && q != []
    ensures QueueOk(q[1..], now)
    ensures KindOf(q[0].task) != KUpdate ==> ContentsOf(q) == With(ContentsOf(q[1..]), q[0].task)
    ensures KindOf(q[0].task) == KUpdate ==>
              ContentsOf(q) == ContentsOf(q[1..]).(updates := [q[0].task] + ContentsOf(q[1..]).updates)
  {
    PopKeepsQueue(q, now);
  }

  /** Cancelling leaves nothing of the download in the queue. */
  lemma CancelContents(q: seq<Entry<Task>>, now: int)
    requires QueueOk(q, now)
    ensures var q' := RemoveTag(RemoveTag(q, DOWNLOAD_TAG), TRACKER_TAG);
            QueueOk(q', now) && ContentsOf(q') == EMPTY
  {
    var q1 := RemoveTag(q, DOWNLOAD_TAG);
    RemoveKeepsQueue(q, now, DOWNLOAD_TAG);
    RemoveKeepsQueue(q1, now, TRACKER_TAG);
    forall k | k != KCall ensures Select(RemoveTag(q1, TRACKER_TAG), k) == [] {
      RemoveSelects(q, now, DOWNLOAD_TAG, k);
      RemoveSelects(q1, now, TRACKER_TAG, k);
    }
  }
}
