/**
 * How a caller resumes a download safely: pause it, ask for its status, and start it once the answer has come.
 * Start, Pause and Abort jump the queue; the status request goes behind every update that is still queued.
 */
module EngineStatus {
  import opened TaskQueues
  import opened Engine
  import opened EngineQueue
  import opened EngineSafety
  import opened EngineHistory
  import opened EngineResume
  import opened EnginePromises

  // ---------------------------------------------------------------------------
  // Tickets
  // ---------------------------------------------------------------------------

  predicate HasTicket(t: Task, ticket: nat) {
    t.Call? && t.ticket == ticket
  }

  predicate TicketsOk(w: World) {
    && (forall e :: e in w.queue && e.task.Call? ==> e.task.ticket < w.tickets)
    && (forall t :: t in w.replies ==> t < w.tickets)
  }

  lemma {:induction false} InsertMembers(q: seq<Entry<Task>>, e: Entry<Task>)
    ensures forall x :: x in Insert(q, e) <==> x in q || x == e
  {
    if q != [] && q[0].time <= e.time {
      InsertMembers(q[1..], e);
    }
  }

  /** The calls in z's queue were in w's queue. */
  predicate NoNewCalls(w: World, z: World) {
    && (forall e :: e in z.queue && e.task.Call? ==> e in w.queue)
    && z.tickets == w.tickets && z.replies == w.replies
  }

  lemma ScheduleAddsNoCall(w: World, task: Task, delay: int, tag: Tag)
    requires !task.Call?
    ensures NoNewCalls(w, Schedule(w, task, delay, tag))
  {
    InsertMembers(w.queue, Entry(w.now + Max(0, delay), task, tag));
  }

  lemma CancelAddsNoCall(w: World)
    ensures NoNewCalls(w, CancelTasks(w))
  {
    KeptComesFrom(w.queue, DOWNLOAD_TAG);
    KeptComesFrom(RemoveTag(w.queue, DOWNLOAD_TAG), TRACKER_TAG);
  }

  lemma SendAddsNoCall(w: World, env: Env, retry: bool)
    ensures NoNewCalls(w, SendRequest(w, env, retry))
  {
    ScheduleAddsNoCall(w, Check, CHECK_INTERVAL, TRACKER_TAG);
  }

  lemma ResumeAddsNoCall(w: World, env: Env)
    ensures NoNewCalls(w, Resume(w, env))
  {
    InsertMembers(w.queue, Entry(FrontTime(w.queue, w.now), AlreadyDone, DOWNLOAD_TAG));
    SendAddsNoCall(Reconfigured(w, env), env, false);
  }

  lemma PerformAddsNoCall(w: World, op: Operation, env: Env)
    ensures NoNewCalls(w, Perform(w, op, env))
  {
    match op
    case Start =>
      if State(w) == Created {
        SendAddsNoCall(Configured(w, env), env, false);
      } else {
        ResumeAddsNoCall(w, env);
      }
    case Pause =>
    case GetStatus =>
    case _ => CancelAddsNoCall(w);
  }

  lemma FailureAddsNoCall(w: World, f: Failure, env: Env)
    ensures NoNewCalls(w, OnFailed(w, f, env))
  {
    ScheduleAddsNoCall(w, TransientRetry, TRANSIENT_RETRY_DELAY, DOWNLOAD_TAG);
    ScheduleAddsNoCall(w, Retry, RetryDelay(w, f), DOWNLOAD_TAG);
  }

  lemma ExecuteAddsNoCall(w: World, task: Task, env: Env)
    requires !task.Call?
    ensures NoNewCalls(w, Execute(w, task, env))
  {
    match task
    case Failed(f) => FailureAddsNoCall(w, f, env);
    case Retry => SendAddsNoCall(w, env, true);
    case TransientRetry =>
      SendAddsNoCall(w, env, false);
      ScheduleAddsNoCall(w, TransientRetry, TRANSIENT_RETRY_DELAY, DOWNLOAD_TAG);
    case Check => ScheduleAddsNoCall(w, Check, CHECK_INTERVAL, TRACKER_TAG);
    case _ =>
  }

  lemma CurlAddsNoCall(w: World, e: Event)
    requires Enabled(w, e) && !e.Submit? && !e.RunNext?
    ensures NoNewCalls(w, Next(w, e))
  {
    if e.Respond? {
      ScheduleAddsNoCall(w, Headers(e.total), 0, DOWNLOAD_TAG);
    } else if e.Deliver? {
      ScheduleAddsNoCall(w, Data(|e.bytes|), 0, DOWNLOAD_TAG);
    } else if e.Finish? {
      ScheduleAddsNoCall(w, Done, 0, DOWNLOAD_TAG);
    } else if e.Fail? {
      ScheduleAddsNoCall(w, Failed(e.failure), 0, DOWNLOAD_TAG);
    }
  }

  lemma NextKeepsTickets(w: World, e: Event)
    requires TicketsOk(w) && Enabled(w, e)
    ensures TicketsOk(Next(w, e)) && w.tickets <= Next(w, e).tickets
  {
    if e.Submit? {
      var call := Call(e.operation, w.tickets);
      InsertMembers(w.queue, Entry(w.now + Max(0, 0), call, NULL_TAG));
      InsertMembers(w.queue, Entry(FrontTime(w.queue, w.now), call, NULL_TAG));
    } else if e.RunNext? {
      var p := w.(queue := w.queue[1..]);
      var task := w.queue[0].task;
      assert w.queue[0] in w.queue;
      if task.Call? {
        PerformAddsNoCall(p, task.operation, e.env);
      } else {
        ExecuteAddsNoCall(p, task, e.env);
      }
    } else {
      CurlAddsNoCall(w, e);
    }
  }

  lemma {:induction false} RunsKeepTickets(w: World, events: seq<Event>, z: World)
    requires TicketsOk(w) && RunsTo(w, events, z)
    ensures TicketsOk(z)
    decreases |events|
  {
    if events != [] {
      NextKeepsTickets(w, events[0]);
      RunsKeepTickets(Next(w, events[0]), events[1..], z);
    }
  }

  // ---------------------------------------------------------------------------
  // Updates behind a marker
  // ---------------------------------------------------------------------------

  predicate HasMarker(q: seq<Entry<Task>>, ticket: nat) {
    exists i :: 0 <= i < |q| && HasTicket(q[i].task, ticket)
  }

  /** The updates queued behind the call that holds the ticket. */
  function Behind(q: seq<Entry<Task>>, ticket: nat): seq<Task> {
    if q == [] then []
    else if HasTicket(q[0].task, ticket) then Select(q[1..], KUpdate)
    else Behind(q[1..], ticket)
  }

  /** Once the marker has been passed, no update is left; until then, none is behind it. */
  predicate Draining(q: seq<Entry<Task>>, ticket: nat) {
    if HasMarker(q, ticket) then Behind(q, ticket) == [] else Select(q, KUpdate) == []
  }

  lemma {:induction false} NoMarkerNothingBehind(q: seq<Entry<Task>>, ticket: nat)
    requires !HasMarker(q, ticket)
    ensures Behind(q, ticket) == []
  {
    if q != [] {
      assert !HasTicket(q[0].task, ticket);
      assert forall i :: 0 <= i < |q[1..]| ==> q[1..][i] == q[i + 1];
      NoMarkerNothingBehind(q[1..], ticket);
    }
  }

  lemma {:induction false} NonUpdateInsertSelects(q: seq<Entry<Task>>, e: Entry<Task>)
    requires KindOf(e.task) != KUpdate
    ensures Select(Insert(q, e), KUpdate) == Select(q, KUpdate)
  {
    if q != [] && q[0].time <= e.time {
      NonUpdateInsertSelects(q[1..], e);
    } else {
      assert ([e] + q)[1..] == q;
    }
  }

  lemma {:induction false} InsertBehind(q: seq<Entry<Task>>, e: Entry<Task>, ticket: nat)
    requires KindOf(e.task) != KUpdate && !HasTicket(e.task, ticket)
    ensures Behind(Insert(q, e), ticket) == Behind(q, ticket)
  {
    if q != [] && q[0].time <= e.time {
      InsertBehind(q[1..], e, ticket);
      NonUpdateInsertSelects(q[1..], e);
    } else {
      assert ([e] + q)[1..] == q;
    }
  }

  lemma InsertMarker(q: seq<Entry<Task>>, e: Entry<Task>, ticket: nat)
    requires !HasTicket(e.task, ticket)
    ensures HasMarker(Insert(q, e), ticket) <==> HasMarker(q, ticket)
  {
    InsertMembers(q, e);
    if HasMarker(q, ticket) {
      var i :| 0 <= i < |q| && HasTicket(q[i].task, ticket);
      assert q[i] in Insert(q, e);
      var j :| 0 <= j < |Insert(q, e)| && Insert(q, e)[j] == q[i];
      assert HasTicket(Insert(q, e)[j].task, ticket);
    }
    if HasMarker(Insert(q, e), ticket) {
      var i :| 0 <= i < |Insert(q, e)| && HasTicket(Insert(q, e)[i].task, ticket);
      assert Insert(q, e)[i] in q;
      var j :| 0 <= j < |q| && q[j] == Insert(q, e)[i];
      assert HasTicket(q[j].task, ticket);
    }
  }

  /** Timers and other calls may be queued meanwhile. */
  lemma InsertKeepsDraining(q: seq<Entry<Task>>, e: Entry<Task>, ticket: nat)
    requires Draining(q, ticket) && KindOf(e.task) != KUpdate && !HasTicket(e.task, ticket)
    ensures Draining(Insert(q, e), ticket)
  {
    InsertMarker(q, e, ticket);
    InsertBehind(q, e, ticket);
    NonUpdateInsertSelects(q, e);
  }

  lemma PopKeepsDraining(q: seq<Entry<Task>>, ticket: nat)
    requires Draining(q, ticket) && q != []
    ensures Draining(q[1..], ticket)
  {
    if HasTicket(q[0].task, ticket) {
      assert HasMarker(q, ticket);
      var tail := q[1..];
      if HasMarker(tail, ticket) {
        NothingBehindInTail(tail, ticket);
      }
    } else {
      assert HasMarker(q, ticket) <==> HasMarker(q[1..], ticket) by {
        if HasMarker(q, ticket) {
          var i :| 0 <= i < |q| && HasTicket(q[i].task, ticket);
          assert HasTicket(q[1..][i - 1].task, ticket);
        }
        if HasMarker(q[1..], ticket) {
          var i :| 0 <= i < |q[1..]| && HasTicket(q[1..][i].task, ticket);
          assert HasTicket(q[i + 1].task, ticket);
        }
      }
    }
  }

  lemma {:induction false} NothingBehindInTail(q: seq<Entry<Task>>, ticket: nat)
    requires Select(q, KUpdate) == []
    ensures Behind(q, ticket) == []
  {
    if q != [] {
      NothingBehindInTail(q[1..], ticket);
    }
  }

  /** An entry that is due now goes behind every update. */
  lemma NoUpdateFromPlace(q: seq<Entry<Task>>, now: int, e: Entry<Task>, k: nat)
    requires QueueOk(q, now) && e.time == now && InsertionPoint(q, e, k)
    ensures Select(q[k..], KUpdate) == []
  {
    forall i | 0 <= i < |q[k..]| ensures KindOf(q[k..][i].task) != KUpdate {
      assert EntryOk(q[k + i], now);
    }
    SelectNone(q[k..], KUpdate);
  }

  lemma MarkerGoesBehind(q: seq<Entry<Task>>, now: int, e: Entry<Task>, ticket: nat)
    requires QueueOk(q, now) && e.time == now && HasTicket(e.task, ticket)
    requires forall i :: 0 <= i < |q| ==> !HasTicket(q[i].task, ticket)
    ensures Draining(Insert(q, e), ticket)
  {
    var k := Place(q, e);
    NoUpdateFromPlace(q, now, e, k);
    BehindAt(q[..k], e, q[k..], ticket);
    var z := q[..k] + ([e] + q[k..]);
    assert Insert(q, e) == z;
    assert HasTicket(z[k].task, ticket) && HasMarker(z, ticket);
  }

  /** The status request is put behind every update queued so far. */
  lemma StatusGoesBehind(w: World)
    requires QueueOk(w.queue, w.now) && TicketsOk(w)
    ensures Draining(Next(w, Submit(GetStatus)).queue, w.tickets)
  {
    forall i | 0 <= i < |w.queue| ensures !HasTicket(w.queue[i].task, w.tickets) {
      assert w.queue[i] in w.queue;
    }
    MarkerGoesBehind(w.queue, w.now, Entry(w.now + Max(0, 0), Call(GetStatus, w.tickets), NULL_TAG), w.tickets);
  }

  lemma {:induction false} BehindAt(a: seq<Entry<Task>>, e: Entry<Task>, b: seq<Entry<Task>>, ticket: nat)
    requires HasTicket(e.task, ticket)
    requires forall i :: 0 <= i < |a| ==> !HasTicket(a[i].task, ticket)
    ensures Behind(a + ([e] + b), ticket) == Select(b, KUpdate)
  {
    if a == [] {
      assert a + ([e] + b) == [e] + b;
      assert ([e] + b)[1..] == b;
    } else {
      assert (a + ([e] + b))[1..] == a[1..] + ([e] + b);
      assert a[0] == (a + ([e] + b))[0];
      BehindAt(a[1..], e, b, ticket);
    }
  }

  // ---------------------------------------------------------------------------
  // While no request is sent
  // ---------------------------------------------------------------------------

  /** No request is running, and the updates are being worked off. */
  predicate Settling(w: World, ticket: nat) {
    && Safe(w) && ticket < w.tickets && w.agent == Idle
    && (!IsFinal(State(w)) ==> Draining(w.queue, ticket))
  }

  lemma SendGrowsLog(w: World, env: Env, retry: bool)
    ensures |SendRequest(w, env, retry).log| == |w.log| + 1
  {
  }

  lemma PerformSettles(p: World, op: Operation, env: Env, ticket: nat)
    requires Safe(p) && p.agent == Idle && (!IsFinal(State(p)) ==> Draining(p.queue, ticket))
    requires |Perform(p, op, env).log| == |p.log|
    ensures var z := Perform(p, op, env); z.agent == Idle && (!IsFinal(State(z)) ==> Draining(z.queue, ticket))
  {
    if op == Start && Accepts(State(p), op, env.canOpen) {
      SendGrowsLog(Configured(p, env), env, false);
      SendGrowsLog(Reconfigured(p, env), env, false);
      if State(p) == Paused {
        InsertKeepsDraining(p.queue, Entry(FrontTime(p.queue, p.now), AlreadyDone, DOWNLOAD_TAG), ticket);
      }
    }
  }

  lemma TimerSettles(p: World, task: Task, env: Env, ticket: nat)
    requires p.agent == Idle && Draining(p.queue, ticket) && !task.Call? && !task.Failed?
    requires |Execute(p, task, env).log| == |p.log|
    ensures Execute(p, task, env).agent == Idle && Draining(Execute(p, task, env).queue, ticket)
  {
    match task
    case Retry => SendGrowsLog(p, env, true);
    case TransientRetry =>
      SendGrowsLog(p, env, false);
      InsertKeepsDraining(p.queue, Entry(p.now + Max(0, TRANSIENT_RETRY_DELAY), TransientRetry, DOWNLOAD_TAG), ticket);
    case Check =>
      InsertKeepsDraining(p.queue, Entry(p.now + Max(0, CHECK_INTERVAL), Check, TRACKER_TAG), ticket);
    case _ =>
  }

  lemma FailureSettles(p: World, f: Failure, env: Env, ticket: nat)
    requires p.agent == Idle && Draining(p.queue, ticket)
    ensures OnFailed(p, f, env).agent == Idle && Draining(OnFailed(p, f, env).queue, ticket)
  {
    InsertKeepsDraining(p.queue, Entry(p.now + Max(0, TRANSIENT_RETRY_DELAY), TransientRetry, DOWNLOAD_TAG), ticket);
    var delay := RetryDelay(p, f);
    InsertKeepsDraining(p.queue, Entry(p.now + Max(0, delay), Retry, DOWNLOAD_TAG), ticket);
  }

  lemma SubmitSettles(w: World, op: Operation, ticket: nat)
    requires ticket < w.tickets && Draining(w.queue, ticket)
    ensures Draining(SubmitCall(w, op).queue, ticket)
  {
    var call := Call(op, w.tickets);
    InsertKeepsDraining(w.queue, Entry(w.now + Max(0, 0), call, NULL_TAG), ticket);
    InsertKeepsDraining(w.queue, Entry(FrontTime(w.queue, w.now), call, NULL_TAG), ticket);
  }

  lemma RunNextSettles(w: World, env: Env, ticket: nat)
    requires Safe(w) && w.agent == Idle && Ready(w.queue, w.now) && !IsFinal(State(w)) && Draining(w.queue, ticket)
    requires |Next(w, RunNext(env)).log| == |w.log|
    ensures var z := Next(w, RunNext(env)); z.agent == Idle && (!IsFinal(State(z)) ==> Draining(z.queue, ticket))
  {
    var p := w.(queue := w.queue[1..]);
    var task := w.queue[0].task;
    PopContents(w.queue, w.now);
    PopKeepsDraining(w.queue, ticket);
    if task.Call? {
      PerformSettles(p, task.operation, env, ticket);
    } else if task.Failed? {
      FailureSettles(p, task.failure, env, ticket);
    } else {
      TimerSettles(p, task, env, ticket);
    }
  }

  lemma NextSettles(w: World, e: Event, ticket: nat)
    requires Settling(w, ticket) && TicketsOk(w) && Enabled(w, e) && |Next(w, e).log| == |w.log|
    ensures Settling(Next(w, e), ticket)
  {
    NextKeepsSafe(w, e);
    NextKeepsTickets(w, e);
    if e.Submit? && !IsFinal(State(w)) {
      SubmitSettles(w, e.operation, ticket);
    } else if e.RunNext? && IsFinal(State(w)) {
      FinalStep(w, e);
    } else if e.RunNext? {
      RunNextSettles(w, e.env, ticket);
    }
  }

  lemma {:induction false} LogNeverShrinks(w: World, events: seq<Event>, z: World)
    requires RunsTo(w, events, z)
    ensures |w.log| <= |z.log|
    decreases |events|
  {
    if events != [] {
      StepFrame(w, events[0]);
      LogNeverShrinks(Next(w, events[0]), events[1..], z);
    }
  }

  lemma {:induction false} RunSettles(w: World, events: seq<Event>, z: World, ticket: nat)
    requires Settling(w, ticket) && TicketsOk(w) && RunsTo(w, events, z) && |z.log| == |w.log|
    ensures Settling(z, ticket)
    decreases |events|
  {
    if events != [] {
      var next := Next(w, events[0]);
      StepFrame(w, events[0]);
      LogNeverShrinks(next, events[1..], z);
      NextSettles(w, events[0], ticket);
      NextKeepsTickets(w, events[0]);
      RunSettles(next, events[1..], z, ticket);
    }
  }

  // ---------------------------------------------------------------------------
  // The promise
  // ---------------------------------------------------------------------------

  /** The call that drew the ticket has been carried out. */
  predicate Completed(w: World, ticket: nat) {
    ticket < w.tickets && !HasMarker(w.queue, ticket)
  }

  lemma StatusIsAsked(w: World, r: string)
    requires Sound(w, r) && TicketsOk(w) && State(w) == Paused
    ensures var next := Next(w, Submit(GetStatus)); Settling(next, w.tickets) && TicketsOk(next) && next.log == w.log
  {
    StatusGoesBehind(w);
    NextKeepsTickets(w, Submit(GetStatus));
    NextKeepsSafe(w, Submit(GetStatus));
  }

  /**
   * After Pause, once GetDownloadStatus has been answered and unless another request was sent meanwhile, no update is
   * queued any more: the byte count is the length of the file, and a Start that runs now resumes in time, unless the
   * status reported is a transient error.
   */
  lemma StatusSettlesThePause(maxNoProgress: nat, before: seq<Event>, w: World, events: seq<Event>, z: World, r: string)
    requires HonestRun(NewWorld(maxNoProgress), before, w, r) && State(w) == Paused
    requires RunsTo(Next(w, Submit(GetStatus)), events, z) && |z.log| == |w.log|
    requires Completed(z, w.tickets) && !IsFinal(State(z))
    ensures Select(z.queue, KUpdate) == []
    ensures z.dl.status.transferred == |z.file|
    ensures !z.dl.status.IsTransientError() ==> ResumesInTime(z)
  {
    HonestlyReached(maxNoProgress, before, w, r);
    HonestRunsAreRuns(NewWorld(maxNoProgress), before, w, r);
    RunsKeepTickets(NewWorld(maxNoProgress), before, w);
    StatusIsAsked(w, r);
    RunSettles(Next(w, Submit(GetStatus)), events, z, w.tickets);
  }
}
