/**
 * The file on disk is always a prefix of the remote resource, and every request continues exactly where it ends,
 * provided that the server keeps to the ranges asked for and that no caller resumes a download too early.
 */
module EngineResume {
  import opened TaskQueues
  import opened Engine
  import opened EngineQueue
  import opened EngineSafety

  // ---------------------------------------------------------------------------
  // The surroundings
  // ---------------------------------------------------------------------------

  predicate OnlyHeaders(u: seq<Task>) {
    forall i :: 0 <= i < |u| ==> u[i].Headers?
  }

  /** When the next task resumes a paused download, no byte count and no completion may still be queued. */
  predicate ResumesInTime(w: World) {
    w.queue != [] && w.queue[0].task.Call? && w.queue[0].task.operation == Start && State(w) == Paused ==>
      OnlyHeaders(Select(w.queue, KUpdate)) && !w.dl.status.IsTransientError()
  }

  /**
   * The server sends resource r from where the last Range header of the request asks it to, whatever the other ones say,
   * and a failed request leaves something to ask for.
   */
  predicate ServesResource(w: World, e: Event, r: string) {
    var position := if w.agent.Busy? then LastOffset(w.agent.sent) + w.agent.delivered else 0;
    && (e.Respond? ==> e.total == |r|)
    && (e.Deliver? ==> position + |e.bytes| <= |r| && e.bytes == r[position..position + |e.bytes|])
    && (e.Finish? ==> w.agent.Busy? && w.agent.headersSeen && position == |r|)
    && (e.Fail? ==> position < |r| || r == "")
  }

  predicate Honest(w: World, e: Event, r: string) {
    ServesResource(w, e, r) && (e.RunNext? ==> ResumesInTime(w))
  }

  ghost predicate HonestRun(w: World, events: seq<Event>, z: World, r: string)
    decreases |events|
  {
    if events == [] then w == z
    else Enabled(w, events[0]) && Honest(w, events[0], r) && HonestRun(Next(w, events[0]), events[1..], z, r)
  }

  // ---------------------------------------------------------------------------
  // The stream of updates
  // ---------------------------------------------------------------------------

  predicate Completes(t: Task) {
    t.Done? || t.Failed?
  }

  /** A completion is the last update queued, and a failure carries an error. */
  predicate StreamOk(u: seq<Task>) {
    forall i :: 0 <= i < |u| ==> (Completes(u[i]) ==> i == |u| - 1) && (u[i].Failed? ==> u[i].failure.request != Ok)
  }

  predicate Open(u: seq<Task>) {
    u == [] || !Completes(u[|u| - 1])
  }

  /** The total known once the queued updates have run. */
  function TotalAfter(total: nat, u: seq<Task>): nat
    decreases |u|
  {
    if u == [] then total
    else TotalAfter(if u[0].Headers? then u[0].total else total, u[1..])
  }

  /** Every byte is counted with the total known to be n. */
  predicate TotalsOk(total: nat, u: seq<Task>, n: nat)
    decreases |u|
  {
    if u == [] then true
    else match u[0]
      case Headers(t) => t == n && TotalsOk(t, u[1..], n)
      case Data(count) => (count > 0 ==> total == n) && TotalsOk(total, u[1..], n)
      case _ => TotalsOk(total, u[1..], n)
  }

  lemma {:induction false} TotalsAppend(total: nat, u: seq<Task>, t: Task, n: nat)
    requires TotalsOk(total, u, n)
    requires t.Headers? ==> t.total == n
    requires t.Data? && t.count > 0 ==> TotalAfter(total, u) == n
    ensures TotalsOk(total, u + [t], n)
    ensures TotalAfter(total, u + [t]) == if t.Headers? then t.total else TotalAfter(total, u)
    decreases |u|
  {
    if u == [] {
      assert u + [t] == [t];
    } else {
      assert (u + [t])[1..] == u[1..] + [t];
      TotalsAppend(if u[0].Headers? then u[0].total else total, u[1..], t, n);
    }
  }

  lemma {:induction false} OnlyHeadersSum(u: seq<Task>)
    requires OnlyHeaders(u)
    ensures SumData(u) == 0
  {
    if u != [] {
      OnlyHeadersSum(u[1..]);
    }
  }

  // ---------------------------------------------------------------------------
  // The invariant
  // ---------------------------------------------------------------------------

  /** There is something left to ask for. */
  predicate Incomplete(w: World, n: nat) {
    |w.file| < n || n == 0
  }

  predicate UpdatesOk(w: World, u: seq<Task>, n: nat) {
    var s := w.dl.status;
    && StreamOk(u)
    && (s.total == 0 || s.total == n)
    && (s.transferred > 0 ==> s.total == n)
    && TotalsOk(s.total, u, n)
    && (u != [] && u[|u| - 1].Done? ==> |w.file| == n)
    && (u != [] && u[|u| - 1].Failed? ==> Incomplete(w, n))
  }

  predicate AgentOk(w: World, u: seq<Task>, n: nat) {
    w.agent.Busy? ==>
      && LastOffset(w.agent.sent) + w.agent.delivered == |w.file|
      && State(w) == Transferring && w.dl.httpActive && Open(u)
      && (w.agent.headersSeen ==> TotalAfter(w.dl.status.total, u) == n)
  }

  /** A download that is transferring without a request waits for its retry, or to be reported as complete. */
  predicate WaitingOk(w: World, c: Contents, n: nat) {
    && (State(w) == Transferring && !w.dl.httpActive ==> OnlyHeaders(c.updates) && (c.alreadyDone > 0 || Incomplete(w, n)))
    && (State(w) == Paused ==> !w.dl.httpActive)
    && (State(w) == Transferred ==> OnlyHeaders(c.updates) && |w.file| == n)
  }

  predicate TimersOk(w: World, c: Contents, n: nat) {
    && (c.alreadyDone > 0 ==> w.agent == Idle && OnlyHeaders(c.updates) && |w.file| == n > 0 && w.dl.status.total == n)
    && (w.dl.status.IsTransientError() ==> c.updates == [] && Incomplete(w, n))
    && (c.transients > 0 <==> w.dl.status.IsTransientError())
    && c.transients <= 1
  }

  predicate Intact(w: World, c: Contents, r: string) {
    if IsFinal(State(w)) then State(w) == Finalized ==> w.file == r
    else
      && w.file <= r
      && UpdatesOk(w, c.updates, |r|)
      && AgentOk(w, c.updates, |r|)
      && WaitingOk(w, c, |r|)
      && TimersOk(w, c, |r|)
  }

  predicate Sound(w: World, r: string) {
    Safe(w) && Intact(w, ContentsOf(w.queue), r)
  }

  // ---------------------------------------------------------------------------
  // Sending a request
  // ---------------------------------------------------------------------------

  /** The situation in which every request is sent: nothing is running, all bytes are counted, some are missing. */
  predicate ReadyToSend(w: World, c: Contents, r: string) {
    && !IsFinal(State(w)) && w.agent == Idle
    && w.file <= r && |w.file| == w.dl.status.transferred
    && Incomplete(w, |r|)
    && UpdatesOk(w, c.updates, |r|) && OnlyHeaders(c.updates)
    && c.alreadyDone == 0 && c.transients == 0
  }

  lemma SendKeepsIntact(w: World, env: Env, retry: bool, r: string)
    requires QueueOk(w.queue, w.now) && ReadyToSend(w, ContentsOf(w.queue), r)
    ensures var z := ToTransferring(SendRequest(w, env, retry)); Intact(z, ContentsOf(z.queue), r)
  {
    SendRequestContents(w, env, retry);
  }

  // ---------------------------------------------------------------------------
  // Every step keeps it
  // ---------------------------------------------------------------------------

  lemma PopIntact(w: World, task: Task, p: World, r: string)
    requires Sound(w, r) && JustPopped(w, task, p) && KindOf(task) == KUpdate
    ensures !IsFinal(State(w)) && ContentsOf(w.queue).updates == [task] + ContentsOf(p.queue).updates
    ensures StreamOk(ContentsOf(p.queue).updates)
    ensures Completes(task) ==> ContentsOf(p.queue).updates == [] && p.agent == Idle
    ensures !Completes(task) && ContentsOf(p.queue).updates != [] ==>
              ContentsOf(p.queue).updates[|ContentsOf(p.queue).updates| - 1]
              == ContentsOf(w.queue).updates[|ContentsOf(w.queue).updates| - 1]
    ensures ContentsOf(p.queue) == ContentsOf(w.queue).(updates := ContentsOf(p.queue).updates)
    ensures QueueOk(p.queue, p.now)
  {
    PopContents(w.queue, w.now);
    var u := ContentsOf(w.queue).updates;
    var tail := ContentsOf(p.queue).updates;
    assert u == [task] + tail && u[0] == task;
    forall i | 0 <= i < |tail|
      ensures (Completes(tail[i]) ==> i == |tail| - 1) && (tail[i].Failed? ==> tail[i].failure.request != Ok)
    {
      assert u[i + 1] == tail[i];
    }
  }

  lemma CountKeepsIntact(w: World, task: Task, p: World, env: Env, r: string)
    requires Sound(w, r) && JustPopped(w, task, p) && (task.Headers? || task.Data?)
    ensures var z := Execute(p, task, env); Intact(z, ContentsOf(z.queue), r)
  {
    PopIntact(w, task, p, r);
    var tail := ContentsOf(p.queue).updates;
    assert ([task] + tail)[1..] == tail;
  }

  lemma DoneKeepsIntact(w: World, p: World, env: Env, r: string)
    requires Sound(w, r) && JustPopped(w, Done, p)
    ensures var z := Execute(p, Done, env); Intact(z, ContentsOf(z.queue), r)
  {
    PopIntact(w, Done, p, r);
    assert ContentsOf(w.queue).updates == [Done];
  }

  /** The situation in which a failure is handled: nothing is running, all bytes are counted, some are missing. */
  predicate Broken(w: World, c: Contents, r: string) {
    && !IsFinal(State(w)) && w.agent == Idle && !w.dl.httpActive
    && w.file <= r && Incomplete(w, |r|)
    && UpdatesOk(w, c.updates, |r|) && c.updates == []
    && c.alreadyDone == 0 && c.transients == 0
    && State(w) !in {Created, Transferred} && !w.dl.status.IsTransientError()
  }

  lemma TransientErrorIsIntact(w: World, r: string)
    requires QueueOk(w.queue, w.now) && Broken(w, ContentsOf(w.queue), r)
    ensures Intact(EnterTransientError(w), ContentsOf(EnterTransientError(w).queue), r)
  {
    AddTaskContents(w.queue, w.now, TransientRetry, TRANSIENT_RETRY_DELAY);
  }

  lemma FatalIsIntact(w: World, c: Contents, error: HResult, r: string)
    requires Broken(w, c, r)
    ensures Intact(ToPaused(CloseRequest(w), error, Ok), c, r)
  {
  }

  lemma RetryIsIntact(w: World, f: Failure, r: string)
    requires QueueOk(w.queue, w.now) && Broken(w, ContentsOf(w.queue), r) && f.request != Ok
    ensures Intact(ScheduleRetry(w, f), ContentsOf(ScheduleRetry(w, f).queue), r)
  {
    AddTaskContents(w.queue, w.now, Retry, RetryDelay(w, f));
  }

  lemma FailureBreaks(w: World, f: Failure, p: World, r: string)
    requires Sound(w, r) && JustPopped(w, Failed(f), p)
    ensures f.request != Ok && QueueOk(p.queue, p.now)
    ensures Broken(p.(dl := p.dl.(httpActive := false)), ContentsOf(p.queue), r)
  {
    PopIntact(w, Failed(f), p, r);
    assert ContentsOf(w.queue).updates == [Failed(f)];
  }

  lemma FailureKeepsIntact(w: World, f: Failure, p: World, env: Env, r: string)
    requires Sound(w, r) && JustPopped(w, Failed(f), p)
    ensures var z := OnFailed(p, f, env); Intact(z, ContentsOf(z.queue), r)
  {
    FailureBreaks(w, f, p, r);
    var broken := p.(dl := p.dl.(httpActive := false));
    if !env.network {
      TransientErrorIsIntact(broken, r);
    } else if IsFatal(broken.dl, f) {
      FatalIsIntact(broken, ContentsOf(p.queue), ErrorOf(f), r);
    } else {
      RetryIsIntact(broken, f, r);
    }
  }

  /** An AlreadyDone task never waits behind a timer. */
  lemma TimerFirstMeansNoneDone(q: seq<Entry<Task>>, now: int)
    requires QueueOk(q, now) && q != [] && KindOf(q[0].task) !in {KAlreadyDone, KCall}
    ensures ContentsOf(q).alreadyDone == 0
  {
    if Select(q, KAlreadyDone) != [] {
      var i := SelectedIsQueued(q, KAlreadyDone, Select(q, KAlreadyDone)[0]);
    }
  }

  lemma RetryKeepsIntact(w: World, p: World, env: Env, r: string)
    requires Sound(w, r) && JustPopped(w, Retry, p)
    ensures var z := Execute(p, Retry, env); Intact(z, ContentsOf(z.queue), r)
  {
    PopContents(w.queue, w.now);
    TimerFirstMeansNoneDone(w.queue, w.now);
    if State(p) == Transferring && !p.dl.httpActive {
      OnlyHeadersSum(ContentsOf(p.queue).updates);
      SendKeepsIntact(p, env, true, r);
      SendRequestContents(p, env, true);
      assert ToTransferring(SendRequest(p, env, true)) == SendRequest(p, env, true);
    }
  }

  lemma TransientRetryKeepsIntact(w: World, p: World, env: Env, r: string)
    requires Sound(w, r) && JustPopped(w, TransientRetry, p)
    ensures var z := Execute(p, TransientRetry, env); Intact(z, ContentsOf(z.queue), r)
  {
    PopContents(w.queue, w.now);
    TimerFirstMeansNoneDone(w.queue, w.now);
    if env.network {
      SendKeepsIntact(p, env, false, r);
    } else {
      AddTaskContents(p.queue, p.now, TransientRetry, TRANSIENT_RETRY_DELAY);
    }
  }

  lemma AlreadyDoneKeepsIntact(w: World, p: World, env: Env, r: string)
    requires Sound(w, r) && JustPopped(w, AlreadyDone, p)
    ensures var z := Execute(p, AlreadyDone, env); Intact(z, ContentsOf(z.queue), r)
  {
    PopContents(w.queue, w.now);
  }

  lemma PauseKeepsIntact(w: World, c: Contents, error: HResult, extended: HResult, r: string)
    requires State(w) == Transferring && Intact(w, c, r) && (error == Ok ==> extended == Ok)
    ensures Intact(ToPaused(CloseRequest(w), error, extended), c, r)
  {
  }

  /** The watchdog's own bookkeeping does not matter here. */
  lemma BookkeepingKeepsIntact(w: World, z: World, c: Contents, d: Contents, r: string)
    requires Intact(w, c, r)
    requires z.dl == w.dl.(tracker := z.dl.tracker) && z.file == w.file && z.agent == w.agent
    requires d == c.(checks := d.checks)
    ensures Intact(z, d, r)
  {
  }

  lemma CheckLeavesIntact(w: World, p: World, r: string)
    requires Sound(w, r) && JustPopped(w, Check, p)
    ensures QueueOk(p.queue, p.now) && Intact(p, ContentsOf(p.queue), r)
  {
    PopContents(w.queue, w.now);
    BookkeepingKeepsIntact(w, p, ContentsOf(w.queue), ContentsOf(p.queue), r);
  }

  lemma CheckKeepsIntact(w: World, p: World, env: Env, r: string)
    requires Sound(w, r) && JustPopped(w, Check, p)
    ensures Intact(OnCheck(p), ContentsOf(OnCheck(p).queue), r)
  {
    CheckLeavesIntact(w, p, r);
    if State(p) == Transferring {
      var c := ContentsOf(p.queue);
      var tracker := AfterCheck(p.dl.tracker, p.dl.status.transferred);
      var checked := p.(dl := p.dl.(tracker := tracker), checks := p.checks + [p.dl.status.transferred]);
      BookkeepingKeepsIntact(p, checked, c, c, r);
      if tracker.noProgress >= p.dl.maxNoProgress {
        PauseKeepsIntact(checked, c, NoProgress, p.dl.status.error, r);
      } else {
        CheckAgainKeepsIntact(checked, c, r);
      }
    }
  }

  lemma CheckAgainKeepsIntact(w: World, c: Contents, r: string)
    requires QueueOk(w.queue, w.now) && c == ContentsOf(w.queue) && Intact(w, c, r)
    ensures Intact(ScheduleCheck(w), ContentsOf(ScheduleCheck(w).queue), r)
  {
    ScheduleCheckContents(w);
    BookkeepingKeepsIntact(w, ScheduleCheck(w), c, WithCheck(c), r);
  }

  lemma BeginKeepsIntact(p: World, env: Env, r: string)
    requires Sound(p, r) && State(p) == Created
    ensures var z := ToTransferring(BeginTransfer(p, env)); Intact(z, ContentsOf(z.queue), r)
  {
    SendKeepsIntact(Configured(p, env), env, false, r);
  }

  lemma ResumeKeepsIntact(p: World, env: Env, r: string)
    requires Sound(p, r) && State(p) == Paused
    requires OnlyHeaders(ContentsOf(p.queue).updates) && !p.dl.status.IsTransientError()
    ensures var z := ToTransferring(Resume(p, env)); Intact(z, ContentsOf(z.queue), r)
  {
    OnlyHeadersSum(ContentsOf(p.queue).updates);
    if AllCounted(p.dl.status) {
      AddFrontContents(p.queue, p.now, AlreadyDone);
    } else {
      SendKeepsIntact(Reconfigured(p, env), env, false, r);
    }
  }

  predicate MayResume(p: World, op: Operation) {
    op == Start && State(p) == Paused ==> OnlyHeaders(ContentsOf(p.queue).updates) && !p.dl.status.IsTransientError()
  }

  lemma EndKeepsIntact(p: World, op: Operation, env: Env, r: string)
    requires Sound(p, r) && op in {Finalize, Abort}
    ensures var z := Perform(p, op, env); Intact(z, ContentsOf(z.queue), r)
  {
    if op == Finalize && State(p) == Transferred {
      assert p.file == r;
    }
  }

  lemma CallKeepsIntact(p: World, op: Operation, env: Env, r: string)
    requires Sound(p, r) && MayResume(p, op)
    ensures var z := Perform(p, op, env); Intact(z, ContentsOf(z.queue), r)
  {
    match op
    case Start =>
      if State(p) == Created {
        BeginKeepsIntact(p, env, r);
      } else if State(p) == Paused {
        ResumeKeepsIntact(p, env, r);
      }
    case Pause =>
      if State(p) == Transferring {
        PauseKeepsIntact(p, ContentsOf(p.queue), Ok, Ok, r);
      }
    case GetStatus =>
    case _ => EndKeepsIntact(p, op, env, r);
  }

  /** Queueing an update behind the others. */
  lemma UpdateContents(w: World, task: Task, r: string)
    requires QueueOk(w.queue, w.now) && KindOf(task) == KUpdate
    requires StreamOk(ContentsOf(w.queue).updates) && Open(ContentsOf(w.queue).updates)
    requires task.Failed? ==> task.failure.request != Ok
    requires TotalsOk(w.dl.status.total, ContentsOf(w.queue).updates, |r|)
    requires task.Headers? ==> task.total == |r|
    requires task.Data? && task.count > 0 ==> TotalAfter(w.dl.status.total, ContentsOf(w.queue).updates) == |r|
    ensures var q := AddTask(w.queue, w.now, task, 0, DOWNLOAD_TAG); var u := ContentsOf(w.queue).updates;
            && ContentsOf(q) == ContentsOf(w.queue).(updates := u + [task])
            && StreamOk(u + [task])
            && TotalsOk(w.dl.status.total, u + [task], |r|)
            && TotalAfter(w.dl.status.total, u + [task]) == if task.Headers? then |r| else TotalAfter(w.dl.status.total, u)
  {
    var u := ContentsOf(w.queue).updates;
    AddTaskContents(w.queue, w.now, task, 0);
    TotalsAppend(w.dl.status.total, u, task, |r|);
    assert forall i :: 0 <= i < |u| ==> !Completes(u[i]);
  }

  lemma RespondKeepsIntact(w: World, total: nat, r: string)
    requires Sound(w, r) && Enabled(w, Respond(total)) && Honest(w, Respond(total), r)
    ensures var z := Next(w, Respond(total)); Intact(z, ContentsOf(z.queue), r)
  {
    UpdateContents(w, Headers(total), r);
    assert ContentsOf(w.queue).alreadyDone == 0;
  }

  lemma DeliverKeepsIntact(w: World, bytes: string, r: string)
    requires Sound(w, r) && Enabled(w, Deliver(bytes)) && Honest(w, Deliver(bytes), r)
    ensures var z := Next(w, Deliver(bytes)); Intact(z, ContentsOf(z.queue), r)
  {
    UpdateContents(w, Data(|bytes|), r);
    assert ContentsOf(w.queue).alreadyDone == 0;
    assert w.file + bytes == r[..|w.file| + |bytes|];
  }

  lemma CompletionKeepsIntact(w: World, e: Event, r: string)
    requires Sound(w, r) && Enabled(w, e) && Honest(w, e, r) && (e.Finish? || e.Fail?)
    ensures Intact(Next(w, e), ContentsOf(Next(w, e).queue), r)
  {
    UpdateContents(w, if e.Finish? then Done else Failed(e.failure), r);
    assert ContentsOf(w.queue).alreadyDone == 0;
  }

  lemma RunUpdateKeepsIntact(w: World, p: World, task: Task, env: Env, r: string)
    requires Sound(w, r) && JustPopped(w, task, p) && KindOf(task) == KUpdate
    ensures Intact(Execute(p, task, env), ContentsOf(Execute(p, task, env).queue), r)
  {
    match task
    case Done => DoneKeepsIntact(w, p, env, r);
    case Failed(f) => FailureKeepsIntact(w, f, p, env, r);
    case _ => CountKeepsIntact(w, task, p, env, r);
  }

  lemma RunTimerKeepsIntact(w: World, p: World, task: Task, env: Env, r: string)
    requires Sound(w, r) && JustPopped(w, task, p) && KindOf(task) !in {KUpdate, KCall}
    ensures Intact(Execute(p, task, env), ContentsOf(Execute(p, task, env).queue), r)
  {
    match task
    case Retry => RetryKeepsIntact(w, p, env, r);
    case TransientRetry => TransientRetryKeepsIntact(w, p, env, r);
    case AlreadyDone => AlreadyDoneKeepsIntact(w, p, env, r);
    case Check => CheckKeepsIntact(w, p, env, r);
  }

  lemma PoppedCallIsSound(w: World, p: World, op: Operation, ticket: nat, r: string)
    requires Sound(w, r) && JustPopped(w, Call(op, ticket), p) && ResumesInTime(w)
    ensures Sound(p, r) && MayResume(p, op)
  {
    PopContents(w.queue, w.now);
    BookkeepingKeepsIntact(w, p, ContentsOf(w.queue), ContentsOf(p.queue), r);
  }

  lemma RunCallKeepsIntact(w: World, p: World, op: Operation, ticket: nat, env: Env, r: string)
    requires Sound(w, r) && JustPopped(w, Call(op, ticket), p) && ResumesInTime(w)
    ensures Intact(OnCall(p, op, ticket, env), ContentsOf(OnCall(p, op, ticket, env).queue), r)
  {
    PoppedCallIsSound(w, p, op, ticket, r);
    CallKeepsIntact(p, op, env, r);
    var z := Perform(p, op, env);
    BookkeepingKeepsIntact(z, OnCall(p, op, ticket, env), ContentsOf(z.queue), ContentsOf(z.queue), r);
  }

  lemma RunNextKeepsIntact(w: World, env: Env, r: string)
    requires Sound(w, r) && Enabled(w, RunNext(env)) && Honest(w, RunNext(env), r)
    ensures Intact(Next(w, RunNext(env)), ContentsOf(Next(w, RunNext(env)).queue), r)
  {
    var p := w.(queue := w.queue[1..]);
    var task := w.queue[0].task;
    match KindOf(task)
    case KUpdate => RunUpdateKeepsIntact(w, p, task, env, r);
    case KCall => RunCallKeepsIntact(w, p, task.operation, task.ticket, env, r);
    case _ => RunTimerKeepsIntact(w, p, task, env, r);
  }

  /** Every honest step keeps the invariant. */
  lemma NextKeepsSound(w: World, e: Event, r: string)
    requires Sound(w, r) && Enabled(w, e) && Honest(w, e, r)
    ensures Sound(Next(w, e), r)
  {
    NextKeepsSafe(w, e);
    match e
    case Submit(op) => SubmitKeepsSafe(w, op);
    case RunNext(env) => RunNextKeepsIntact(w, env, r);
    case Respond(total) => RespondKeepsIntact(w, total, r);
    case Deliver(bytes) => DeliverKeepsIntact(w, bytes, r);
    case Elapse(_) =>
    case Vanish =>
    case _ => CompletionKeepsIntact(w, e, r);
  }

  lemma {:induction false} RunsKeepSound(w: World, events: seq<Event>, z: World, r: string)
    requires Sound(w, r) && HonestRun(w, events, z, r)
    ensures Sound(z, r)
    decreases |events|
  {
    if events != [] {
      NextKeepsSound(w, events[0], r);
      RunsKeepSound(Next(w, events[0]), events[1..], z, r);
    }
  }
}
