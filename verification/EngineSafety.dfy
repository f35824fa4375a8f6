/** What holds in every reachable state of a download, under every interleaving of callers, task thread and curl. */
module EngineSafety {
  import opened TaskQueues
  import opened Engine
  import opened EngineQueue

  predicate IsFinal(s: DownloadState) {
    s in {Finalized, Aborted}
  }

  function SumData(u: seq<Task>): nat {
    if u == [] then 0 else (if u[0].Data? then u[0].count else 0) + SumData(u[1..])
  }

  lemma {:induction false} SumDataAppend(u: seq<Task>, t: Task)
    ensures SumData(u + [t]) == SumData(u) + if t.Data? then t.count else 0
  {
    if u == [] {
      assert u + [t] == [t];
    } else {
      SumDataAppend(u[1..], t);
      assert (u + [t])[1..] == u[1..] + [t];
    }
  }

  function State(w: World): DownloadState {
    w.dl.status.state
  }

  /** Everything in the file was either counted already or will be by an update still in the queue. */
  predicate BytesConserved(w: World, c: Contents) {
    !IsFinal(State(w)) ==> |w.file| == w.dl.status.transferred + SumData(c.updates)
  }

  predicate Watched(w: World, c: Contents) {
    && c.checks <= 1
    && (State(w) == Transferring ==> c.checks > 0 || c.alreadyDone > 0)
  }

  predicate Untouched(w: World) {
    && w.dl == Created0(w.dl.maxNoProgress)
    && w.agent == Idle && w.requestHeaders == [] && w.file == "" && w.log == [] && w.checks == []
  }

  /** The invariant, for a queue with contents c. */
  predicate Consistent(w: World, c: Contents) {
    && MIN_RETRY_DELAY <= w.dl.tracker.nextRetryDelay <= MAX_RETRY_DELAY
    && (State(w) == Created ==> Untouched(w) && c == EMPTY)
    && (IsFinal(State(w)) ==> w.agent == Idle && c == EMPTY)
    && BytesConserved(w, c)
    && Watched(w, c)
  }

  predicate Safe(w: World) {
    QueueOk(w.queue, w.now) && Consistent(w, ContentsOf(w.queue))
  }

  // ---------------------------------------------------------------------------
  // The building blocks
  // ---------------------------------------------------------------------------

  function WithCheck(c: Contents): Contents {
    if c.checks == 0 then c.(checks := 1) else c
  }

  lemma ScheduleCheckContents(w: World)
    requires QueueOk(w.queue, w.now)
    ensures var w' := ScheduleCheck(w);
            && w' == w.(queue := w'.queue)
            && QueueOk(w'.queue, w.now) && ContentsOf(w'.queue) == WithCheck(ContentsOf(w.queue))
  {
    TrackerTagIsCheck(w.queue, w.now);
    AddTaskContents(w.queue, w.now, Check, CHECK_INTERVAL);
  }

  lemma SendRequestContents(w: World, env: Env, retry: bool)
    requires QueueOk(w.queue, w.now)
    ensures var w' := SendRequest(w, env, retry);
            && QueueOk(w'.queue, w.now) && ContentsOf(w'.queue) == WithCheck(ContentsOf(w.queue))
            && w'.now == w.now && w'.file == w.file && w'.dl.status == w.dl.status.(error := Ok, extended := Ok)
            && w'.agent == Dispatch(w.agent, HeadersSent(w.requestHeaders, w.dl.status)) && w'.dl.httpActive
            && w'.requestHeaders == HeadersSent(w.requestHeaders, w.dl.status)
            && |w'.log| == |w.log| + 1 && w'.checks == w.checks && w'.dl.tracker == w.dl.tracker
  {
    var sent := HandOver(w, Choose(w.dl, w.now, retry, env.banned),
                         RequestFor(w.dl, w.requestHeaders, w.now, retry, env.banned));
    ScheduleCheckContents(sent);
  }

  // ---------------------------------------------------------------------------
  // Every step keeps it
  // ---------------------------------------------------------------------------

  /** p is what is left of a safe world w once its first task has been popped. */
  predicate JustPopped(w: World, task: Task, p: World) {
    Safe(w) && w.queue != [] && w.queue[0].task == task && p == w.(queue := w.queue[1..])
  }

  lemma UpdateKeepsSafe(w: World, task: Task, p: World, env: Env)
    requires JustPopped(w, task, p) && KindOf(task) == KUpdate && !task.Failed?
    ensures Safe(Execute(p, task, env))
  {
    PopContents(w.queue, w.now);
    var updates := ContentsOf(p.queue).updates;
    assert ([task] + updates)[1..] == updates;
  }

  lemma FailureKeepsSafe(w: World, f: Failure, p: World, env: Env)
    requires JustPopped(w, Failed(f), p)
    ensures Safe(OnFailed(p, f, env))
  {
    PopContents(w.queue, w.now);
    var updates := ContentsOf(p.queue).updates;
    assert ([Failed(f)] + updates)[1..] == updates;
    var failed := p.(dl := p.dl.(httpActive := false));
    assert Consistent(failed, ContentsOf(p.queue));
    FailureOutcome(failed, f, env);
  }

  lemma FailureOutcome(w: World, f: Failure, env: Env)
    requires Safe(w) && !w.dl.httpActive && State(w) != Created && !IsFinal(State(w))
    ensures Safe(OnFailed(w, f, env))
  {
    if !env.network {
      TransientErrorIsSafe(w);
    } else if !IsFatal(w.dl, f) {
      RetryingIsSafe(w, f);
    }
  }

  lemma RetryingIsSafe(w: World, f: Failure)
    requires Safe(w) && State(w) != Created && !IsFinal(State(w))
    ensures Safe(ScheduleRetry(w, f))
  {
    AddTaskContents(w.queue, w.now, Retry, RetryDelay(w, f));
  }

  /** z is w with a request sent, transferring. */
  predicate RequestSent(w: World, z: World) {
    && QueueOk(z.queue, z.now) && ContentsOf(z.queue) == WithCheck(ContentsOf(w.queue))
    && z.now == w.now && z.file == w.file && z.dl.tracker == w.dl.tracker
    && z.dl.status == w.dl.status.(state := Transferring, error := Ok, extended := Ok)
  }

  lemma SentIsSafe(w: World, z: World)
    requires Safe(w) && State(w) in {Transferring, Paused} && RequestSent(w, z)
    ensures Safe(z)
  {
  }

  lemma RetryKeepsSafe(w: World, p: World, env: Env)
    requires JustPopped(w, Retry, p)
    ensures Safe(Execute(p, Retry, env))
  {
    PopContents(w.queue, w.now);
    if State(p) == Transferring && !p.dl.httpActive {
      SendRequestContents(p, env, true);
      SentIsSafe(p, SendRequest(p, env, true));
    }
  }

  lemma TransientErrorIsSafe(w: World)
    requires Safe(w) && State(w) != Created && !IsFinal(State(w))
    ensures Safe(EnterTransientError(w))
  {
    AddTaskContents(w.queue, w.now, TransientRetry, TRANSIENT_RETRY_DELAY);
  }

  lemma TransientRetryKeepsSafe(w: World, p: World, env: Env)
    requires JustPopped(w, TransientRetry, p)
    ensures Safe(OnTransientRetry(p, env))
  {
    PopContents(w.queue, w.now);
    if !env.network {
      TransientErrorIsSafe(p);
    } else if p.dl.status.IsTransientError() {
      SendRequestContents(p, env, false);
      SentIsSafe(p, ToTransferring(SendRequest(p, env, false)));
    }
  }

  lemma AlreadyDoneKeepsSafe(w: World, p: World)
    requires JustPopped(w, AlreadyDone, p)
    ensures Safe(ToTransferred(p))
  {
    PopContents(w.queue, w.now);
  }

  lemma TimerKeepsSafe(w: World, task: Task, p: World, env: Env)
    requires JustPopped(w, task, p) && task in {Retry, TransientRetry, AlreadyDone}
    ensures Safe(Execute(p, task, env))
  {
    match task
    case Retry => RetryKeepsSafe(w, p, env);
    case TransientRetry => TransientRetryKeepsSafe(w, p, env);
    case AlreadyDone => AlreadyDoneKeepsSafe(w, p);
  }

  /** The watchdog's own bookkeeping: everything is as before, but for the watchdog. */
  predicate CheckMade(w: World, z: World) {
    && QueueOk(z.queue, z.now) && z.now == w.now && z.file == w.file && z.dl.status == w.dl.status
    && z.dl.tracker.nextRetryDelay == w.dl.tracker.nextRetryDelay
    && ContentsOf(z.queue) == ContentsOf(w.queue).(checks := ContentsOf(z.queue).checks)
  }

  lemma GivingUpIsSafe(w: World, z: World)
    requires Safe(w) && State(w) == Transferring && CheckMade(w, z) && ContentsOf(z.queue).checks == 0
    ensures Safe(ToPaused(CloseRequest(z), NoProgress, z.dl.status.error))
  {
  }

  lemma CheckingAgainIsSafe(w: World, z: World)
    requires Safe(w) && State(w) == Transferring && CheckMade(w, z) && ContentsOf(z.queue).checks == 0
    ensures Safe(ScheduleCheck(z))
  {
    ScheduleCheckContents(z);
  }

  lemma CheckKeepsSafe(w: World, p: World, env: Env)
    requires JustPopped(w, Check, p)
    ensures Safe(OnCheck(p))
  {
    PopContents(w.queue, w.now);
    if State(p) == Transferring {
      var tracker := AfterCheck(p.dl.tracker, p.dl.status.transferred);
      var checked := p.(dl := p.dl.(tracker := tracker), checks := p.checks + [p.dl.status.transferred]);
      if tracker.noProgress >= p.dl.maxNoProgress {
        GivingUpIsSafe(w, checked);
      } else {
        CheckingAgainIsSafe(w, checked);
      }
    }
  }

  lemma CallKeepsSafe(w: World, op: Operation, ticket: nat, p: World, env: Env)
    requires JustPopped(w, Call(op, ticket), p)
    ensures Safe(Execute(p, Call(op, ticket), env))
  {
    PopContents(w.queue, w.now);
    PerformKeepsSafe(p, op, env);
    RepliesDoNotMatter(Perform(p, op, env), Execute(p, Call(op, ticket), env).replies);
  }

  lemma RepliesDoNotMatter(w: World, replies: map<nat, Reply>)
    requires Safe(w)
    ensures Safe(w.(replies := replies))
  {
  }

  lemma PerformKeepsSafe(p: World, op: Operation, env: Env)
    requires Safe(p)
    ensures Safe(Perform(p, op, env))
  {
    match op
    case Start => StartKeepsSafe(p, env);
    case Abort => CancelContents(p.queue, p.now);
    case Finalize => CancelContents(p.queue, p.now);
    case _ =>
  }

  lemma StartKeepsSafe(p: World, env: Env)
    requires Safe(p)
    ensures Safe(Perform(p, Start, env))
  {
    if Accepts(State(p), Start, env.canOpen) {
      if State(p) == Created {
        BeginKeepsSafe(p, env);
      } else if State(p) == Paused {
        ResumeKeepsSafe(p, env);
      }
    }
  }

  lemma BeginKeepsSafe(p: World, env: Env)
    requires Safe(p) && State(p) == Created
    ensures Safe(ToTransferring(BeginTransfer(p, env)))
  {
    SendRequestContents(Configured(p, env), env, false);
  }

  lemma CompletionIsSafe(p: World)
    requires Safe(p) && State(p) == Paused
    ensures Safe(ToTransferring(p.(queue := AddFront(p.queue, p.now, AlreadyDone, DOWNLOAD_TAG))))
  {
    AddFrontContents(p.queue, p.now, AlreadyDone);
  }

  lemma ResumeKeepsSafe(p: World, env: Env)
    requires Safe(p) && State(p) == Paused
    ensures Safe(ToTransferring(Resume(p, env)))
  {
    if AllCounted(p.dl.status) {
      CompletionIsSafe(p);
    } else {
      var ready := Reconfigured(p, env);
      SendRequestContents(ready, env, false);
      SentIsSafe(p, ToTransferring(SendRequest(ready, env, false)));
    }
  }

  lemma CurlKeepsSafe(w: World, e: Event)
    requires Safe(w) && Enabled(w, e) && (e.Respond? || e.Deliver? || e.Finish? || e.Fail?)
    ensures Safe(Next(w, e))
  {
    var task := match e
      case Respond(total) => Headers(total)
      case Deliver(bytes) => Data(|bytes|)
      case Finish => Done
      case Fail(f) => Failed(f);
    AddTaskContents(w.queue, w.now, task, 0);
    SumDataAppend(ContentsOf(w.queue).updates, task);
  }

  lemma SubmitKeepsSafe(w: World, op: Operation)
    requires Safe(w)
    ensures Safe(Next(w, Submit(op)))
    ensures ContentsOf(Next(w, Submit(op)).queue) == ContentsOf(w.queue)
  {
    var call := Call(op, w.tickets);
    if op == GetStatus {
      AddTaskContents(w.queue, w.now, call, 0);
    } else {
      AddFrontContents(w.queue, w.now, call);
    }
  }

  lemma ElapseKeepsSafe(w: World, ticks: nat)
    requires Safe(w)
    ensures Safe(Next(w, Elapse(ticks)))
  {
    forall i | 0 <= i < |w.queue| ensures EntryOk(w.queue[i], w.now + ticks) {
      assert EntryOk(w.queue[i], w.now);
    }
  }

  /** The invariant is kept by every event, whatever the server, the network or the callers do. */
  lemma NextKeepsSafe(w: World, e: Event)
    requires Safe(w) && Enabled(w, e)
    ensures Safe(Next(w, e))
  {
    match e
    case Elapse(ticks) => ElapseKeepsSafe(w, ticks);
    case Submit(op) => SubmitKeepsSafe(w, op);
    case RunNext(env) =>
      var task := w.queue[0].task;
      var p := w.(queue := w.queue[1..]);
      match KindOf(task) {
        case KUpdate => if task.Failed? { FailureKeepsSafe(w, task.failure, p, env); } else { UpdateKeepsSafe(w, task, p, env); }
        case KCheck => CheckKeepsSafe(w, p, env);
        case KCall => CallKeepsSafe(w, task.operation, task.ticket, p, env);
        case _ => TimerKeepsSafe(w, task, p, env);
      }
    case Vanish =>
    case _ => CurlKeepsSafe(w, e);
  }

  lemma {:induction false} RunsKeepSafe(w: World, events: seq<Event>, z: World)
    requires Safe(w) && RunsTo(w, events, z)
    ensures Safe(z)
    decreases |events|
  {
    if events != [] {
      NextKeepsSafe(w, events[0]);
      RunsKeepSafe(Next(w, events[0]), events[1..], z);
    }
  }

  lemma ReachableIsSafe(w: World, maxNoProgress: nat)
    requires Reachable(w, maxNoProgress)
    ensures Safe(w)
  {
    var events :| RunsTo(NewWorld(maxNoProgress), events, w);
    RunsKeepSafe(NewWorld(maxNoProgress), events, w);
  }

  // ---------------------------------------------------------------------------
  // The promises
  // ---------------------------------------------------------------------------

  /** Until the download is finalized or aborted, every byte of the file is counted or has its update still queued. */
  lemma BytesAreConserved(w: World, maxNoProgress: nat)
    requires Reachable(w, maxNoProgress) && !IsFinal(State(w))
    ensures |w.file| == w.dl.status.transferred + SumData(Select(w.queue, KUpdate))
  {
    ReachableIsSafe(w, maxNoProgress);
  }

  lemma FinalStep(w: World, e: Event)
    requires Safe(w) && IsFinal(State(w)) && Enabled(w, e)
    ensures Next(w, e) == w.(now := Next(w, e).now, queue := Next(w, e).queue,
                             tickets := Next(w, e).tickets, replies := Next(w, e).replies)
  {
    if e.RunNext? {
      PopContents(w.queue, w.now);
      assert KindOf(w.queue[0].task) == KCall;
    }
  }

  lemma {:induction false} FinalRun(w: World, events: seq<Event>, z: World)
    requires Safe(w) && IsFinal(State(w)) && RunsTo(w, events, z)
    ensures Safe(z) && z.dl == w.dl && z.file == w.file && z.log == w.log && z.agent == Idle
    decreases |events|
  {
    if events != [] {
      NextKeepsSafe(w, events[0]);
      FinalStep(w, events[0]);
      FinalRun(Next(w, events[0]), events[1..], z);
    }
  }

  /**
   * Finalized and Aborted are final: from then on no request is running or sent, nothing but callers' operations is
   * queued, and no callback, timer or caller changes the download or its file.
   */
  lemma FinalIsForever(w: World, maxNoProgress: nat, events: seq<Event>, z: World)
    requires Reachable(w, maxNoProgress) && IsFinal(State(w)) && RunsTo(w, events, z)
    ensures z.dl == w.dl && z.file == w.file && z.log == w.log && z.agent == Idle
    ensures forall i :: 0 <= i < |z.queue| ==> z.queue[i].task.Call?
  {
    ReachableIsSafe(w, maxNoProgress);
    FinalRun(w, events, z);
    forall i | 0 <= i < |z.queue| ensures z.queue[i].task.Call? {
      var kind := KindOf(z.queue[i].task);
      SelectSome(z.queue, kind, i);
    }
  }
}
