/** How long a stalled download goes on: a bound in time, for task threads that run every task when it is due. */
module EngineStalls {
  import opened TaskQueues
  import opened Engine
  import opened EngineQueue
  import opened EngineSafety
  import opened EngineHistory
  import opened EngineStatus

  // ---------------------------------------------------------------------------
  // Nothing is dropped from the queue
  // ---------------------------------------------------------------------------

  /** No time has passed, and everything queued in w is still queued in z. */
  predicate Kept(w: World, z: World) {
    z.now == w.now && forall x :: x in w.queue ==> x in z.queue
  }

  lemma ScheduleKeeps(w: World, task: Task, delay: int, tag: Tag)
    ensures Kept(w, Schedule(w, task, delay, tag))
  {
    InsertMembers(w.queue, Entry(w.now + Max(0, delay), task, tag));
  }

  lemma SendKeeps(w: World, env: Env, retry: bool)
    ensures Kept(w, SendRequest(w, env, retry))
  {
    ScheduleKeeps(w, Check, CHECK_INTERVAL, TRACKER_TAG);
  }

  lemma ResumeKeeps(w: World, env: Env)
    ensures Kept(w, Resume(w, env))
  {
    InsertMembers(w.queue, Entry(FrontTime(w.queue, w.now), AlreadyDone, DOWNLOAD_TAG));
    SendKeeps(Reconfigured(w, env), env, false);
  }

  lemma PerformKeeps(w: World, op: Operation, env: Env)
    ensures IsFinal(State(Perform(w, op, env))) || Kept(w, Perform(w, op, env))
  {
    if op == Start && State(w) == Created {
      SendKeeps(Configured(w, env), env, false);
    } else if op == Start && State(w) == Paused {
      ResumeKeeps(w, env);
    }
  }

  lemma FailureKeeps(w: World, f: Failure, env: Env)
    ensures Kept(w, OnFailed(w, f, env))
  {
    ScheduleKeeps(w, TransientRetry, TRANSIENT_RETRY_DELAY, DOWNLOAD_TAG);
    ScheduleKeeps(w, Retry, RetryDelay(w, f), DOWNLOAD_TAG);
  }

  lemma TimerKeeps(w: World, task: Task, env: Env)
    requires task in {Retry, TransientRetry}
    ensures Kept(w, Execute(w, task, env))
  {
    SendKeeps(w, env, task == Retry);
    ScheduleKeeps(w, TransientRetry, TRANSIENT_RETRY_DELAY, DOWNLOAD_TAG);
  }

  lemma ExecuteKeeps(w: World, task: Task, env: Env)
    requires task != Check
    ensures IsFinal(State(Execute(w, task, env))) || Kept(w, Execute(w, task, env))
  {
    match task
    case Failed(f) => FailureKeeps(w, f, env);
    case Retry => TimerKeeps(w, task, env);
    case TransientRetry => TimerKeeps(w, task, env);
    case Call(op, _) => PerformKeeps(w, op, env);
    case _ =>
  }

  lemma OthersKeep(w: World, e: Event)
    requires Enabled(w, e) && !e.RunNext? && !e.Elapse?
    ensures Kept(w, Next(w, e))
  {
    match e
    case Submit(op) =>
      InsertMembers(w.queue, Entry(w.now + Max(0, 0), Call(op, w.tickets), NULL_TAG));
      InsertMembers(w.queue, Entry(FrontTime(w.queue, w.now), Call(op, w.tickets), NULL_TAG));
    case Respond(total) => ScheduleKeeps(w, Headers(total), 0, DOWNLOAD_TAG);
    case Deliver(bytes) => ScheduleKeeps(w, Data(|bytes|), 0, DOWNLOAD_TAG);
    case Finish => ScheduleKeeps(w, Done, 0, DOWNLOAD_TAG);
    case Fail(f) => ScheduleKeeps(w, Failed(f), 0, DOWNLOAD_TAG);
    case _ =>
  }

  // ---------------------------------------------------------------------------
  // The deadline of a spell
  // ---------------------------------------------------------------------------

  /** Time does not pass beyond a task that is due. */
  predicate Prompt(w: World, e: Event) {
    e.Elapse? && e.ticks > 0 ==> forall x :: x in w.queue ==> w.now + e.ticks <= x.time
  }

  ghost predicate PromptRun(w: World, events: seq<Event>)
    decreases |events|
  {
    events != [] ==> Enabled(w, events[0]) && Prompt(w, events[0]) && PromptRun(Next(w, events[0]), events[1..])
  }

  /** By time d at the latest the watchdog checks, or the download is reported as complete. */
  predicate DueBy(w: World, d: int) {
    w.now <= d && exists x :: x in w.queue && x.task in {Check, AlreadyDone} && x.time <= d
  }

  lemma SpellIsDue(w: World)
    requires Safe(w) && State(w) == Transferring
    ensures DueBy(w, w.now + CHECK_INTERVAL)
  {
    var kind := if Select(w.queue, KCheck) != [] then KCheck else KAlreadyDone;
    var i := SelectedIsQueued(w.queue, kind, Select(w.queue, kind)[0]);
    assert EntryOk(w.queue[i], w.now) && w.queue[i] in w.queue;
  }

  lemma DueStays(w: World, z: World, d: int)
    requires DueBy(w, d) && Kept(w, z)
    ensures DueBy(z, d)
  {
  }

  lemma CheckStep(w: World, env: Env, d: int)
    requires Safe(w) && Enabled(w, RunNext(env)) && w.queue[0].task == Check && w.now <= d
    requires State(w) == Transferring && State(Next(w, RunNext(env))) == Transferring
    ensures |Next(w, RunNext(env)).checks| == |w.checks| + 1 && DueBy(Next(w, RunNext(env)), d + CHECK_INTERVAL)
  {
    CheckFrame(w.(queue := w.queue[1..]));
    NextKeepsSafe(w, RunNext(env));
    SpellIsDue(Next(w, RunNext(env)));
  }

  /** The deadline is not that of the task that runs, as that would end the spell. */
  lemma NotDueItself(w: World, p: World, task: Task, env: Env, d: int)
    requires w.queue != [] && w.queue[0].task == task != Check && p == w.(queue := w.queue[1..]) && DueBy(w, d)
    requires State(Execute(p, task, env)) == Transferring
    ensures DueBy(p, d)
  {
    var x :| x in w.queue && x.task in {Check, AlreadyDone} && x.time <= d;
    assert x in p.queue;
  }

  lemma TaskStep(w: World, p: World, task: Task, env: Env, d: int)
    requires w.queue != [] && w.queue[0].task == task != Check && p == w.(queue := w.queue[1..]) && DueBy(w, d)
    requires State(Execute(p, task, env)) == Transferring
    ensures DueBy(Execute(p, task, env), d)
  {
    NotDueItself(w, p, task, env, d);
    ExecuteKeeps(p, task, env);
    DueStays(p, Execute(p, task, env), d);
  }

  /** One step of a spell either keeps the deadline, or is a check that the transfer survives. */
  lemma StepKeepsDeadline(w: World, e: Event, d: int)
    requires Safe(w) && Enabled(w, e) && Prompt(w, e) && DueBy(w, d)
    requires State(w) == Transferring && State(Next(w, e)) == Transferring
    ensures DueBy(Next(w, e), d) || (|Next(w, e).checks| == |w.checks| + 1 && DueBy(Next(w, e), d + CHECK_INTERVAL))
  {
    if e.RunNext? {
      if w.queue[0].task == Check {
        CheckStep(w, e.env, d);
      } else {
        TaskStep(w, w.(queue := w.queue[1..]), w.queue[0].task, e.env, d);
      }
    } else if !e.Elapse? {
      OthersKeep(w, e);
      DueStays(w, Next(w, e), d);
    }
  }

  lemma {:induction false} SpellKeepsDeadline(w: World, events: seq<Event>, z: World, n: nat, d: int)
    requires Safe(w) && Stalled(w, events, z, n) && PromptRun(w, events) && DueBy(w, d)
    ensures z.now <= d + (|z.checks| - |w.checks|) * CHECK_INTERVAL
    decreases |events|
  {
    if events != [] {
      var next := Next(w, events[0]);
      NextKeepsSafe(w, events[0]);
      StepKeepsDeadline(w, events[0], d);
      StepFrame(w, events[0]);
      SpellKeepsDeadline(next, events[1..], z, n, if DueBy(next, d) then d else d + CHECK_INTERVAL);
    }
  }

  // ---------------------------------------------------------------------------
  // The promise
  // ---------------------------------------------------------------------------

  /**
   * A spell of transferring without a byte being counted ends after one interval more than the checks left of the
   * allowance, and after one more than the whole allowance whatever came before it.
   */
  lemma WatchdogLimitsTheTime(w: World, maxNoProgress: nat, events: seq<Event>, z: World, n: nat)
    requires Reachable(w, maxNoProgress) && Stalled(w, events, z, n) && PromptRun(w, events)
    ensures z.now - w.now <= (w.dl.maxNoProgress + 1) * CHECK_INTERVAL
    ensures w.dl.tracker.lastSeen == n ==>
              z.now - w.now <= (Max(0, w.dl.maxNoProgress - 1 - w.dl.tracker.noProgress) + 1) * CHECK_INTERVAL
  {
    ReachableIsSafe(w, maxNoProgress);
    SpellIsDue(w);
    SpellKeepsDeadline(w, events, z, n, w.now + CHECK_INTERVAL);
    WatchdogEndsStalls(w, maxNoProgress, events, z, n);
  }
}
