/** What a download's counters mean in terms of its past: the watchdog and the choice of source. */
module EngineHistory {
  import opened TaskQueues
  import opened Engine
  import opened EngineQueue
  import opened EngineSafety

  // ---------------------------------------------------------------------------
  // Reading the past
  // ---------------------------------------------------------------------------

  /** The byte count seen by the latest watchdog check. */
  function LastSeen(checks: seq<nat>): nat {
    if checks == [] then 0 else checks[|checks| - 1]
  }

  /** How many of the latest checks in a row saw no byte arrive since the one before. */
  function Stalls(checks: seq<nat>): nat {
    if checks == [] then 0
    else
      var before := checks[..|checks| - 1];
      if checks[|checks| - 1] == LastSeen(before) then Stalls(before) + 1 else 0
  }

  function LastSource(log: seq<Request>): Source {
    if log == [] then NoSource else log[|log| - 1].source
  }

  /** The length of the current run of requests to one source. */
  function SameSourceRun(log: seq<Request>): nat {
    if log == [] then 0
    else
      var before := log[..|log| - 1];
      if LastSource(before) == log[|log| - 1].source then SameSourceRun(before) + 1 else 1
  }

  predicate CdnUsed(log: seq<Request>) {
    exists i :: 0 <= i < |log| && log[i].source == CDN
  }

  predicate TrackerOk(w: World) {
    && w.dl.tracker.lastSeen == LastSeen(w.checks) <= w.dl.status.transferred
    && w.dl.tracker.noProgress == Stalls(w.checks)
  }

  predicate SourceOk(w: World) {
    && w.dl.source == LastSource(w.log)
    && (w.log != [] ==> w.dl.source != NoSource)
    && w.dl.attempts == SameSourceRun(w.log)
    && (w.dl.originalAttempted <==> CdnUsed(w.log))
    && (w.dl.fallback == Unset ==> w.dl.allowMcc)
    && (State(w) !in {Created, Aborted} ==> w.log != [])
    && (w.log != [] ==> w.dl.transferredAtRequest == w.log[|w.log| - 1].first)
  }

  lemma CdnUsedAppend(log: seq<Request>, request: Request)
    ensures CdnUsed(log + [request]) <==> CdnUsed(log) || request.source == CDN
  {
    var log' := log + [request];
    if CdnUsed(log) {
      var i :| 0 <= i < |log| && log[i].source == CDN;
      assert log'[i].source == CDN;
    }
    if request.source == CDN {
      assert log'[|log|].source == CDN;
    }
  }

  /** A new request keeps the counters in step with the log. */
  lemma SendKeepsSource(w: World, env: Env, retry: bool)
    requires SourceOk(w) && (retry ==> w.log != [])
    ensures SourceOk(SendRequest(w, env, retry))
  {
    var request := RequestFor(w.dl, w.requestHeaders, w.now, retry, env.banned);
    CdnUsedAppend(w.log, request);
    assert (w.log + [request])[..|w.log|] == w.log;
    SendSourceFields(w, env, retry);
  }

  lemma SendSourceFields(w: World, env: Env, retry: bool)
    ensures var w' := SendRequest(w, env, retry);
            var request := RequestFor(w.dl, w.requestHeaders, w.now, retry, env.banned);
            && w'.log == w.log + [request]
            && w'.dl.source == request.source != NoSource
            && w'.dl.attempts == (if request.source == w.dl.source then w.dl.attempts + 1 else 1)
            && w'.dl.originalAttempted == (w.dl.originalAttempted || request.source == CDN)
            && w'.dl.fallback == w.dl.fallback && w'.dl.transferredAtRequest == w.dl.status.transferred
            && w'.dl.allowMcc == MccAllowed(w.dl, w.now, retry)
            && State(w') == State(w) && w'.checks == w.checks && w'.dl.tracker == w.dl.tracker
            && w'.dl.status.transferred == w.dl.status.transferred
  {
  }

  lemma CheckCounts(checks: seq<nat>, seen: nat)
    ensures LastSeen(checks + [seen]) == seen
    ensures Stalls(checks + [seen]) == if seen == LastSeen(checks) then Stalls(checks) + 1 else 0
  {
    assert (checks + [seen])[..|checks|] == checks;
  }

  /** What the choice of source depends on is the same. */
  predicate SameSource(w: World, z: World) {
    && z.log == w.log && z.dl.source == w.dl.source && z.dl.attempts == w.dl.attempts
    && z.dl.originalAttempted == w.dl.originalAttempted && z.dl.transferredAtRequest == w.dl.transferredAtRequest
    && z.dl.fallback == w.dl.fallback && z.dl.allowMcc == w.dl.allowMcc
    && (State(z) !in {Created, Aborted} ==> State(w) !in {Created, Aborted})
  }

  lemma CheckFrame(w: World)
    ensures SameSource(w, OnCheck(w)) && OnCheck(w).dl.status.transferred == w.dl.status.transferred
    ensures State(w) != Transferring ==> OnCheck(w) == w
    ensures State(w) == Transferring ==>
              && OnCheck(w).checks == w.checks + [w.dl.status.transferred]
              && OnCheck(w).dl.tracker == AfterCheck(w.dl.tracker, w.dl.status.transferred)
  {
  }

  lemma CheckKeepsTracker(w: World)
    requires TrackerOk(w) && SourceOk(w)
    ensures TrackerOk(OnCheck(w)) && SourceOk(OnCheck(w))
  {
    CheckCounts(w.checks, w.dl.status.transferred);
    CheckFrame(w);
  }

  // ---------------------------------------------------------------------------
  // Every run keeps the counters in step
  // ---------------------------------------------------------------------------

  predicate HistoryOk(w: World) {
    Safe(w) && TrackerOk(w) && SourceOk(w)
  }

  /** Nothing that the counters summarise has changed, and no byte was forgotten. */
  predicate SamePast(w: World, z: World) {
    && SameSource(w, z) && z.checks == w.checks
    && z.dl.tracker.lastSeen == w.dl.tracker.lastSeen && z.dl.tracker.noProgress == w.dl.tracker.noProgress
    && z.dl.status.transferred >= w.dl.status.transferred
  }

  lemma SamePastKeeps(w: World, z: World)
    requires TrackerOk(w) && SourceOk(w) && SamePast(w, z)
    ensures TrackerOk(z) && SourceOk(z)
  {
  }

  lemma QuietTasksKeepPast(w: World, task: Task, env: Env)
    requires KindOf(task) in {KUpdate, KAlreadyDone} && State(w) !in {Created, Aborted}
    ensures SamePast(w, Execute(w, task, env))
  {
    if task.Failed? {
      FailureKeepsPast(w, task.failure, env);
    }
  }

  lemma FailureKeepsPast(w: World, f: Failure, env: Env)
    requires State(w) !in {Created, Aborted}
    ensures SamePast(w, OnFailed(w, f, env))
  {
  }

  lemma ExecuteKeepsHistory(w: World, task: Task, p: World, env: Env)
    requires HistoryOk(w) && JustPopped(w, task, p)
    ensures TrackerOk(Execute(p, task, env)) && SourceOk(Execute(p, task, env))
  {
    PopContents(w.queue, w.now);
    SamePastKeeps(w, p);
    if task == Retry {
      RetryKeepsHistory(p, env);
    } else if task == TransientRetry {
      TransientRetryKeepsHistory(p, env);
    } else if task == Check {
      CheckKeepsTracker(p);
    } else if task.Call? {
      PerformKeepsHistory(p, task.operation, env);
      SamePastKeeps(Perform(p, task.operation, env), OnCall(p, task.operation, task.ticket, env));
    } else {
      QuietTasksKeepPast(p, task, env);
      SamePastKeeps(p, Execute(p, task, env));
    }
  }

  lemma RetryKeepsHistory(p: World, env: Env)
    requires TrackerOk(p) && SourceOk(p)
    ensures TrackerOk(Execute(p, Retry, env)) && SourceOk(Execute(p, Retry, env))
  {
    if State(p) == Transferring && !p.dl.httpActive {
      SendKeepsSource(p, env, true);
      SendSourceFields(p, env, true);
    }
  }

  lemma TransientRetryKeepsHistory(p: World, env: Env)
    requires TrackerOk(p) && SourceOk(p) && State(p) !in {Created, Aborted}
    ensures TrackerOk(OnTransientRetry(p, env)) && SourceOk(OnTransientRetry(p, env))
  {
    if !env.network {
      SamePastKeeps(p, OnTransientRetry(p, env));
    } else if p.dl.status.IsTransientError() {
      SendKeepsSource(p, env, false);
      SendSourceFields(p, env, false);
    }
  }

  lemma BeginKeepsHistory(p: World, env: Env)
    requires TrackerOk(p) && SourceOk(p) && p.log == [] && p.dl.allowMcc
    ensures TrackerOk(ToTransferring(BeginTransfer(p, env))) && SourceOk(ToTransferring(BeginTransfer(p, env)))
  {
    var ready := Configured(p, env);
    SendKeepsSource(ready, env, false);
    SendSourceFields(ready, env, false);
  }

  lemma ResumeKeepsHistory(p: World, env: Env)
    requires TrackerOk(p) && SourceOk(p) && State(p) == Paused
    ensures TrackerOk(ToTransferring(Resume(p, env))) && SourceOk(ToTransferring(Resume(p, env)))
  {
    if AllCounted(p.dl.status) {
      SamePastKeeps(p, ToTransferring(Resume(p, env)));
    } else {
      SendKeepsSource(Reconfigured(p, env), env, false);
      SendSourceFields(Reconfigured(p, env), env, false);
    }
  }

  lemma OperationKeepsPast(p: World, op: Operation, env: Env)
    requires op != Start || State(p) !in {Created, Paused}
    ensures SamePast(p, Perform(p, op, env))
  {
  }

  lemma PerformKeepsHistory(p: World, op: Operation, env: Env)
    requires TrackerOk(p) && SourceOk(p) && Consistent(p, ContentsOf(p.queue))
    ensures TrackerOk(Perform(p, op, env)) && SourceOk(Perform(p, op, env))
  {
    if op == Start && State(p) == Created {
      BeginKeepsHistory(p, env);
    } else if op == Start && State(p) == Paused {
      ResumeKeepsHistory(p, env);
    } else {
      OperationKeepsPast(p, op, env);
      SamePastKeeps(p, Perform(p, op, env));
    }
  }

  lemma NextKeepsHistory(w: World, e: Event)
    requires HistoryOk(w) && Enabled(w, e)
    ensures HistoryOk(Next(w, e))
  {
    NextKeepsSafe(w, e);
    if e.RunNext? {
      ExecuteKeepsHistory(w, w.queue[0].task, w.(queue := w.queue[1..]), e.env);
    }
  }

  lemma {:induction false} RunsKeepHistory(w: World, events: seq<Event>, z: World)
    requires HistoryOk(w) && RunsTo(w, events, z)
    ensures HistoryOk(z)
    decreases |events|
  {
    if events != [] {
      NextKeepsHistory(w, events[0]);
      RunsKeepHistory(Next(w, events[0]), events[1..], z);
    }
  }

  lemma ReachableHistory(w: World, maxNoProgress: nat)
    requires Reachable(w, maxNoProgress)
    ensures HistoryOk(w)
  {
    var events :| RunsTo(NewWorld(maxNoProgress), events, w);
    RunsKeepHistory(NewWorld(maxNoProgress), events, w);
  }

  // ---------------------------------------------------------------------------
  // What a single step can change
  // ---------------------------------------------------------------------------

  predicate SameTracker(w: World, z: World) {
    && z.checks == w.checks && z.dl.maxNoProgress == w.dl.maxNoProgress
    && z.dl.tracker.lastSeen == w.dl.tracker.lastSeen && z.dl.tracker.noProgress == w.dl.tracker.noProgress
  }

  /** z's watchdog has just made a check and let the transfer go on. */
  predicate CheckedOnce(w: World, z: World) {
    var n := w.dl.status.transferred;
    && z.checks == w.checks + [n] && z.dl.maxNoProgress == w.dl.maxNoProgress
    && z.dl.tracker == AfterCheck(w.dl.tracker, n)
    && (State(z) == Transferring ==> z.dl.tracker.noProgress < w.dl.maxNoProgress)
  }

  ghost predicate LogKept(w: World, z: World) {
    && (!w.dl.allowMcc ==> !z.dl.allowMcc)
    && (z.log == w.log
        || (exists r :: z.log == w.log + [r] && r.first == w.dl.status.transferred
                        && (!w.dl.allowMcc ==> r.source == CDN)))
  }

  lemma SendFrame(w: World, env: Env, retry: bool)
    ensures var z := SendRequest(w, env, retry); SameTracker(w, z) && LogKept(w, z)
  {
    SendSourceFields(w, env, retry);
    assert SendRequest(w, env, retry).log == w.log + [RequestFor(w.dl, w.requestHeaders, w.now, retry, env.banned)];
  }

  lemma BeginFrame(p: World, env: Env)
    ensures SameTracker(p, ToTransferring(BeginTransfer(p, env))) && LogKept(p, ToTransferring(BeginTransfer(p, env)))
  {
    SendFrame(Configured(p, env), env, false);
  }

  lemma ResumeFrame(p: World, env: Env)
    ensures SameTracker(p, ToTransferring(Resume(p, env))) && LogKept(p, ToTransferring(Resume(p, env)))
  {
    SendFrame(Reconfigured(p, env), env, false);
  }

  lemma PerformFrame(p: World, op: Operation, env: Env)
    ensures SameTracker(p, Perform(p, op, env)) && LogKept(p, Perform(p, op, env))
  {
    if op == Start && State(p) == Created {
      BeginFrame(p, env);
    } else if op == Start && State(p) == Paused {
      ResumeFrame(p, env);
    }
  }

  lemma QuietFrame(p: World, task: Task, env: Env)
    requires KindOf(task) in {KUpdate, KAlreadyDone}
    ensures SameTracker(p, Execute(p, task, env)) && LogKept(p, Execute(p, task, env))
  {
  }

  lemma RetryFrame(p: World, env: Env)
    ensures SameTracker(p, Execute(p, Retry, env)) && LogKept(p, Execute(p, Retry, env))
  {
    SendFrame(p, env, true);
  }

  lemma TransientRetryFrame(p: World, env: Env)
    ensures SameTracker(p, OnTransientRetry(p, env)) && LogKept(p, OnTransientRetry(p, env))
  {
    SendFrame(p, env, false);
  }

  lemma CheckedFrame(p: World)
    ensures (SameTracker(p, OnCheck(p)) || CheckedOnce(p, OnCheck(p))) && LogKept(p, OnCheck(p))
  {
    CheckFrame(p);
  }

  lemma ExecuteFrame(p: World, task: Task, env: Env)
    ensures SameTracker(p, Execute(p, task, env)) || CheckedOnce(p, Execute(p, task, env))
    ensures LogKept(p, Execute(p, task, env))
  {
    match task
    case Retry => RetryFrame(p, env);
    case TransientRetry => TransientRetryFrame(p, env);
    case Check => CheckedFrame(p);
    case Call(op, _) => PerformFrame(p, op, env);
    case _ => QuietFrame(p, task, env);
  }

  lemma StepFrame(w: World, e: Event)
    requires Enabled(w, e)
    ensures SameTracker(w, Next(w, e)) || CheckedOnce(w, Next(w, e))
    ensures LogKept(w, Next(w, e))
  {
    if e.RunNext? {
      ExecuteFrame(w.(queue := w.queue[1..]), w.queue[0].task, e.env);
    }
  }

  // ---------------------------------------------------------------------------
  // The promises
  // ---------------------------------------------------------------------------

  /** The counter of the watchdog is the number of its latest checks without progress. */
  lemma WatchdogCountsStalls(w: World, maxNoProgress: nat)
    requires Reachable(w, maxNoProgress)
    ensures w.dl.tracker.noProgress == Stalls(w.checks)
    ensures w.dl.tracker.lastSeen <= w.dl.status.transferred
  {
    ReachableHistory(w, maxNoProgress);
  }

  predicate EndsTheSpell(e: Entry<Task>, now: int) {
    (e.task == Check && e.time <= now + CHECK_INTERVAL) || (e.task == AlreadyDone && e.time <= now)
  }

  /** While a download is transferring, its watchdog is due within one interval, or it is about to be reported as complete. */
  lemma WatchdogIsArmed(w: World, maxNoProgress: nat)
    requires Reachable(w, maxNoProgress) && State(w) == Transferring
    ensures exists i :: 0 <= i < |w.queue| && EndsTheSpell(w.queue[i], w.now)
  {
    ReachableIsSafe(w, maxNoProgress);
    var kind := if Select(w.queue, KCheck) != [] then KCheck else KAlreadyDone;
    var i := SelectedIsQueued(w.queue, kind, Select(w.queue, kind)[0]);
    assert EntryOk(w.queue[i], w.now) && EndsTheSpell(w.queue[i], w.now);
  }

  lemma {:induction false} SelectTwo(q: seq<Entry<Task>>, k: Kind, i: nat, j: nat)
    requires i < j < |q| && KindOf(q[i].task) == k && KindOf(q[j].task) == k
    ensures |Select(q, k)| >= 2
  {
    if i == 0 {
      SelectSome(q[1..], k, j - 1);
    } else {
      SelectTwo(q[1..], k, i - 1, j - 1);
    }
  }

  lemma OnlyOneWatchdog(w: World, maxNoProgress: nat)
    requires Reachable(w, maxNoProgress)
    ensures forall i, j :: 0 <= i < j < |w.queue| && w.queue[i].task == Check ==> w.queue[j].task != Check
  {
    forall i, j | 0 <= i < j < |w.queue| && w.queue[i].task == Check && w.queue[j].task == Check
      ensures |Select(w.queue, KCheck)| >= 2
    {
      SelectTwo(w.queue, KCheck, i, j);
    }
    ReachableIsSafe(w, maxNoProgress);
  }

  /** Along the whole run the download is transferring and its byte count stays at n. */
  ghost predicate Stalled(w: World, events: seq<Event>, z: World, n: nat)
    decreases |events|
  {
    && State(w) == Transferring && w.dl.status.transferred == n
    && if events == [] then w == z
       else Enabled(w, events[0]) && Stalled(Next(w, events[0]), events[1..], z, n)
  }

  /** How the watchdog of z has counted since w, when all that time nothing arrived after byte n. */
  predicate SpellCounted(w: World, z: World, n: nat) {
    && |z.checks| >= |w.checks| && z.dl.maxNoProgress == w.dl.maxNoProgress
    && (|z.checks| == |w.checks| ==>
          z.dl.tracker.lastSeen == w.dl.tracker.lastSeen && z.dl.tracker.noProgress == w.dl.tracker.noProgress)
    && (|z.checks| > |w.checks| ==>
          && z.dl.tracker.noProgress < w.dl.maxNoProgress
          && z.dl.tracker.noProgress == (if w.dl.tracker.lastSeen == n then w.dl.tracker.noProgress else -1) + |z.checks| - |w.checks|)
  }

  lemma SpellGoesOn(w: World, next: World, z: World, n: nat)
    requires SameTracker(w, next) || CheckedOnce(w, next)
    requires State(next) == Transferring && w.dl.status.transferred == n && w.dl.tracker.lastSeen <= n
    requires SpellCounted(next, z, n)
    ensures SpellCounted(w, z, n)
  {
  }

  lemma LastSeenIsPast(w: World)
    requires HistoryOk(w)
    ensures w.dl.tracker.lastSeen <= w.dl.status.transferred
  {
  }

  lemma SpellFrame(w: World, e: Event, n: nat)
    requires HistoryOk(w) && Enabled(w, e)
    ensures HistoryOk(Next(w, e)) && (SameTracker(w, Next(w, e)) || CheckedOnce(w, Next(w, e)))
  {
    NextKeepsHistory(w, e);
    StepFrame(w, e);
  }

  /**
   * A spell of transferring without a byte arriving lasts for no more checks than are left of the allowance,
   * and for no more than the whole allowance when a byte had arrived since the last check before the spell.
   */
  lemma {:induction false} StallIsBounded(w: World, events: seq<Event>, z: World, n: nat)
    requires HistoryOk(w) && Stalled(w, events, z, n)
    ensures SpellCounted(w, z, n)
    decreases |events|
  {
    if events != [] {
      var next := Next(w, events[0]);
      SpellFrame(w, events[0], n);
      StallIsBounded(next, events[1..], z, n);
      LastSeenIsPast(w);
      SpellGoesOn(w, next, z, n);
    }
  }

  /** The form callers care about: the number of checks a stalled download survives. */
  lemma WatchdogEndsStalls(w: World, maxNoProgress: nat, events: seq<Event>, z: World, n: nat)
    requires Reachable(w, maxNoProgress) && Stalled(w, events, z, n)
    ensures w.dl.tracker.lastSeen == n ==>
              |z.checks| - |w.checks| <= Max(0, w.dl.maxNoProgress - 1 - w.dl.tracker.noProgress)
    ensures |z.checks| - |w.checks| <= w.dl.maxNoProgress
  {
    ReachableHistory(w, maxNoProgress);
    StallIsBounded(w, events, z, n);
  }

  lemma AttemptsCountTheRun(w: World, maxNoProgress: nat)
    requires Reachable(w, maxNoProgress)
    ensures w.dl.attempts == SameSourceRun(w.log) && w.dl.source == LastSource(w.log)
    ensures w.dl.originalAttempted <==> CdnUsed(w.log)
  {
    ReachableHistory(w, maxNoProgress);
  }

  /** Once MCC has been given up, every later request goes to the original URL. */
  lemma {:induction false} MccStaysGivenUp(w: World, events: seq<Event>, z: World)
    requires RunsTo(w, events, z) && !w.dl.allowMcc
    ensures !z.dl.allowMcc && w.log <= z.log
    ensures forall i :: |w.log| <= i < |z.log| ==> z.log[i].source == CDN
    decreases |events|
  {
    if events != [] {
      var next := Next(w, events[0]);
      StepFrame(w, events[0]);
      MccStaysGivenUp(next, events[1..], z);
      assert forall i :: |w.log| <= i < |next.log| ==> next.log[i] == z.log[i];
    }
  }
}
