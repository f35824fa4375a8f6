/**
 * What every operation and every task makes of a download, as a table over its fields: the state it ends in, the reply,
 * what becomes of request, file and queue, and when the next task is due. Times are in milliseconds.
 */
module EngineOutcomes {
  import opened TaskQueues
  import opened Engine
  import opened EngineQueue
  import opened EngineSafety
  import opened EngineHistory

  // ---------------------------------------------------------------------------
  // Where a task goes in the queue
  // ---------------------------------------------------------------------------

  /** z is q with e behind everything that is due no later, and ahead of everything else. */
  ghost predicate QueuedInto(q: seq<Entry<Task>>, e: Entry<Task>, z: seq<Entry<Task>>) {
    exists k :: && 0 <= k <= |q| && z == q[..k] + [e] + q[k..]
                && (forall i :: 0 <= i < k ==> q[i].time <= e.time)
                && (forall i :: k <= i < |q| ==> e.time < q[i].time)
  }

  /** z is q with e ahead of everything, and due at once. */
  predicate AtTheFront(q: seq<Entry<Task>>, now: int, task: Task, tag: Tag, z: seq<Entry<Task>>) {
    && z != [] && z[0].task == task && z[0].tag == tag && z[1..] == q
    && z[0].time < now && forall i :: 0 <= i < |q| ==> z[0].time < q[i].time
  }

  lemma InsertQueues(q: seq<Entry<Task>>, e: Entry<Task>)
    requires Sorted(q)
    ensures QueuedInto(q, e, Insert(q, e))
  {
    var k := Place(q, e);
  }

  lemma FrontQueues(q: seq<Entry<Task>>, now: int, task: Task, tag: Tag)
    requires Sorted(q)
    ensures AtTheFront(q, now, task, tag, AddFront(q, now, task, tag))
  {
    assert ([Entry(FrontTime(q, now), task, tag)] + q)[1..] == q;
  }

  /** The callers' operations of a queue. */
  function Operations(q: seq<Entry<Task>>): seq<Entry<Task>> {
    if q == [] then [] else (if q[0].task.Call? then [q[0]] else []) + Operations(q[1..])
  }

  lemma {:induction false} CancelLeavesOperations(q: seq<Entry<Task>>, now: int)
    requires forall i :: 0 <= i < |q| ==> EntryOk(q[i], now)
    ensures RemoveTag(RemoveTag(q, DOWNLOAD_TAG), TRACKER_TAG) == Operations(q)
  {
    if q != [] {
      assert EntryOk(q[0], now);
      CancelLeavesOperations(q[1..], now);
      if q[0].task.Call? {
        assert ([q[0]] + RemoveTag(q[1..], DOWNLOAD_TAG))[1..] == RemoveTag(q[1..], DOWNLOAD_TAG);
      } else if q[0].task == Check {
        assert ([q[0]] + RemoveTag(q[1..], DOWNLOAD_TAG))[1..] == RemoveTag(q[1..], DOWNLOAD_TAG);
      }
    }
  }

  // ---------------------------------------------------------------------------
  // A caller's operation
  // ---------------------------------------------------------------------------

  /** A caller's operation is the next task to run. */
  predicate CallRuns(w: World, op: Operation, ticket: nat, env: Env) {
    Enabled(w, RunNext(env)) && w.queue[0].task == Call(op, ticket)
  }

  /** The state each operation leads to from each state. */
  function StateAfter(s: DownloadState, op: Operation, canOpen: bool): DownloadState {
    match op
    case Start => if (s == Created || s == Paused) && canOpen then Transferring else s
    case Pause => if s == Transferring then Paused else s
    case Finalize => if s == Transferred then Finalized else s
    case Abort => if s == Finalized then s else Aborted
    case GetStatus => s
  }

  /** Which operations are accepted in each state: anything but what would leave a final state or finalize too early. */
  predicate IsAccepted(s: DownloadState, op: Operation, canOpen: bool) {
    match s
    case Created => op in {Pause, Abort, GetStatus} || (op == Start && canOpen)
    case Transferring => op in {Start, Pause, Abort, GetStatus}
    case Transferred => op in {Start, Pause, Finalize, Abort, GetStatus}
    case Paused => op in {Pause, Abort, GetStatus} || (op == Start && canOpen)
    case Finalized => op in {Finalize, GetStatus}
    case Aborted => op in {Abort, GetStatus}
  }

  lemma SendMovesNowhere(w: World, env: Env, retry: bool)
    ensures State(SendRequest(w, env, retry)) == State(w) && SendRequest(w, env, retry).replies == w.replies
  {
  }

  lemma StartMoves(w: World, env: Env)
    ensures State(Perform(w, Start, env)) == StateAfter(State(w), Start, env.canOpen)
    ensures Perform(w, Start, env).replies == w.replies
  {
    SendMovesNowhere(Configured(w, env), env, false);
    SendMovesNowhere(Reconfigured(w, env), env, false);
  }

  lemma PerformMoves(w: World, op: Operation, env: Env)
    ensures State(Perform(w, op, env)) == StateAfter(State(w), op, env.canOpen)
    ensures Perform(w, op, env).replies == w.replies
  {
    if op == Start {
      StartMoves(w, env);
    }
  }

  lemma PerformStays(w: World, op: Operation, env: Env)
    requires StateAfter(State(w), op, env.canOpen) == State(w)
    ensures Perform(w, op, env) == w
  {
  }

  lemma AcceptsTable(s: DownloadState, op: Operation, canOpen: bool)
    ensures Accepts(s, op, canOpen) <==> IsAccepted(s, op, canOpen)
  {
  }

  /**
   * The state machine: every operation leads to the state of the table and is answered with the status there. One that
   * leads nowhere, refused or not, changes nothing else.
   */
  lemma TransitionTable(w: World, op: Operation, ticket: nat, env: Env)
    requires CallRuns(w, op, ticket, env)
    ensures var z := Next(w, RunNext(env));
            && State(z) == StateAfter(State(w), op, env.canOpen)
            && z.replies == w.replies[ticket := Reply(IsAccepted(State(w), op, env.canOpen), z.dl.status)]
            && (State(z) == State(w) ==> z == w.(queue := w.queue[1..], replies := z.replies))
  {
    var p := w.(queue := w.queue[1..]);
    PerformMoves(p, op, env);
    AcceptsTable(State(p), op, env.canOpen);
    if StateAfter(State(p), op, env.canOpen) == State(p) {
      PerformStays(p, op, env);
    }
  }

  /** Pausing closes the request and leaves file and queue alone. */
  lemma PauseOutcome(w: World, ticket: nat, env: Env)
    requires CallRuns(w, Pause, ticket, env) && State(w) == Transferring
    ensures var z := Next(w, RunNext(env)); var s := w.dl.status;
            z == w.(agent := Idle, queue := w.queue[1..], replies := z.replies,
                    dl := w.dl.(httpActive := false, status := Status(s.total, s.transferred, Paused, Ok, Ok)))
  {
  }

  /** Finalizing closes the request, and of the queue only callers' operations are left. */
  lemma FinalizeOutcome(w: World, maxNoProgress: nat, ticket: nat, env: Env)
    requires Reachable(w, maxNoProgress) && CallRuns(w, Finalize, ticket, env) && State(w) == Transferred
    ensures var z := Next(w, RunNext(env)); var s := w.dl.status;
            z == w.(agent := Idle, queue := Operations(w.queue[1..]), replies := z.replies,
                    dl := w.dl.(httpActive := false, status := Status(s.total, s.transferred, Finalized, s.error, s.extended)))
  {
    ReachableIsSafe(w, maxNoProgress);
    PopContents(w.queue, w.now);
    CancelLeavesOperations(w.queue[1..], w.now);
  }

  lemma AbortCancels(p: World)
    requires QueueOk(p.queue, p.now)
    ensures var s := p.dl.status;
            AbortTransfer(p) == p.(agent := Idle, file := "", queue := Operations(p.queue),
                                   dl := p.dl.(status := Status(s.total, s.transferred, Aborted, s.error, s.extended)))
  {
    CancelLeavesOperations(p.queue, p.now);
  }

  lemma AbortRuns(p: World, env: Env)
    requires State(p) in {Created, Transferring, Transferred, Paused}
    ensures Perform(p, Abort, env) == AbortTransfer(p)
  {
  }

  /** Aborting closes the request and deletes the file, and of the queue only callers' operations are left. */
  lemma AbortOutcome(w: World, maxNoProgress: nat, ticket: nat, env: Env)
    requires Reachable(w, maxNoProgress) && CallRuns(w, Abort, ticket, env)
    requires State(w) in {Created, Transferring, Transferred, Paused}
    ensures var z := Next(w, RunNext(env)); var s := w.dl.status;
            z == w.(agent := Idle, file := "", queue := Operations(w.queue[1..]), replies := z.replies,
                    dl := w.dl.(status := Status(s.total, s.transferred, Aborted, s.error, s.extended)))
  {
    ReachableIsSafe(w, maxNoProgress);
    PopContents(w.queue, w.now);
    AbortRuns(w.(queue := w.queue[1..]), env);
    AbortCancels(w.(queue := w.queue[1..]));
  }

  // ---------------------------------------------------------------------------
  // Sending a request
  // ---------------------------------------------------------------------------

  /** A check is queued in z: the one in q, or else one that is due in ten seconds. */
  ghost predicate CheckIsQueued(q: seq<Entry<Task>>, now: int, z: seq<Entry<Task>>) {
    if exists i :: 0 <= i < |q| && q[i].task == Check then z == q else QueuedInto(q, Entry(now + 10_000, Check, TRACKER_TAG), z)
  }

  lemma CheckHasTag(q: seq<Entry<Task>>, now: int)
    requires QueueOk(q, now)
    ensures HasTag(q, TRACKER_TAG) <==> exists i :: 0 <= i < |q| && q[i].task == Check
  {
    TrackerTagIsCheck(q, now);
    if Select(q, KCheck) != [] {
      var i := SelectedIsQueued(q, KCheck, Select(q, KCheck)[0]);
    }
    forall i | 0 <= i < |q| && q[i].task == Check ensures Select(q, KCheck) != [] {
      SelectSome(q, KCheck, i);
    }
  }

  lemma CheckGetsQueued(w: World)
    requires QueueOk(w.queue, w.now)
    ensures CheckIsQueued(w.queue, w.now, ScheduleCheck(w).queue)
  {
    CheckHasTag(w.queue, w.now);
    InsertQueues(w.queue, Entry(w.now + 10_000, Check, TRACKER_TAG));
  }

  /** Transferring without an error, one request has been handed to the agent, and the watchdog is armed. */
  ghost predicate RequestIsSent(w: World, z: World) {
    var s := w.dl.status;
    && z.dl.status == Status(s.total, s.transferred, Transferring, Ok, Ok) && z.dl.httpActive
    && |z.log| == |w.log| + 1 && z.log[..|w.log|] == w.log
    && z.agent.Busy? && (w.agent == Idle ==> z.agent == Busy(z.log[|w.log|].headers, 0, false))
    && CheckIsQueued(w.queue, w.now, z.queue)
    && z.now == w.now && z.dl.tracker == w.dl.tracker && z.checks == w.checks && z.tickets == w.tickets
  }

  lemma SendingSends(w: World, env: Env, retry: bool)
    requires QueueOk(w.queue, w.now)
    ensures RequestIsSent(w, ToTransferring(SendRequest(w, env, retry)))
    ensures SendRequest(w, env, retry).file == w.file && SendRequest(w, env, retry).replies == w.replies
  {
    var sent := HandOver(w, Choose(w.dl, w.now, retry, env.banned),
                         RequestFor(w.dl, w.requestHeaders, w.now, retry, env.banned));
    CheckGetsQueued(sent);
  }

  /** A first Start sends a request for the whole resource, and the file is empty. */
  lemma StartOutcome(w: World, maxNoProgress: nat, ticket: nat, env: Env)
    requires Reachable(w, maxNoProgress) && CallRuns(w, Start, ticket, env) && State(w) == Created && env.canOpen
    ensures var z := Next(w, RunNext(env));
            RequestIsSent(w.(queue := w.queue[1..]), z) && z.file == "" && z.agent == Busy([], 0, false)
  {
    ReachableIsSafe(w, maxNoProgress);
    PopContents(w.queue, w.now);
    SendingSends(Configured(w.(queue := w.queue[1..]), env), env, false);
  }

  /**
   * A Start that resumes a download sends a request, unless all bytes are there: then it is transferring until a task at
   * the front of the queue reports it as complete.
   */
  lemma ResumeOutcome(w: World, maxNoProgress: nat, ticket: nat, env: Env)
    requires Reachable(w, maxNoProgress) && CallRuns(w, Start, ticket, env) && State(w) == Paused && env.canOpen
    ensures var z := Next(w, RunNext(env)); var s := w.dl.status;
            if s.total != 0 && s.transferred == s.total then
              && AtTheFront(w.queue[1..], w.now, AlreadyDone, DOWNLOAD_TAG, z.queue)
              && z == w.(queue := z.queue, replies := z.replies,
                         dl := w.dl.(status := Status(s.total, s.transferred, Transferring, Ok, Ok)))
            else RequestIsSent(w.(queue := w.queue[1..]), z) && z.file == w.file
  {
    ReachableIsSafe(w, maxNoProgress);
    PopContents(w.queue, w.now);
    var p := w.(queue := w.queue[1..]);
    if AllCounted(p.dl.status) {
      FrontQueues(p.queue, p.now, AlreadyDone, DOWNLOAD_TAG);
    } else {
      SendingSends(Reconfigured(p, env), env, false);
    }
  }

  // ---------------------------------------------------------------------------
  // A failed request
  // ---------------------------------------------------------------------------

  /** The failure of a request is the next task to run. */
  predicate FailureRuns(w: World, f: Failure, env: Env) {
    Enabled(w, RunNext(env)) && w.queue[0].task == Failed(f)
  }

  /** Which failures are final for source and fallback time of the download. */
  predicate IsFinalFailure(source: Source, fallback: Fallback, f: Failure) {
    || f.callback != Ok
    || (400 <= f.httpStatus < 500 && (source != MCC || fallback == Never))
    || f.request == OutOfMemory || f.request == InvalidUrl || f.request == InsufficientRangeSupport || f.request == WriteError
  }

  /** Which failures of MCC are retried at once: client errors, and all while the original URL should take over. */
  predicate LeavesMccAtOnce(d: Download, now: int, f: Failure) {
    d.source == MCC && (400 <= f.httpStatus < 500 || (d.fallback == Unset && !d.originalAttempted)
                        || (d.fallback.At? && d.fallback.time <= now))
  }

  function AtMost(limit: int, n: int): int {
    if n <= limit then n else limit
  }

  /** A final failure pauses the download with its error, the callback's first, and queues nothing. */
  lemma FinalFailureOutcome(w: World, f: Failure, env: Env)
    requires FailureRuns(w, f, env) && env.network && IsFinalFailure(w.dl.source, w.dl.fallback, f)
    ensures var z := Next(w, RunNext(env)); var s := w.dl.status;
            z == w.(agent := Idle, queue := w.queue[1..],
                    dl := w.dl.(httpActive := false,
                                status := Status(s.total, s.transferred, Paused,
                                                 if f.callback != Ok then f.callback else f.request, Ok)))
  {
  }

  /** When the retry is due: the delay doubles, with thirty seconds at most, but there is none when MCC is left. */
  function RetryIn(w: World, f: Failure): int {
    if LeavesMccAtOnce(w.dl, w.now, f) then 0 else AtMost(30_000, 2 * w.dl.tracker.nextRetryDelay)
  }

  /** The status keeps the error, and the next delay starts over when MCC was left. */
  predicate KeepsError(w: World, f: Failure, z: World) {
    var s := w.dl.status;
    var t := w.dl.tracker;
    z == w.(queue := z.queue,
            dl := w.dl.(httpActive := false,
                        status := Status(s.total, s.transferred, s.state, f.request, s.extended),
                        tracker := Tracker(if LeavesMccAtOnce(w.dl, w.now, f) then 1_000 else RetryIn(w, f),
                                           t.noProgress, t.lastSeen)))
  }

  ghost predicate IsRetried(w: World, f: Failure, z: World) {
    QueuedInto(w.queue, Entry(w.now + RetryIn(w, f), Retry, DOWNLOAD_TAG), z.queue) && KeepsError(w, f, z)
  }

  lemma RetryIsScheduled(w: World, f: Failure)
    requires 0 <= w.dl.tracker.nextRetryDelay && f.callback == Ok
    ensures var z := ScheduleRetry(w.(dl := w.dl.(httpActive := false)), f);
            z.queue == Insert(w.queue, Entry(w.now + RetryIn(w, f), Retry, DOWNLOAD_TAG)) && KeepsError(w, f, z)
  {
  }

  lemma RetryGetsQueued(w: World, f: Failure)
    requires Sorted(w.queue) && 0 <= w.dl.tracker.nextRetryDelay && f.callback == Ok
    ensures IsRetried(w, f, ScheduleRetry(w.(dl := w.dl.(httpActive := false)), f))
  {
    RetryIsScheduled(w, f);
    InsertQueues(w.queue, Entry(w.now + RetryIn(w, f), Retry, DOWNLOAD_TAG));
  }

  lemma RetriesUnlessFinal(p: World, f: Failure, env: Env)
    requires env.network && !IsFinalFailure(p.dl.source, p.dl.fallback, f)
    ensures OnFailed(p, f, env) == ScheduleRetry(p.(dl := p.dl.(httpActive := false)), f)
  {
  }

  /** Any other failure leaves the state as it is and queues one retry. */
  lemma RetriedFailureOutcome(w: World, maxNoProgress: nat, f: Failure, env: Env)
    requires Reachable(w, maxNoProgress)
    requires FailureRuns(w, f, env) && env.network && !IsFinalFailure(w.dl.source, w.dl.fallback, f)
    ensures IsRetried(w.(queue := w.queue[1..]), f, Next(w, RunNext(env)))
  {
    ReachableIsSafe(w, maxNoProgress);
    PopContents(w.queue, w.now);
    RetriesUnlessFinal(w.(queue := w.queue[1..]), f, env);
    RetryGetsQueued(w.(queue := w.queue[1..]), f);
  }

  lemma SelectSplice(q: seq<Entry<Task>>, k: nat, e: Entry<Task>)
    requires k <= |q|
    ensures |Select(q[..k] + [e] + q[k..], KRetry)| == |Select(q, KRetry)| + if e.task == Retry then 1 else 0
  {
    SelectSplit(q[..k] + [e], q[k..], KRetry);
    SelectSplit(q[..k], [e], KRetry);
    SelectSplit(q[..k], q[k..], KRetry);
    assert q[..k] + q[k..] == q;
  }

  lemma QueuedRetries(q: seq<Entry<Task>>, e: Entry<Task>, z: seq<Entry<Task>>)
    requires QueuedInto(q, e, z)
    ensures |Select(z, KRetry)| == |Select(q, KRetry)| + if e.task == Retry then 1 else 0
  {
    var k :| 0 <= k <= |q| && z == q[..k] + [e] + q[k..];
    SelectSplice(q, k, e);
  }

  lemma FinalAddsNoRetry(w: World, f: Failure, env: Env)
    requires FailureRuns(w, f, env) && env.network && IsFinalFailure(w.dl.source, w.dl.fallback, f)
    ensures Select(Next(w, RunNext(env)).queue, KRetry) == Select(w.queue, KRetry) && State(Next(w, RunNext(env))) == Paused
  {
    FinalFailureOutcome(w, f, env);
  }

  lemma OthersAddOneRetry(w: World, maxNoProgress: nat, f: Failure, env: Env)
    requires Reachable(w, maxNoProgress)
    requires FailureRuns(w, f, env) && env.network && !IsFinalFailure(w.dl.source, w.dl.fallback, f)
    ensures |Select(Next(w, RunNext(env)).queue, KRetry)| == |Select(w.queue, KRetry)| + 1
    ensures State(Next(w, RunNext(env))) == State(w)
  {
    RetriedFailureOutcome(w, maxNoProgress, f, env);
    QueuedRetries(w.queue[1..], Entry(w.now + RetryIn(w, f), Retry, DOWNLOAD_TAG), Next(w, RunNext(env)).queue);
  }

  /** With the network up a failure ends without a retry exactly when it is final. */
  lemma FailsExactlyWhenFinal(w: World, maxNoProgress: nat, f: Failure, env: Env)
    requires Reachable(w, maxNoProgress) && FailureRuns(w, f, env) && env.network
    ensures var z := Next(w, RunNext(env)); var retries := |Select(z.queue, KRetry)| - |Select(w.queue, KRetry)|;
            && (retries == 0 <==> IsFinalFailure(w.dl.source, w.dl.fallback, f))
            && (retries == 1 <==> !IsFinalFailure(w.dl.source, w.dl.fallback, f))
            && (State(w) == Transferring ==> (State(z) == Paused <==> IsFinalFailure(w.dl.source, w.dl.fallback, f)))
  {
    if IsFinalFailure(w.dl.source, w.dl.fallback, f) {
      FinalAddsNoRetry(w, f, env);
    } else {
      OthersAddOneRetry(w, maxNoProgress, f, env);
    }
  }

  /** A transient error: paused without an error of its own, and a timer is due in thirty seconds. */
  ghost predicate PausedByNetwork(w: World, z: World, httpActive: bool) {
    var s := w.dl.status;
    && QueuedInto(w.queue, Entry(w.now + 30_000, TransientRetry, DOWNLOAD_TAG), z.queue)
    && z == w.(queue := z.queue,
               dl := w.dl.(httpActive := httpActive, status := Status(s.total, s.transferred, Paused, Ok, NoNetwork)))
  }

  lemma NetworkPauses(w: World)
    requires Sorted(w.queue)
    ensures PausedByNetwork(w, EnterTransientError(w), w.dl.httpActive)
  {
    InsertQueues(w.queue, Entry(w.now + 30_000, TransientRetry, DOWNLOAD_TAG));
  }

  /** With the network down every failure is a transient error. */
  lemma OfflineFailureOutcome(w: World, maxNoProgress: nat, f: Failure, env: Env)
    requires Reachable(w, maxNoProgress) && FailureRuns(w, f, env) && !env.network
    ensures PausedByNetwork(w.(queue := w.queue[1..]), Next(w, RunNext(env)), false)
  {
    ReachableIsSafe(w, maxNoProgress);
    PopContents(w.queue, w.now);
    var p := w.(queue := w.queue[1..]);
    OfflineFailure(p, f, env);
    PausedByNetworkFrom(p, EnterTransientError(p.(dl := p.dl.(httpActive := false))));
    NetworkPauses(p.(dl := p.dl.(httpActive := false)));
  }

  lemma OfflineFailure(p: World, f: Failure, env: Env)
    requires !env.network
    ensures OnFailed(p, f, env) == EnterTransientError(p.(dl := p.dl.(httpActive := false)))
  {
  }

  lemma PausedByNetworkFrom(p: World, z: World)
    ensures PausedByNetwork(p.(dl := p.dl.(httpActive := false)), z, false) ==> PausedByNetwork(p, z, false)
  {
  }

  // ---------------------------------------------------------------------------
  // Timers
  // ---------------------------------------------------------------------------

  predicate TaskRuns(w: World, task: Task, env: Env) {
    Enabled(w, RunNext(env)) && w.queue[0].task == task
  }

  /** A retry sends a request if and only if the download is transferring with none active, and else does nothing. */
  lemma RetryOutcome(w: World, maxNoProgress: nat, env: Env)
    requires Reachable(w, maxNoProgress) && TaskRuns(w, Retry, env)
    ensures var z := Next(w, RunNext(env)); var p := w.(queue := w.queue[1..]);
            if State(w) == Transferring && !w.dl.httpActive then RequestIsSent(p, z) && z.file == w.file && z.replies == w.replies
            else z == p
  {
    ReachableIsSafe(w, maxNoProgress);
    PopContents(w.queue, w.now);
    SendingSends(w.(queue := w.queue[1..]), env, true);
  }

  /** The timer of a transient error arms itself again while the network is down. */
  lemma TimerOfflineOutcome(w: World, maxNoProgress: nat, env: Env)
    requires Reachable(w, maxNoProgress) && TaskRuns(w, TransientRetry, env) && !env.network
    ensures PausedByNetwork(w.(queue := w.queue[1..]), Next(w, RunNext(env)), w.dl.httpActive)
  {
    ReachableIsSafe(w, maxNoProgress);
    PopContents(w.queue, w.now);
    NetworkPauses(w.(queue := w.queue[1..]));
  }

  /** Once the network is up the timer resumes what it paused, and nothing else. */
  lemma TimerOnlineOutcome(w: World, maxNoProgress: nat, env: Env)
    requires Reachable(w, maxNoProgress) && TaskRuns(w, TransientRetry, env) && env.network
    ensures var z := Next(w, RunNext(env)); var p := w.(queue := w.queue[1..]); var s := w.dl.status;
            if s.state == Paused && s.error == Ok && s.extended != Ok
            then RequestIsSent(p, z) && z.file == w.file && z.replies == w.replies else z == p
  {
    ReachableIsSafe(w, maxNoProgress);
    PopContents(w.queue, w.now);
    SendingSends(w.(queue := w.queue[1..]), env, false);
  }

  /** The counters after a check. */
  predicate Counted(t: Tracker, transferred: nat, t': Tracker) {
    && t'.nextRetryDelay == t.nextRetryDelay
    && (transferred > t.lastSeen ==> t'.noProgress == 0 && t'.lastSeen == transferred)
    && (transferred <= t.lastSeen ==> t'.noProgress == t.noProgress + 1 && t'.lastSeen == t.lastSeen)
  }

  /** The allowance is used up: the download pauses for want of progress, with the error it had as the extended one. */
  predicate GivesUp(w: World, t: Tracker, z: World) {
    var s := w.dl.status;
    z == w.(agent := Idle, checks := w.checks + [s.transferred],
            dl := w.dl.(tracker := t, httpActive := false,
                        status := Status(s.total, s.transferred, Paused, NoProgress, s.error)))
  }

  /** The download goes on, and the next check is due in ten seconds. */
  ghost predicate GoesOn(w: World, t: Tracker, z: World) {
    && QueuedInto(w.queue, Entry(w.now + 10_000, Check, TRACKER_TAG), z.queue)
    && z == w.(queue := z.queue, checks := w.checks + [w.dl.status.transferred], dl := w.dl.(tracker := t))
  }

  lemma CheckedOutcome(p: World)
    requires Sorted(p.queue) && !HasTag(p.queue, TRACKER_TAG) && State(p) == Transferring
    ensures var t := OnCheck(p).dl.tracker;
            && Counted(p.dl.tracker, p.dl.status.transferred, t)
            && if t.noProgress >= p.dl.maxNoProgress then GivesUp(p, t, OnCheck(p)) else GoesOn(p, t, OnCheck(p))
  {
    InsertQueues(p.queue, Entry(p.now + 10_000, Check, TRACKER_TAG));
  }

  /** A check counts, and then the download gives up exactly when the allowance is used up. */
  lemma CheckOutcome(w: World, maxNoProgress: nat, env: Env)
    requires Reachable(w, maxNoProgress) && TaskRuns(w, Check, env)
    ensures var z := Next(w, RunNext(env)); var p := w.(queue := w.queue[1..]); var t := z.dl.tracker;
            if State(w) != Transferring then z == p
            else
              && Counted(w.dl.tracker, w.dl.status.transferred, t)
              && if t.noProgress >= w.dl.maxNoProgress then GivesUp(p, t, z) else GoesOn(p, t, z)
  {
    ReachableIsSafe(w, maxNoProgress);
    PopContents(w.queue, w.now);
    NoOtherCheck(w.queue, w.now);
    if State(w) == Transferring {
      CheckedOutcome(w.(queue := w.queue[1..]));
    }
  }

  lemma NoOtherCheck(q: seq<Entry<Task>>, now: int)
    requires QueueOk(q, now) && q != [] && q[0].task == Check && |Select(q, KCheck)| <= 1
    ensures !HasTag(q[1..], TRACKER_TAG)
  {
    PopContents(q, now);
    TrackerTagIsCheck(q[1..], now);
  }

  // ---------------------------------------------------------------------------
  // Updates
  // ---------------------------------------------------------------------------

  /** What the updates of a request, and the one that all bytes were there, make of the status; nothing else changes. */
  lemma UpdateOutcome(w: World, env: Env)
    requires Enabled(w, RunNext(env))
    ensures var z := Next(w, RunNext(env)); var p := w.(queue := w.queue[1..]); var s := w.dl.status; var task := w.queue[0].task;
            && (task.Headers? ==>
                  z == p.(dl := p.dl.(status := Status(task.total, s.transferred, s.state, s.error, s.extended))))
            && (task.Data? ==>
                  z == p.(dl := p.dl.(status := Status(s.total, s.transferred + task.count, s.state, s.error, s.extended))))
            && (task == Done ==>
                  z == p.(dl := p.dl.(httpActive := false,
                                      status := Status(s.total, s.transferred, Transferred, s.error, s.extended))))
            && (task == AlreadyDone ==>
                  z == p.(dl := p.dl.(status := Status(s.total, s.transferred, Transferred, s.error, s.extended))))
  {
  }

  // ---------------------------------------------------------------------------
  // The other parties
  // ---------------------------------------------------------------------------

  /** Start, Pause, Finalize and Abort run before everything that is queued. */
  lemma OperationsGoFirst(w: World, maxNoProgress: nat, op: Operation)
    requires Reachable(w, maxNoProgress) && op != GetStatus
    ensures var z := Next(w, Submit(op));
            AtTheFront(w.queue, w.now, Call(op, w.tickets), NULL_TAG, z.queue) && z == w.(queue := z.queue, tickets := w.tickets + 1)
  {
    ReachableIsSafe(w, maxNoProgress);
    FrontQueues(w.queue, w.now, Call(op, w.tickets), NULL_TAG);
  }

  lemma StatusIsInserted(w: World)
    ensures SubmitCall(w, GetStatus)
         == w.(queue := Insert(w.queue, Entry(w.now, Call(GetStatus, w.tickets), NULL_TAG)), tickets := w.tickets + 1)
  {
  }

  /** GetStatus runs after everything that is due. */
  lemma StatusGoesLast(w: World, maxNoProgress: nat)
    requires Reachable(w, maxNoProgress)
    ensures var z := Next(w, Submit(GetStatus));
            && QueuedInto(w.queue, Entry(w.now, Call(GetStatus, w.tickets), NULL_TAG), z.queue)
            && z == w.(queue := z.queue, tickets := w.tickets + 1)
  {
    ReachableIsSafe(w, maxNoProgress);
    StatusIsInserted(w);
    InsertQueues(w.queue, Entry(w.now, Call(GetStatus, w.tickets), NULL_TAG));
  }

  /** z is w with one update queued behind everything that is due, and otherwise only file and agent changed. */
  ghost predicate Queues(w: World, update: Task, file: string, agent: Agent, z: World) {
    && QueuedInto(w.queue, Entry(w.now, update, DOWNLOAD_TAG), z.queue)
    && z == w.(queue := z.queue, file := file, agent := agent)
  }

  lemma UpdateQueues(w: World, update: Task)
    requires Sorted(w.queue)
    ensures Queues(w, update, w.file, w.agent, Schedule(w, update, 0, DOWNLOAD_TAG))
  {
    InsertQueues(w.queue, Entry(w.now, update, DOWNLOAD_TAG));
  }

  /** Headers announce the total: the update is queued, and bytes may follow. */
  lemma RespondOutcome(w: World, maxNoProgress: nat, total: nat)
    requires Reachable(w, maxNoProgress) && Enabled(w, Respond(total))
    ensures Queues(w, Headers(total), w.file, Busy(w.agent.sent, w.agent.delivered, true), Next(w, Respond(total)))
  {
    ReachableIsSafe(w, maxNoProgress);
    UpdateQueues(w.(agent := w.agent.(headersSeen := true)), Headers(total));
  }

  /** Bytes go to the file at once, and their count is queued. */
  lemma DeliverOutcome(w: World, maxNoProgress: nat, bytes: string)
    requires Reachable(w, maxNoProgress) && Enabled(w, Deliver(bytes))
    ensures Queues(w, Data(|bytes|), w.file + bytes, Busy(w.agent.sent, w.agent.delivered + |bytes|, true),
                   Next(w, Deliver(bytes)))
  {
    ReachableIsSafe(w, maxNoProgress);
    var a := w.agent.(delivered := w.agent.delivered + |bytes|);
    UpdateQueues(w.(agent := a, file := w.file + bytes), Data(|bytes|));
  }

  /** The end of a response frees the agent and queues the completion. */
  lemma FinishOutcome(w: World, maxNoProgress: nat)
    requires Reachable(w, maxNoProgress) && Enabled(w, Finish)
    ensures Queues(w, Done, w.file, Idle, Next(w, Finish))
  {
    ReachableIsSafe(w, maxNoProgress);
    UpdateQueues(w.(agent := Idle), Done);
  }

  /** A response that fails frees the agent and queues its failure. */
  lemma FailOutcome(w: World, maxNoProgress: nat, f: Failure)
    requires Reachable(w, maxNoProgress) && Enabled(w, Fail(f))
    ensures Queues(w, Failed(f), w.file, Idle, Next(w, Fail(f)))
  {
    ReachableIsSafe(w, maxNoProgress);
    UpdateQueues(w.(agent := Idle), Failed(f));
  }
}
