/**
 * The timer of a transient error: it stays armed behind a running download exactly when a caller starts the download in
 * the transient error, and from there the code can reach an assertion that fails.
 */
module EngineTimers {
  import opened TaskQueues
  import opened Engine
  import opened EngineQueue
  import opened EngineSafety
  import opened EngineHistory
  import opened EngineResume
  import opened EnginePromises
  import opened EngineStatus

  /** The next task is a Start that resumes a paused download. */
  predicate Resumes(w: World, env: Env) {
    && Enabled(w, RunNext(env)) && env.canOpen && State(w) == Paused
    && w.queue[0].task.Call? && w.queue[0].task.operation == Start
  }

  // ---------------------------------------------------------------------------
  // When the timer stays armed
  // ---------------------------------------------------------------------------

  lemma ResumeKeepsTimers(p: World, env: Env)
    requires QueueOk(p.queue, p.now)
    ensures ContentsOf(Resume(p, env).queue).transients == ContentsOf(p.queue).transients
  {
    if AllCounted(p.dl.status) {
      AddFrontContents(p.queue, p.now, AlreadyDone);
    } else {
      SendRequestContents(Reconfigured(p, env), env, false);
    }
  }

  lemma ResumingRuns(w: World, env: Env)
    requires Safe(w) && Resumes(w, env)
    ensures State(Next(w, RunNext(env))) == Transferring
    ensures ContentsOf(Next(w, RunNext(env)).queue).transients == ContentsOf(w.queue).transients
  {
    PopContents(w.queue, w.now);
    ResumeKeepsTimers(w.(queue := w.queue[1..]), env);
  }

  /**
   * A Start that resumes a download makes it transferring, and leaves a timer of a transient error queued behind it
   * exactly when it was paused by a transient error. A caller can read that from the status beforehand.
   */
  lemma TimerStaysArmedExactly(maxNoProgress: nat, events: seq<Event>, w: World, env: Env, r: string)
    requires HonestRun(NewWorld(maxNoProgress), events, w, r) && Resumes(w, env)
    ensures State(Next(w, RunNext(env))) == Transferring
    ensures ContentsOf(Next(w, RunNext(env)).queue).transients > 0 <==> w.dl.status.IsTransientError()
  {
    HonestlyReached(maxNoProgress, events, w, r);
    ResumingRuns(w, env);
  }

  // ---------------------------------------------------------------------------
  // Running a queue of timers
  // ---------------------------------------------------------------------------

  predicate OnlyTimers(q: seq<Entry<Task>>) {
    forall e :: e in q ==> e.task in {Check, Retry, TransientRetry}
  }

  /** The watchdog lets the download go on at its next check. */
  predicate HasAllowance(d: Download) {
    AfterCheck(d.tracker, d.status.transferred).noProgress < d.maxNoProgress
  }

  /** A request counts as running, and only timers are queued. */
  predicate Ticking(w: World) {
    Safe(w) && w.dl.httpActive && OnlyTimers(w.queue)
  }

  /** The first timer of a transient error is at k. */
  predicate FirstTimerAt(q: seq<Entry<Task>>, k: nat) {
    k < |q| && q[k].task == TransientRetry && forall i :: 0 <= i < k ==> q[i].task != TransientRetry
  }

  lemma {:induction false} FirstTimer(q: seq<Entry<Task>>) returns (k: nat)
    requires Select(q, KTransient) != []
    ensures FirstTimerAt(q, k)
  {
    if KindOf(q[0].task) == KTransient {
      k := 0;
    } else {
      var below := FirstTimer(q[1..]);
      k := below + 1;
      assert forall i :: 1 <= i < k ==> q[i] == q[1..][i - 1];
    }
  }

  lemma InsertBehind(q: seq<Entry<Task>>, e: Entry<Task>, k: nat)
    requires Sorted(q) && k < |q| && q[k].time <= e.time
    ensures |Insert(q, e)| == |q| + 1 && Insert(q, e)[..k + 1] == q[..k + 1]
  {
    var j := Place(q, e);
    assert j > k;
  }

  lemma OnlyTimersInsert(q: seq<Entry<Task>>, e: Entry<Task>)
    requires OnlyTimers(q) && e.task in {Check, Retry, TransientRetry}
    ensures OnlyTimers(Insert(q, e))
  {
    InsertMembers(q, e);
  }

  function Checked(p: World): World {
    p.(dl := p.dl.(tracker := AfterCheck(p.dl.tracker, p.dl.status.transferred)), checks := p.checks + [p.dl.status.transferred])
  }

  lemma CheckArmsAgain(p: World)
    requires State(p) == Transferring && HasAllowance(p.dl)
    ensures OnCheck(p) == ScheduleCheck(Checked(p))
  {
  }

  lemma ArmingKeepsAhead(p: World, k: nat)
    requires Sorted(p.queue) && OnlyTimers(p.queue) && k < |p.queue| && p.queue[k].time <= p.now
    ensures var z := ScheduleCheck(p);
            && z == p.(queue := z.queue) && OnlyTimers(z.queue)
            && |z.queue| > k && z.queue[..k + 1] == p.queue[..k + 1]
  {
    var e := Entry(p.now + CHECK_INTERVAL, Check, TRACKER_TAG);
    InsertBehind(p.queue, e, k);
    OnlyTimersInsert(p.queue, e);
  }

  lemma CheckKeepsAhead(p: World, k: nat)
    requires State(p) == Transferring && HasAllowance(p.dl)
    requires Sorted(p.queue) && OnlyTimers(p.queue) && k < |p.queue| && p.queue[k].time <= p.now
    ensures var z := OnCheck(p);
            && z.dl.status == p.dl.status && z.dl.httpActive == p.dl.httpActive && z.now == p.now
            && OnlyTimers(z.queue) && |z.queue| > k && z.queue[..k + 1] == p.queue[..k + 1]
  {
    CheckArmsAgain(p);
    ArmingKeepsAhead(Checked(p), k);
  }

  /** A check that runs while its allowance lasts arms itself again, behind what is due before. */
  lemma CheckRuns(w: World, p: World, k: nat)
    requires Ticking(w) && JustPopped(w, Check, p) && Safe(OnCheck(p))
    requires State(w) == Transferring && HasAllowance(w.dl)
    requires 0 < k < |w.queue| && w.queue[k].time <= w.now
    ensures var z := OnCheck(p);
            && Ticking(z) && z.dl.status == w.dl.status && z.now == w.now
            && |z.queue| >= k && z.queue[..k] == w.queue[1..k + 1]
  {
    assert forall x :: x in p.queue ==> x in w.queue;
    PopKeepsQueue(w.queue, w.now);
    CheckKeepsAhead(p, k - 1);
    assert p.queue[..k] == w.queue[1..k + 1];
  }

  /** Other timers change nothing but the queue. */
  lemma IdleTimerRuns(w: World, env: Env)
    requires Ticking(w) && Enabled(w, RunNext(env))
    requires w.queue[0].task == Retry || (w.queue[0].task == Check && State(w) != Transferring)
    ensures Next(w, RunNext(env)) == w.(queue := w.queue[1..]) && Ticking(Next(w, RunNext(env)))
  {
    NextKeepsSafe(w, RunNext(env));
    assert forall x :: x in w.queue[1..] ==> x in w.queue;
  }

  predicate CheckAhead(q: seq<Entry<Task>>, k: nat)
    requires k <= |q|
  {
    exists i :: 0 <= i < k && q[i].task == Check
  }

  lemma OneCheckAhead(q: seq<Entry<Task>>, now: int, k: nat)
    requires QueueOk(q, now) && ContentsOf(q).checks <= 1 && 0 < k <= |q| && q[0].task == Check
    ensures !CheckAhead(q[1..], k - 1)
  {
    PopContents(q, now);
    forall i | 0 <= i < k - 1 ensures q[1..][i].task != Check {
      if q[1..][i].task == Check {
        SelectSome(q[1..], KCheck, i);
      }
    }
  }

  /** The first timer is at k and due, and the watchdog will let the download go on. */
  predicate Waits(w: World, k: nat) {
    && Ticking(w) && FirstTimerAt(w.queue, k) && w.queue[k].time <= w.now
    && (State(w) == Transferring && CheckAhead(w.queue, k) ==> HasAllowance(w.dl))
  }

  lemma TimerStep(start: World, before: seq<Event>, w: World, env: Env, k: nat, r: string) returns (z: World)
    requires HonestRun(start, before, w, r) && Waits(w, k) && k > 0
    ensures HonestRun(start, before + [RunNext(env)], z, r) && Waits(z, k - 1)
    ensures z.now == w.now && z.dl.status == w.dl.status
  {
    assert w.queue[0].time <= w.queue[k].time && w.queue[0] in w.queue;
    z := Next(w, RunNext(env));
    HonestExtend(start, before, w, RunNext(env), z, r);
    TimerTaskRuns(w, env, k);
  }

  /** The tasks ahead of the first timer run, and change nothing that matters here. */
  lemma {:induction false} RunToTimer(start: World, before: seq<Event>, w: World, env: Env, k: nat, r: string)
    returns (events: seq<Event>, z: World)
    requires HonestRun(start, before, w, r) && Waits(w, k)
    ensures HonestRun(start, events, z, r) && Waits(z, 0)
    ensures z.now == w.now && z.dl.status == w.dl.status
    decreases k
  {
    if k == 0 {
      events, z := before, w;
    } else {
      var next := TimerStep(start, before, w, env, k, r);
      events, z := RunToTimer(start, before + [RunNext(env)], next, env, k - 1, r);
    }
  }

  lemma TimerTaskRuns(w: World, env: Env, k: nat)
    requires Waits(w, k) && Enabled(w, RunNext(env)) && k > 0
    ensures var z := Next(w, RunNext(env)); Waits(z, k - 1) && z.dl.status == w.dl.status && z.now == w.now
  {
    var z := Next(w, RunNext(env));
    assert w.queue[0] in w.queue;
    if w.queue[0].task == Check && State(w) == Transferring {
      assert CheckAhead(w.queue, k);
      NextKeepsSafe(w, RunNext(env));
      CheckRuns(w, w.(queue := w.queue[1..]), k);
      OneCheckAhead(w.queue, w.now, k);
    } else {
      IdleTimerRuns(w, env);
      assert z.queue[..k] == w.queue[1..k + 1];
    }
    SameAhead(w.queue, z.queue, k);
  }

  lemma SameAhead(q: seq<Entry<Task>>, z: seq<Entry<Task>>, k: nat)
    requires FirstTimerAt(q, k) && 0 < k <= |z| && z[..k] == q[1..k + 1]
    ensures FirstTimerAt(z, k - 1) && z[k - 1] == q[k]
    ensures CheckAhead(z, k - 1) <==> CheckAhead(q[1..], k - 1)
    ensures CheckAhead(z, k - 1) ==> CheckAhead(q, k)
  {
    assert forall i :: 0 <= i < k ==> z[i] == z[..k][i] == q[1..k + 1][i] == q[i + 1];
    assert forall i :: 0 <= i < k - 1 ==> q[1..][i] == q[i + 1];
    if CheckAhead(z, k - 1) {
      var i :| 0 <= i < k - 1 && z[i].task == Check;
      assert q[i + 1].task == Check && q[1..][i].task == Check;
    }
    if CheckAhead(q[1..], k - 1) {
      var i :| 0 <= i < k - 1 && q[1..][i].task == Check;
      assert z[i].task == Check;
    }
  }

  // ---------------------------------------------------------------------------
  // From the armed timer to the assertion
  // ---------------------------------------------------------------------------

  const ONLINE := Env(true, true, "", false, None)
  const OFFLINE := ONLINE.(network := false)

  /** The next task runs into an assertion of the source, with honest surroundings. */
  predicate BreaksAnAssertion(w: World, env: Env, r: string) {
    && Enabled(w, RunNext(env)) && Honest(w, RunNext(env), r)
    && !Asserts(w.(queue := w.queue[1..]), w.queue[0].task, env)
  }

  /** Time passes until the first timer is due, and the tasks ahead of it run. */
  lemma TimerComesUp(start: World, before: seq<Event>, w: World, env: Env, r: string)
    returns (events: seq<Event>, z: World)
    requires HonestRun(start, before, w, r)
    requires Ticking(w) && Select(w.queue, KTransient) != []
    requires State(w) == Transferring ==> HasAllowance(w.dl)
    ensures HonestRun(start, events, z, r)
    ensures Ticking(z) && FirstTimerAt(z.queue, 0) && z.queue[0].time <= z.now
    ensures z.dl.status == w.dl.status
  {
    var k := FirstTimer(w.queue);
    var ticks: nat := if w.queue[k].time > w.now then w.queue[k].time - w.now else 0;
    var later := w.(now := w.now + ticks);
    ElapseKeepsSafe(w, ticks);
    HonestExtend(start, before, w, Elapse(ticks), later, r);
    events, z := RunToTimer(start, before + [Elapse(ticks)], later, env, k, r);
  }

  lemma TimerIsQueued(q: seq<Entry<Task>>, now: int)
    requires QueueOk(q, now) && OnlyTimers(q)
    ensures var z := AddTask(q, now, TransientRetry, TRANSIENT_RETRY_DELAY, DOWNLOAD_TAG);
            OnlyTimers(z) && Select(z, KTransient) != []
  {
    OnlyTimersInsert(q, Entry(now + TRANSIENT_RETRY_DELAY, TransientRetry, DOWNLOAD_TAG));
    AddTaskContents(q, now, TransientRetry, TRANSIENT_RETRY_DELAY);
  }

  /** The timer fires while the network is down: the download is paused, its request goes on, and a new timer is queued. */
  lemma TimerFiresOffline(w: World)
    requires Ticking(w) && FirstTimerAt(w.queue, 0) && Enabled(w, RunNext(OFFLINE))
    ensures var z := Next(w, RunNext(OFFLINE));
            && Ticking(z) && Select(z.queue, KTransient) != []
            && z.dl.status.IsTransientError() && State(z) == Paused
  {
    NextKeepsSafe(w, RunNext(OFFLINE));
    var q := w.queue[1..];
    assert forall x :: x in q ==> x in w.queue;
    PopKeepsQueue(w.queue, w.now);
    TimerIsQueued(q, w.now);
  }

  lemma TimerFinds(w: World, r: string)
    requires Ticking(w) && FirstTimerAt(w.queue, 0) && w.queue[0].time <= w.now && w.dl.status.IsTransientError()
    ensures BreaksAnAssertion(w, ONLINE, r)
  {
  }

  lemma ArmedTimerBreaksAnAssertion(w: World, r: string) returns (events: seq<Event>, z: World)
    requires Ticking(w) && Select(w.queue, KTransient) != []
    requires State(w) == Transferring ==> HasAllowance(w.dl)
    ensures HonestRun(w, events, z, r) && BreaksAnAssertion(z, ONLINE, r)
  {
    var x;
    events, x := TimerComesUp(w, [], w, ONLINE, r);
    TimerFiresOffline(x);
    var y := Next(x, RunNext(OFFLINE));
    HonestExtend(w, events, x, RunNext(OFFLINE), y, r);
    events, z := TimerComesUp(w, events + [RunNext(OFFLINE)], y, ONLINE, r);
    TimerFinds(z, r);
  }

  // ---------------------------------------------------------------------------
  // Exactly when a Start leads there
  // ---------------------------------------------------------------------------

  /** Some honest continuation of w runs into an assertion. */
  ghost predicate CanBreakAnAssertion(w: World, r: string) {
    exists events, z, env :: HonestRun(w, events, z, r) && BreaksAnAssertion(z, env, r)
  }

  lemma SoundNeverBreaks(w: World, r: string)
    requires Sound(w, r) && HistoryOk(w)
    ensures !CanBreakAnAssertion(w, r)
  {
    forall events, z, env | HonestRun(w, events, z, r) && Enabled(z, RunNext(env)) && Honest(z, RunNext(env), r)
      ensures Asserts(z.(queue := z.queue[1..]), z.queue[0].task, env)
    {
      RunsKeepSound(w, events, z, r);
      HonestRunsAreRuns(w, events, z, r);
      RunsKeepHistory(w, events, z);
      SoundAsserts(z, env, r);
    }
  }

  /** In a transient error nothing but timers is queued, callers' operations aside. */
  lemma TransientErrorHasTimers(w: World, r: string)
    requires Sound(w, r) && w.dl.status.IsTransientError() && w.queue != []
    requires forall i :: 0 < i < |w.queue| ==> !w.queue[i].task.Call?
    ensures OnlyTimers(w.queue[1..])
  {
    forall e | e in w.queue[1..] ensures e.task in {Check, Retry, TransientRetry} {
      var i :| 0 < i < |w.queue| && w.queue[i] == e;
      SelectSome(w.queue, KindOf(e.task), i);
    }
  }

  lemma BytesAreMissing(w: World, r: string)
    requires Sound(w, r) && w.dl.status.IsTransientError()
    ensures !AllCounted(w.dl.status)
  {
  }

  lemma RestartTicks(p: World, env: Env)
    requires QueueOk(p.queue, p.now) && OnlyTimers(p.queue)
    requires State(p) == Paused && env.canOpen && !AllCounted(p.dl.status)
    ensures var z := Perform(p, Start, env);
            && OnlyTimers(z.queue) && z.dl.httpActive && z.dl.tracker == p.dl.tracker && z.dl.maxNoProgress == p.dl.maxNoProgress
            && z.dl.status.transferred == p.dl.status.transferred
  {
    OnlyTimersInsert(p.queue, Entry(p.now + CHECK_INTERVAL, Check, TRACKER_TAG));
  }

  /** After a Start in a transient error the download is running, with its timer and other timers queued. */
  lemma StartedInTransientError(w: World, env: Env, r: string)
    requires Sound(w, r) && Resumes(w, env) && w.dl.status.IsTransientError()
    requires forall i :: 0 < i < |w.queue| ==> !w.queue[i].task.Call?
    ensures Ticking(Next(w, RunNext(env))) && (HasAllowance(w.dl) ==> HasAllowance(Next(w, RunNext(env)).dl))
  {
    NextKeepsSafe(w, RunNext(env));
    TransientErrorHasTimers(w, r);
    BytesAreMissing(w, r);
    PopKeepsQueue(w.queue, w.now);
    RestartTicks(w.(queue := w.queue[1..]), env);
  }

  /**
   * A Start that resumes a download, with no count or completion and no other operation queued and with the watchdog not
   * about to give up, leads to a failing assertion in some honest continuation exactly when it runs in a transient error.
   */
  lemma StartFailsExactlyInTransientError(maxNoProgress: nat, events: seq<Event>, w: World, env: Env, r: string)
    requires HonestRun(NewWorld(maxNoProgress), events, w, r) && Resumes(w, env)
    requires OnlyHeaders(Select(w.queue, KUpdate)) && HasAllowance(w.dl)
    requires forall i :: 0 < i < |w.queue| ==> !w.queue[i].task.Call?
    ensures CanBreakAnAssertion(Next(w, RunNext(env)), r) <==> w.dl.status.IsTransientError()
  {
    HonestlyReached(maxNoProgress, events, w, r);
    var z := Next(w, RunNext(env));
    if w.dl.status.IsTransientError() {
      StartedInTransientError(w, env, r);
      TimerStaysArmedExactly(maxNoProgress, events, w, env, r);
      var more, x := ArmedTimerBreaksAnAssertion(z, r);
      assert CanBreakAnAssertion(z, r);
    } else {
      NextKeepsSound(w, RunNext(env), r);
      NextKeepsHistory(w, RunNext(env));
      SoundNeverBreaks(z, r);
    }
  }
}
