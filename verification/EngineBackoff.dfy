/** The delay of retries over whole runs: it doubles from one retry to the next until MCC is left. */
module EngineBackoff {
  import opened TaskQueues
  import opened Engine
  import opened EngineQueue
  import opened EngineSafety
  import opened EngineOutcomes

  function Pow2(n: nat): nat {
    if n == 0 then 1 else 2 * Pow2(n - 1)
  }

  /** The step handles a failure that is neither final nor due to the network. */
  predicate HandlesFailure(w: World, e: Event) {
    && e.RunNext? && Enabled(w, e) && w.queue[0].task.Failed? && e.env.network
    && !IsFinalFailure(w.dl.source, w.dl.fallback, w.queue[0].task.failure)
  }

  /** The count of delayed retries after a step; leaving MCC starts over. */
  function CountAfter(w: World, e: Event, n: nat): nat {
    if !HandlesFailure(w, e) then n
    else if LeavesMccAtOnce(w.dl, w.now, w.queue[0].task.failure) then 0
    else n + 1
  }

  /** How many failures in a row a run has answered by a delayed retry, with n to begin with. */
  ghost function DelayedRetries(w: World, events: seq<Event>, n: nat): nat
    decreases |events|
  {
    if events == [] || !Enabled(w, events[0]) then n
    else DelayedRetries(Next(w, events[0]), events[1..], CountAfter(w, events[0], n))
  }

  lemma SendKeepsDelay(w: World, env: Env, retry: bool)
    ensures SendRequest(w, env, retry).dl.tracker == w.dl.tracker
  {
  }

  lemma PerformKeepsDelay(p: World, op: Operation, env: Env)
    ensures Perform(p, op, env).dl.tracker == p.dl.tracker
  {
    if op == Start {
      SendKeepsDelay(Configured(p, env), env, false);
      SendKeepsDelay(Reconfigured(p, env), env, false);
    }
  }

  lemma ExecuteKeepsDelay(p: World, task: Task, env: Env)
    requires !task.Failed?
    ensures Execute(p, task, env).dl.tracker.nextRetryDelay == p.dl.tracker.nextRetryDelay
  {
    match task
    case Retry => SendKeepsDelay(p, env, true);
    case TransientRetry => SendKeepsDelay(p, env, false);
    case Call(op, _) => PerformKeepsDelay(p, op, env);
    case _ =>
  }

  lemma FailureKeepsDelay(p: World, f: Failure, env: Env)
    requires !env.network || IsFinalFailure(p.dl.source, p.dl.fallback, f)
    ensures OnFailed(p, f, env).dl.tracker == p.dl.tracker
  {
  }

  lemma OtherStepsKeepDelay(w: World, e: Event)
    requires Enabled(w, e) && !HandlesFailure(w, e)
    ensures Next(w, e).dl.tracker.nextRetryDelay == w.dl.tracker.nextRetryDelay
  {
    if e.RunNext? {
      var p := w.(queue := w.queue[1..]);
      if w.queue[0].task.Failed? {
        FailureKeepsDelay(p, w.queue[0].task.failure, e.env);
      } else {
        ExecuteKeepsDelay(p, w.queue[0].task, e.env);
      }
    }
  }

  lemma HandledFailureDoubles(w: World, e: Event)
    requires Safe(w) && HandlesFailure(w, e)
    ensures Next(w, e).dl.tracker.nextRetryDelay
         == if LeavesMccAtOnce(w.dl, w.now, w.queue[0].task.failure) then 1_000
            else AtMost(30_000, 2 * w.dl.tracker.nextRetryDelay)
  {
    var p := w.(queue := w.queue[1..]);
    RetriesUnlessFinal(p, w.queue[0].task.failure, e.env);
    RetryIsScheduled(p, w.queue[0].task.failure);
  }

  predicate DelayIs(w: World, n: nat) {
    w.dl.tracker.nextRetryDelay == AtMost(30_000, 1_000 * Pow2(n))
  }

  lemma DelayGrows(n: nat, delay: int)
    requires delay == AtMost(30_000, 1_000 * Pow2(n))
    ensures AtMost(30_000, 2 * delay) == AtMost(30_000, 1_000 * Pow2(n + 1))
  {
  }

  lemma DelayBegins()
    ensures AtMost(30_000, 1_000 * Pow2(0)) == 1_000
  {
  }

  lemma StepFollows(w: World, e: Event, n: nat)
    requires Safe(w) && Enabled(w, e) && DelayIs(w, n)
    ensures DelayIs(Next(w, e), CountAfter(w, e, n))
  {
    if HandlesFailure(w, e) {
      HandledFailureDoubles(w, e);
      DelayGrows(n, w.dl.tracker.nextRetryDelay);
      DelayBegins();
    } else {
      OtherStepsKeepDelay(w, e);
    }
  }

  lemma {:induction false} DelayFollows(w: World, events: seq<Event>, z: World, n: nat)
    requires Safe(w) && RunsTo(w, events, z) && DelayIs(w, n)
    ensures DelayIs(z, DelayedRetries(w, events, n))
    decreases |events|
  {
    if events != [] {
      NextKeepsSafe(w, events[0]);
      StepFollows(w, events[0], n);
      DelayFollows(Next(w, events[0]), events[1..], z, CountAfter(w, events[0], n));
    }
  }

  /**
   * In every run the delay is a second, doubled for every failure that was answered by a delayed retry since MCC was last
   * left, and thirty seconds at most.
   */
  lemma DelayDoubles(maxNoProgress: nat, events: seq<Event>, z: World)
    requires RunsTo(NewWorld(maxNoProgress), events, z)
    ensures z.dl.tracker.nextRetryDelay == AtMost(30_000, 1_000 * Pow2(DelayedRetries(NewWorld(maxNoProgress), events, 0)))
  {
    DelayFollows(NewWorld(maxNoProgress), events, z, 0);
  }
}
