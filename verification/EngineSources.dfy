/** Which source every request goes to, read off the log of requests alone. */
module EngineSources {
  import opened TaskQueues
  import opened Engine
  import opened EngineQueue
  import opened EngineSafety
  import opened EngineHistory

  // ---------------------------------------------------------------------------
  // The rule
  // ---------------------------------------------------------------------------

  /** Request i is a retry at a time when falling back from MCC is due. */
  predicate FallsBack(log: seq<Request>, i: nat)
    requires i < |log|
  {
    log[i].retry && log[i].fallback.At? && log[i].fallback.time <= log[i].time
  }

  /** The two requests before request i went to one source, and no byte was counted since the last of them was sent. */
  predicate Stuck(log: seq<Request>, i: nat)
    requires i < |log|
  {
    i >= 2 && log[i - 2].source == log[i - 1].source && log[i].first == log[i - 1].first
  }

  /** The source of a retry with no fallback time configured, after a request to MCC or to the original URL. */
  predicate SwitchesWhenStuck(log: seq<Request>, i: nat)
    requires 0 < i < |log|
  {
    var was := log[i - 1].source;
    if was == MCC && (forall j :: 0 <= j < i ==> log[j].source != CDN) then log[i].source == CDN
    else if !log[i].mccUsable then log[i].source == CDN
    else log[i].source != was <==> Stuck(log, i)
  }

  /**
   * The rule for request i. A request that is no retry goes to MCC if and only if MCC is usable. A retry goes to the
   * original URL when falling back is due; before that time, or with falling back ruled out, it stays with its source as
   * long as MCC is usable; with no such time configured the original URL is tried first, and then the source switches
   * if and only if two requests in a row to one source are stuck and MCC is usable.
   */
  predicate FollowsRule(log: seq<Request>, i: nat)
    requires i < |log|
  {
    var r := log[i];
    && r.source in {MCC, CDN}
    && (!r.retry ==> (r.source == MCC <==> r.mccUsable))
    && (r.retry ==>
          && i > 0
          && (FallsBack(log, i) ==> r.source == CDN)
          && (r.fallback != Unset && !FallsBack(log, i) ==>
                (r.source == MCC <==> log[i - 1].source == MCC && r.mccUsable))
          && (r.fallback == Unset ==> SwitchesWhenStuck(log, i)))
  }

  /** Whoever falls back once never uses MCC again. */
  predicate FallsBackForGood(log: seq<Request>, allowMcc: bool) {
    forall i :: 0 <= i < |log| && FallsBack(log, i) ==> !allowMcc && forall j :: i <= j < |log| ==> log[j].source == CDN
  }

  predicate RuleOk(w: World) {
    (forall i :: 0 <= i < |w.log| ==> FollowsRule(w.log, i)) && FallsBackForGood(w.log, w.dl.allowMcc)
  }

  // ---------------------------------------------------------------------------
  // Every request follows it
  // ---------------------------------------------------------------------------

  lemma {:induction false} RunOfTwo(log: seq<Request>)
    requires log != []
    ensures SameSourceRun(log) >= 2 <==> |log| >= 2 && log[|log| - 2].source == log[|log| - 1].source
  {
    var before := log[..|log| - 1];
    if before != [] {
      assert LastSource(before) == log[|log| - 2].source;
      assert SameSourceRun(before) >= 1;
    }
  }

  lemma PrefixFollows(log: seq<Request>, request: Request, i: nat)
    requires i < |log|
    ensures FollowsRule(log + [request], i) <==> FollowsRule(log, i)
    ensures FallsBack(log + [request], i) <==> FallsBack(log, i)
  {
    var more := log + [request];
    assert forall j :: 0 <= j < |log| ==> more[j] == log[j];
  }

  /** The choice, seen from the log. */
  lemma ChoiceFollowsRule(w: World, env: Env, retry: bool)
    requires SourceOk(w) && (retry ==> w.log != [])
    ensures FollowsRule(w.log + [RequestFor(w.dl, w.requestHeaders, w.now, retry, env.banned)], |w.log|)
  {
    var request := RequestFor(w.dl, w.requestHeaders, w.now, retry, env.banned);
    var log := w.log + [request];
    var n := |w.log|;
    assert log[n] == request;
    if retry {
      assert log[n - 1] == w.log[n - 1] && (n >= 2 ==> log[n - 2] == w.log[n - 2]);
      RunOfTwo(w.log);
      assert forall j :: 0 <= j < n ==> log[j] == w.log[j];
      assert CdnUsed(w.log) <==> !(forall j :: 0 <= j < n ==> log[j].source != CDN);
    }
  }

  /** z's latest request, which w had not sent, follows the rule. */
  predicate SendsByRule(w: World, z: World) {
    var n := |w.log|;
    && |z.log| == n + 1 && z.log[..n] == w.log
    && FollowsRule(z.log, n)
    && (FallsBack(z.log, n) || !w.dl.allowMcc ==> !z.dl.allowMcc && z.log[n].source == CDN)
  }

  predicate SendsNothingOrByRule(w: World, z: World) {
    (z.log == w.log && z.dl.allowMcc == w.dl.allowMcc) || SendsByRule(w, z)
  }

  lemma SendFollowsRule(w: World, env: Env, retry: bool)
    requires SourceOk(w) && (retry ==> w.log != [])
    ensures SendsByRule(w, SendRequest(w, env, retry))
  {
    ChoiceFollowsRule(w, env, retry);
    SendSourceFields(w, env, retry);
    var z := SendRequest(w, env, retry);
    assert z.log == w.log + [RequestFor(w.dl, w.requestHeaders, w.now, retry, env.banned)];
    assert z.log[|w.log|] == RequestFor(w.dl, w.requestHeaders, w.now, retry, env.banned);
  }

  lemma StartFollowsRule(p: World, env: Env)
    requires SourceOk(p) && (State(p) == Created ==> p.dl.allowMcc)
    ensures SendsNothingOrByRule(p, Perform(p, Start, env))
  {
    if State(p) == Created {
      SendFollowsRule(Configured(p, env), env, false);
    } else if State(p) == Paused {
      SendFollowsRule(Reconfigured(p, env), env, false);
    }
  }

  lemma OthersSendNothing(p: World, task: Task, env: Env)
    requires task !in {Retry, TransientRetry} && !(task.Call? && task.operation == Start)
    ensures Execute(p, task, env).log == p.log && Execute(p, task, env).dl.allowMcc == p.dl.allowMcc
  {
  }

  lemma ExecuteFollowsRule(w: World, task: Task, p: World, env: Env)
    requires HistoryOk(w) && JustPopped(w, task, p)
    ensures SendsNothingOrByRule(w, Execute(p, task, env))
  {
    PopContents(w.queue, w.now);
    SamePastKeeps(w, p);
    match task
    case Retry => if State(p) == Transferring { SendFollowsRule(p, env, true); }
    case TransientRetry => SendFollowsRule(p, env, false);
    case Call(op, _) => if op == Start { StartFollowsRule(p, env); } else { OthersSendNothing(p, task, env); }
    case _ => OthersSendNothing(p, task, env);
  }

  lemma StepFollowsRule(w: World, e: Event)
    requires HistoryOk(w) && Enabled(w, e)
    ensures SendsNothingOrByRule(w, Next(w, e))
  {
    if e.RunNext? {
      ExecuteFollowsRule(w, w.queue[0].task, w.(queue := w.queue[1..]), e.env);
    }
  }

  lemma RuleIsKept(w: World, z: World)
    requires RuleOk(w) && SendsNothingOrByRule(w, z)
    ensures RuleOk(z)
  {
    if z.log != w.log {
      var n := |w.log|;
      assert z.log == w.log + [z.log[n]];
      forall i | 0 <= i < n ensures FollowsRule(z.log, i) && (FallsBack(z.log, i) <==> FallsBack(w.log, i)) {
        PrefixFollows(w.log, z.log[n], i);
      }
    }
  }

  lemma {:induction false} RunsFollowRule(w: World, events: seq<Event>, z: World)
    requires HistoryOk(w) && RuleOk(w) && RunsTo(w, events, z)
    ensures RuleOk(z)
    decreases |events|
  {
    if events != [] {
      NextKeepsHistory(w, events[0]);
      StepFollowsRule(w, events[0]);
      RuleIsKept(w, Next(w, events[0]));
      RunsFollowRule(Next(w, events[0]), events[1..], z);
    }
  }

  lemma ReachableRule(w: World, maxNoProgress: nat)
    requires Reachable(w, maxNoProgress)
    ensures RuleOk(w)
  {
    var events :| RunsTo(NewWorld(maxNoProgress), events, w);
    RunsFollowRule(NewWorld(maxNoProgress), events, w);
  }

  // ---------------------------------------------------------------------------
  // The promises
  // ---------------------------------------------------------------------------

  /** Every request ever sent goes to the source the rule names, for what had been logged before it. */
  lemma EveryRequestFollowsRule(w: World, maxNoProgress: nat, i: nat)
    requires Reachable(w, maxNoProgress) && i < |w.log|
    ensures FollowsRule(w.log, i)
  {
    ReachableRule(w, maxNoProgress);
  }

  /** Once a retry has fallen back from MCC, MCC is given up, and no request goes there any more. */
  lemma FallingBackIsForGood(w: World, maxNoProgress: nat, i: nat, j: nat)
    requires Reachable(w, maxNoProgress) && i <= j < |w.log| && FallsBack(w.log, i)
    ensures !w.dl.allowMcc && w.log[j].source == CDN
  {
    ReachableRule(w, maxNoProgress);
  }

  /** With no fallback time configured, a stalled retry never sends a third request in a row to the same source. */
  lemma StalledRetriesSwitchSource(w: World, maxNoProgress: nat, i: nat)
    requires Reachable(w, maxNoProgress) && 2 <= i < |w.log|
    requires w.log[i].retry && w.log[i].first == w.log[i - 1].first && w.log[i].fallback == Unset && w.log[i].mccUsable
    ensures w.log[i - 2].source != w.log[i - 1].source || w.log[i - 1].source != w.log[i].source
  {
    ReachableRule(w, maxNoProgress);
    assert FollowsRule(w.log, i);
  }

  /** When falling back from MCC is due: never set, ruled out, or so many milliseconds after the start. */
  predicate ConfiguredFallback(fallback: Fallback, now: int, delay: Option<int>) {
    && (delay == None ==> fallback == Unset)
    && (delay == Some(-1_000) ==> fallback == Never)
    && (delay.Some? && delay.value != -1_000 ==> fallback == At(now + delay.value))
  }

  /** Request r is logged with the circumstances of the step from w to z that runs the task. */
  predicate TrueToStep(w: World, task: Task, env: Env, z: World, r: Request) {
    && r.time == w.now && r.first == w.dl.status.transferred
    && r.source == z.dl.source && r.fallback == z.dl.fallback
    && (r.retry <==> task == Retry)
    && (r.mccUsable <==> w.dl.allowMcc && z.dl.mccHost != "" && !env.banned)
    && (z.dl.allowMcc <==> w.dl.allowMcc && !(task == Retry && z.dl.fallback.At? && z.dl.fallback.time <= w.now))
    && z.dl.mccHost == (if task.Call? && (State(w) == Created || w.dl.allowMcc) then env.mccHost else w.dl.mccHost)
    && (task.Call? && State(w) == Created ==> ConfiguredFallback(z.dl.fallback, w.now, env.fallbackDelay))
    && (!(task.Call? && State(w) == Created) ==> z.dl.fallback == w.dl.fallback)
  }

  lemma SendLogs(w: World, env: Env, retry: bool)
    ensures var z := SendRequest(w, env, retry); var r := z.log[|w.log|];
            && z.log == w.log + [r]
            && r.time == w.now && r.first == w.dl.status.transferred && r.source == z.dl.source
            && r.fallback == z.dl.fallback == w.dl.fallback && r.retry == retry
            && (r.mccUsable <==> w.dl.allowMcc && z.dl.mccHost != "" && !env.banned)
            && (z.dl.allowMcc <==> w.dl.allowMcc && !(retry && z.dl.fallback.At? && z.dl.fallback.time <= w.now))
            && z.dl.mccHost == w.dl.mccHost
  {
  }

  lemma BeginLogs(w: World, env: Env, ticket: nat)
    requires State(w) == Created
    ensures var z := ToTransferring(BeginTransfer(w, env));
            |z.log| > |w.log| && TrueToStep(w, Call(Start, ticket), env, z, z.log[|w.log|])
  {
    SendLogs(Configured(w, env), env, false);
  }

  lemma ResumeLogs(w: World, env: Env, ticket: nat)
    requires State(w) == Paused && !AllCounted(w.dl.status)
    ensures var z := ToTransferring(Resume(w, env));
            |z.log| > |w.log| && TrueToStep(w, Call(Start, ticket), env, z, z.log[|w.log|])
  {
    SendLogs(Reconfigured(w, env), env, false);
  }

  lemma StartLogs(w: World, env: Env, ticket: nat, r: Request)
    requires OnCall(w, Start, ticket, env).log == w.log + [r]
    ensures TrueToStep(w, Call(Start, ticket), env, OnCall(w, Start, ticket, env), r)
  {
    assert (w.log + [r])[|w.log|] == r;
    if State(w) == Created {
      BeginLogs(w, env, ticket);
    } else {
      ResumeLogs(w, env, ticket);
    }
  }

  lemma TaskLogs(w: World, task: Task, env: Env, r: Request)
    requires Execute(w, task, env).log == w.log + [r]
    ensures TrueToStep(w, task, env, Execute(w, task, env), r)
  {
    assert (w.log + [r])[|w.log|] == r;
    if task == Retry {
      SendLogs(w, env, true);
    } else if task == TransientRetry {
      SendLogs(w, env, false);
    } else if task.Call? && task.operation == Start {
      StartLogs(w, env, task.ticket, r);
    } else {
      OthersSendNothing(w, task, env);
    }
  }

  /**
   * The circumstances a request is logged with are those of the step that sends it. The MCC host is read anew when a
   * caller starts the download, unless MCC was given up; the time of falling back is set by the first Start alone.
   */
  lemma CircumstancesAreLogged(w: World, e: Event, r: Request)
    requires Enabled(w, e) && Next(w, e).log == w.log + [r]
    ensures e.RunNext? && TrueToStep(w, w.queue[0].task, e.env, Next(w, e), r)
  {
    if e.RunNext? {
      TaskLogs(w.(queue := w.queue[1..]), w.queue[0].task, e.env, r);
    }
  }
}
