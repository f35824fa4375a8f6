/** What callers may rely on: the file, the requests, and a safe way to resume. */
module EnginePromises {
  import opened TaskQueues
  import opened Engine
  import opened EngineQueue
  import opened EngineSafety
  import opened EngineHistory
  import opened EngineResume

  lemma {:induction false} HonestRunsAreRuns(w: World, events: seq<Event>, z: World, r: string)
    requires HonestRun(w, events, z, r)
    ensures RunsTo(w, events, z)
    decreases |events|
  {
    if events != [] {
      HonestRunsAreRuns(Next(w, events[0]), events[1..], z, r);
    }
  }

  /** An honest run goes on with one more honest event. */
  lemma {:induction false} HonestExtend(w: World, events: seq<Event>, x: World, e: Event, z: World, r: string)
    requires HonestRun(w, events, x, r) && Enabled(x, e) && Honest(x, e, r) && Next(x, e) == z
    ensures HonestRun(w, events + [e], z, r)
    decreases |events|
  {
    if events == [] {
      assert events + [e] == [e] && [e][1..] == [];
    } else {
      HonestExtend(Next(w, events[0]), events[1..], x, e, z, r);
      assert (events + [e])[1..] == events[1..] + [e];
    }
  }

  lemma StartIsSound(maxNoProgress: nat, r: string)
    ensures Sound(NewWorld(maxNoProgress), r)
  {
  }

  lemma HonestlyReached(maxNoProgress: nat, events: seq<Event>, w: World, r: string)
    requires HonestRun(NewWorld(maxNoProgress), events, w, r)
    ensures Sound(w, r) && HistoryOk(w) && Reachable(w, maxNoProgress)
  {
    StartIsSound(maxNoProgress, r);
    RunsKeepSound(NewWorld(maxNoProgress), events, w, r);
    HonestRunsAreRuns(NewWorld(maxNoProgress), events, w, r);
    ReachableHistory(w, maxNoProgress);
  }

  // ---------------------------------------------------------------------------
  // The file
  // ---------------------------------------------------------------------------

  /** At every moment the file holds the beginning of the resource. */
  lemma FileIsAPrefix(maxNoProgress: nat, events: seq<Event>, w: World, r: string)
    requires HonestRun(NewWorld(maxNoProgress), events, w, r) && State(w) != Aborted
    ensures w.file <= r
  {
    HonestlyReached(maxNoProgress, events, w, r);
  }

  /** A download reported as transferred, or finalized, is complete. */
  lemma TransferredMeansComplete(maxNoProgress: nat, events: seq<Event>, w: World, r: string)
    requires HonestRun(NewWorld(maxNoProgress), events, w, r) && State(w) in {Transferred, Finalized}
    ensures w.file == r
    ensures State(w) == Transferred ==> w.dl.status.transferred == |r|
  {
    HonestlyReached(maxNoProgress, events, w, r);
    if State(w) == Transferred {
      OnlyHeadersSum(ContentsOf(w.queue).updates);
    }
  }

  /** A request whose range, that of its last Range header, is everything from the end of the file to that of the resource. */
  predicate AsksForTheRest(request: Request, file: string, r: string) {
    && request.first == |file|
    && (file == "" ==> request.last == None && request.headers == [])
    && (file != "" ==>
          && |file| < |r| && request.last == Some(|r| - 1)
          && request.headers != [] && request.headers[|request.headers| - 1] == ByteRange(|file|, |r| - 1))
  }

  ghost predicate SendsNothingOrTheRest(w: World, z: World, r: string) {
    || z.log == w.log
    || exists request :: z.log == w.log + [request] && AsksForTheRest(request, w.file, r)
                         && z.agent == Busy(request.headers, 0, false) && z.file == w.file
  }

  lemma SendAsksForTheRest(w: World, env: Env, retry: bool, r: string)
    requires QueueOk(w.queue, w.now) && ReadyToSend(w, ContentsOf(w.queue), r)
    ensures SendsNothingOrTheRest(w, SendRequest(w, env, retry), r)
    ensures SendsNothingOrTheRest(w, ToTransferring(SendRequest(w, env, retry)), r)
  {
    var request := RequestFor(w.dl, w.requestHeaders, w.now, retry, env.banned);
    SendSourceFields(w, env, retry);
    SendRequestContents(w, env, retry);
    assert AsksForTheRest(request, w.file, r);
  }

  lemma TimerSends(w: World, p: World, task: Task, env: Env, r: string)
    requires Sound(w, r) && JustPopped(w, task, p) && task in {Retry, TransientRetry}
    ensures SendsNothingOrTheRest(w, Execute(p, task, env), r)
  {
    PopContents(w.queue, w.now);
    TimerFirstMeansNoneDone(w.queue, w.now);
    if task == Retry && State(p) == Transferring && !p.dl.httpActive {
      OnlyHeadersSum(ContentsOf(p.queue).updates);
      SendAsksForTheRest(p, env, true, r);
    } else if task == TransientRetry && env.network {
      SendAsksForTheRest(p, env, false, r);
    }
  }

  lemma StartSends(p: World, env: Env, r: string)
    requires Sound(p, r)
    requires State(p) == Paused ==> OnlyHeaders(ContentsOf(p.queue).updates) && !p.dl.status.IsTransientError()
    ensures SendsNothingOrTheRest(p, Perform(p, Start, env), r)
  {
    if State(p) == Created {
      SendAsksForTheRest(Configured(p, env), env, false, r);
    } else if State(p) == Paused && !AllCounted(p.dl.status) {
      OnlyHeadersSum(ContentsOf(p.queue).updates);
      SendAsksForTheRest(Reconfigured(p, env), env, false, r);
    }
  }

  lemma CallSends(w: World, p: World, ticket: nat, env: Env, r: string)
    requires Sound(w, r) && JustPopped(w, Call(Start, ticket), p) && ResumesInTime(w)
    ensures SendsNothingOrTheRest(p, OnCall(p, Start, ticket, env), r)
  {
    PopContents(w.queue, w.now);
    StartSends(p, env, r);
  }

  /** Tasks that send no request. */
  lemma OthersSendNothing(p: World, task: Task, env: Env)
    requires task !in {Retry, TransientRetry} && !(task.Call? && task.operation == Start)
    ensures Execute(p, task, env).log == p.log
  {
  }

  lemma RunNextSends(w: World, env: Env, r: string)
    requires Sound(w, r) && Enabled(w, RunNext(env)) && ResumesInTime(w)
    ensures SendsNothingOrTheRest(w, Next(w, RunNext(env)), r)
  {
    var task := w.queue[0].task;
    var p := w.(queue := w.queue[1..]);
    if task in {Retry, TransientRetry} {
      TimerSends(w, p, task, env, r);
    } else if task.Call? && task.operation == Start {
      CallSends(w, p, task.ticket, env, r);
    } else {
      OthersSendNothing(p, task, env);
    }
  }

  /** Every request there ever is, automatic retries included, asks for exactly the bytes the file still lacks. */
  lemma RequestsContinueTheFile(maxNoProgress: nat, events: seq<Event>, w: World, e: Event, r: string)
    requires HonestRun(NewWorld(maxNoProgress), events, w, r) && Enabled(w, e) && Honest(w, e, r)
    ensures SendsNothingOrTheRest(w, Next(w, e), r)
  {
    HonestlyReached(maxNoProgress, events, w, r);
    if e.RunNext? {
      RunNextSends(w, e.env, r);
    }
  }

  /**
   * Exactly when a request continues the file, with no assumption about callers or server: when no byte count is
   * still queued at the moment the request is sent.
   */
  lemma ContinuesExactlyWhenCounted(maxNoProgress: nat, w: World, e: Event, request: Request)
    requires Reachable(w, maxNoProgress) && Enabled(w, e) && Next(w, e).log == w.log + [request]
    ensures request.first == |w.file| <==> SumData(Select(w.queue, KUpdate)) == 0
  {
    ReachableIsSafe(w, maxNoProgress);
    StepFrame(w, e);
    assert (w.log + [request])[|w.log|] == request;
    if IsFinal(State(w)) {
      FinalStep(w, e);
    }
  }

  // ---------------------------------------------------------------------------
  // The source's own assertions
  // ---------------------------------------------------------------------------

  /** What the code asserts before it sends a request. */
  predicate SendAsserts(w: World, retry: bool) {
    && (w.dl.status.transferred != 0 ==> w.dl.status.total != 0 && w.dl.status.transferred < w.dl.status.total)
    && (retry ==> w.dl.source != NoSource && (w.dl.fallback == Unset ==> w.dl.allowMcc))
  }

  /** What the code asserts while it runs a task. */
  predicate Asserts(w: World, task: Task, env: Env) {
    var s := w.dl.status;
    match task
    case Retry => s.state == Transferring && !w.dl.httpActive ==> SendAsserts(w, true)
    case TransientRetry => env.network && s.IsTransientError() ==> !w.dl.httpActive && SendAsserts(w, false)
    case Check => s.state == Transferring ==> s.transferred >= w.dl.tracker.lastSeen
    case Call(op, _) =>
      op == Start ==>
        && (s.state == Created ==> s.total == 0 && s.transferred == 0)
        && (s.state == Paused ==> s.total != 0 || s.transferred == 0)
        && (s.state == Paused && !AllCounted(s) ==> SendAsserts(w, false))
    case _ => true
  }

  lemma AssertionsNeverFail(maxNoProgress: nat, events: seq<Event>, w: World, env: Env, r: string)
    requires HonestRun(NewWorld(maxNoProgress), events, w, r)
    requires Enabled(w, RunNext(env)) && Honest(w, RunNext(env), r)
    ensures Asserts(w.(queue := w.queue[1..]), w.queue[0].task, env)
  {
    HonestlyReached(maxNoProgress, events, w, r);
    SoundAsserts(w, env, r);
  }

  lemma SoundAsserts(w: World, env: Env, r: string)
    requires Sound(w, r) && HistoryOk(w) && Enabled(w, RunNext(env)) && Honest(w, RunNext(env), r)
    ensures Asserts(w.(queue := w.queue[1..]), w.queue[0].task, env)
  {
    PopContents(w.queue, w.now);
    var u := ContentsOf(w.queue).updates;
    if OnlyHeaders(u) {
      OnlyHeadersSum(u);
    }
    if w.queue[0].task in {Retry, TransientRetry} {
      TimerFirstMeansNoneDone(w.queue, w.now);
    }
  }
}
