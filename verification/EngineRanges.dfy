/**
 * The Range headers that requests carry: the agent keeps its header list from one request to the next, so that every
 * range asked for is asked for again by all requests that follow.
 */
module EngineRanges {
  import opened TaskQueues
  import opened Engine
  import opened EngineQueue
  import opened EngineSafety
  import opened EngineHistory
  import opened EngineResume
  import opened EnginePromises

  predicate Ranged(request: Request) {
    request.last.Some?
  }

  /** The ranges asked for by the requests of a log, in order. */
  function RangesOf(log: seq<Request>): seq<ByteRange> {
    if log == [] then []
    else
      var request := log[|log| - 1];
      RangesOf(log[..|log| - 1]) + if Ranged(request) then [ByteRange(request.first, request.last.value)] else []
  }

  /** The Range headers of request i are its own range behind all earlier ones. */
  predicate CarriesAll(log: seq<Request>, i: nat)
    requires i < |log|
  {
    log[i].headers == if Ranged(log[i]) then RangesOf(log[..i + 1]) else []
  }

  predicate RangesOk(w: World) {
    && w.requestHeaders == RangesOf(w.log)
    && (w.requestHeaders != [] ==> w.dl.status.transferred > 0)
    && forall i :: 0 <= i < |w.log| ==> CarriesAll(w.log, i)
  }

  // ---------------------------------------------------------------------------
  // What a step does to the list
  // ---------------------------------------------------------------------------

  /** z has sent one request that w had not. */
  predicate SentOne(w: World, z: World) {
    var s := w.dl.status;
    && |z.log| == |w.log| + 1 && z.log[..|w.log|] == w.log
    && z.requestHeaders == HeadersSent(w.requestHeaders, s)
    && var request := z.log[|w.log|];
       && request.first == s.transferred && request.headers == z.requestHeaders
       && request.last == if s.transferred == 0 then None else Some(RangeOfTheRest(s).last)
  }

  predicate SentAtMostOne(w: World, z: World) {
    && z.dl.status.transferred >= w.dl.status.transferred
    && ((z.log == w.log && z.requestHeaders == w.requestHeaders) || SentOne(w, z))
  }

  lemma SendSendsOne(w: World, env: Env, retry: bool)
    ensures SentOne(w, SendRequest(w, env, retry)) && SentAtMostOne(w, SendRequest(w, env, retry))
  {
    var z := SendRequest(w, env, retry);
    assert z.log == w.log + [RequestFor(w.dl, w.requestHeaders, w.now, retry, env.banned)];
  }

  lemma PerformSendsAtMostOne(p: World, op: Operation, env: Env)
    ensures SentAtMostOne(p, Perform(p, op, env))
  {
    if op == Start && State(p) == Created {
      SendSendsOne(Configured(p, env), env, false);
    } else if op == Start && State(p) == Paused {
      SendSendsOne(Reconfigured(p, env), env, false);
    }
  }

  lemma ExecuteSendsAtMostOne(p: World, task: Task, env: Env)
    ensures SentAtMostOne(p, Execute(p, task, env))
  {
    match task
    case Retry => SendSendsOne(p, env, true);
    case TransientRetry => SendSendsOne(p, env, false);
    case Call(op, _) => PerformSendsAtMostOne(p, op, env);
    case _ =>
  }

  lemma StepSendsAtMostOne(w: World, e: Event)
    requires Enabled(w, e)
    ensures SentAtMostOne(w, Next(w, e))
  {
    if e.RunNext? {
      ExecuteSendsAtMostOne(w.(queue := w.queue[1..]), w.queue[0].task, e.env);
    }
  }

  lemma SendKeepsRanges(w: World, z: World)
    requires RangesOk(w) && SentAtMostOne(w, z)
    ensures RangesOk(z)
  {
    if z.log != w.log {
      var n := |w.log|;
      assert z.log[..n + 1] == z.log;
      forall i | 0 <= i < |z.log| ensures CarriesAll(z.log, i) {
        if i < n {
          assert z.log[i] == z.log[..n][i] && z.log[..i + 1] == w.log[..i + 1];
          assert CarriesAll(w.log, i);
        }
      }
    }
  }

  lemma {:induction false} RunsKeepRanges(w: World, events: seq<Event>, z: World)
    requires RangesOk(w) && RunsTo(w, events, z)
    ensures RangesOk(z)
    decreases |events|
  {
    if events != [] {
      StepSendsAtMostOne(w, events[0]);
      SendKeepsRanges(w, Next(w, events[0]));
      RunsKeepRanges(Next(w, events[0]), events[1..], z);
    }
  }

  // ---------------------------------------------------------------------------
  // How many Range headers a request carries
  // ---------------------------------------------------------------------------

  predicate NoneRanged(log: seq<Request>) {
    forall i :: 0 <= i < |log| ==> !Ranged(log[i])
  }

  lemma {:induction false} NoRangesExactly(log: seq<Request>)
    ensures RangesOf(log) == [] <==> NoneRanged(log)
  {
    if log != [] {
      var n := |log| - 1;
      NoRangesExactly(log[..n]);
      assert forall i :: 0 <= i < n ==> log[..n][i] == log[i];
    }
  }

  lemma LastRangeIsOwn(log: seq<Request>, i: nat)
    requires i < |log| && Ranged(log[i])
    ensures RangesOf(log[..i + 1]) == RangesOf(log[..i]) + [ByteRange(log[i].first, log[i].last.value)]
    ensures |RangesOf(log[..i + 1])| == 1 <==> NoneRanged(log[..i])
  {
    assert log[..i + 1][..i] == log[..i];
    NoRangesExactly(log[..i]);
  }

  lemma ReachableRanges(maxNoProgress: nat, w: World)
    requires Reachable(w, maxNoProgress)
    ensures RangesOk(w)
  {
    var events :| RunsTo(NewWorld(maxNoProgress), events, w);
    RunsKeepRanges(NewWorld(maxNoProgress), events, w);
  }

  /**
   * In every reachable state: a request without a range carries no Range header. One with a range carries a header for
   * every range ever asked for, its own last; that is a single header exactly when no earlier request had a range.
   */
  lemma RangeHeadersPileUp(maxNoProgress: nat, w: World, i: nat)
    requires Reachable(w, maxNoProgress) && i < |w.log|
    ensures w.log[i].headers == if Ranged(w.log[i]) then RangesOf(w.log[..i + 1]) else []
    ensures Ranged(w.log[i]) ==>
              && w.log[i].headers != []
              && w.log[i].headers[|w.log[i].headers| - 1] == ByteRange(w.log[i].first, w.log[i].last.value)
              && (|w.log[i].headers| == 1 <==> NoneRanged(w.log[..i]))
  {
    ReachableRanges(maxNoProgress, w);
    assert CarriesAll(w.log, i);
    if Ranged(w.log[i]) {
      LastRangeIsOwn(w.log, i);
    }
  }

  // ---------------------------------------------------------------------------
  // An ordinary run with two Range headers
  // ---------------------------------------------------------------------------

  const RESOURCE := "abc"
  const ONLINE := Env(true, true, "", false, None)
  const RESET := Failure(OtherError(56), Ok, 0)
  const CHECK_ENTRY: Entry<Task> := Entry(CHECK_INTERVAL, Check, TRACKER_TAG)

  /** A request to the original URL is running; it has just been sent, with nothing but the watchdog queued. */
  predicate Fetching(w: World, delay: int) {
    && w.agent == Busy(w.requestHeaders, 0, false) && LastOffset(w.requestHeaders) == |w.file|
    && State(w) == Transferring && w.dl.status.transferred == |w.file| < |RESOURCE| && w.file == RESOURCE[..|w.file|]
    && (w.file == "" ==> w.requestHeaders == [])
    && w.dl.source == CDN && w.dl.mccHost == "" && w.dl.fallback == Unset
    && w.dl.tracker.nextRetryDelay == delay > 0
    && w.queue == [CHECK_ENTRY]
  }

  function DueAt(now: int, task: Task): Entry<Task> {
    Entry(now, task, DOWNLOAD_TAG)
  }

  lemma QueuedBeforeCheck(front: seq<Entry<Task>>, e: Entry<Task>)
    requires (forall i :: 0 <= i < |front| ==> front[i].time <= e.time) && e.time < CHECK_INTERVAL
    ensures Insert(front + [CHECK_ENTRY], e) == front + [e] + [CHECK_ENTRY]
  {
    var q := front + [CHECK_ENTRY];
    InsertAt(q, e, |front|);
    assert q[..|front|] == front && q[|front|..] == [CHECK_ENTRY];
  }

  /** The updates that a byte and a failure leave in the queue. */
  function Updates(now: int): seq<Entry<Task>> {
    [DueAt(now, Headers(3)), DueAt(now, Data(1)), DueAt(now, Failed(RESET))]
  }

  lemma UpdatesQueueUp(now: int)
    requires now < CHECK_INTERVAL
    ensures Insert([CHECK_ENTRY], DueAt(now, Headers(3))) == Updates(now)[..1] + [CHECK_ENTRY]
    ensures Insert(Updates(now)[..1] + [CHECK_ENTRY], DueAt(now, Data(1))) == Updates(now)[..2] + [CHECK_ENTRY]
    ensures Insert(Updates(now)[..2] + [CHECK_ENTRY], DueAt(now, Failed(RESET))) == Updates(now) + [CHECK_ENTRY]
  {
    var u := Updates(now);
    assert u[..0] + [CHECK_ENTRY] == [CHECK_ENTRY];
    assert u[..1] == u[..0] + [u[0]] && u[..2] == u[..1] + [u[1]] && u == u[..2] + [u[2]];
    QueuedBeforeCheck(u[..0], u[0]);
    QueuedBeforeCheck(u[..1], u[1]);
    QueuedBeforeCheck(u[..2], u[2]);
  }

  /** One honest step of the run below. */
  predicate Takes(w: World, e: Event, z: World) {
    Enabled(w, e) && Honest(w, e, RESOURCE) && Next(w, e) == z
  }

  lemma Extend(start: World, events: seq<Event>, x: World, e: Event, z: World)
    requires HonestRun(start, events, x, RESOURCE) && Takes(x, e, z)
    ensures HonestRun(start, events + [e], z, RESOURCE)
  {
    HonestExtend(start, events, x, e, z, RESOURCE);
  }

  /** The queue once the first i updates have run. */
  function UpdatesLeft(now: int, i: nat): seq<Entry<Task>>
    requires i <= 3
  {
    Updates(now)[i..] + [CHECK_ENTRY]
  }

  function OneMore(file: string): string {
    if |file| < |RESOURCE| then RESOURCE[..|file| + 1] else file
  }

  /** The response of one byte after which the connection is reset. */
  function Answered(w: World): World {
    w.(agent := Busy(w.requestHeaders, 0, true), queue := Updates(w.now)[..1] + [CHECK_ENTRY])
  }

  function Received(w: World): World {
    w.(agent := Busy(w.requestHeaders, 1, true), file := OneMore(w.file), queue := Updates(w.now)[..2] + [CHECK_ENTRY])
  }

  function Disconnected(w: World): World {
    w.(agent := Idle, file := OneMore(w.file), queue := UpdatesLeft(w.now, 0))
  }

  lemma ByteArrives(w: World, delay: int)
    requires Fetching(w, delay) && w.now < CHECK_INTERVAL && |w.file| + 1 < |RESOURCE|
    ensures Takes(w, Respond(3), Answered(w))
    ensures Takes(Answered(w), Deliver(RESOURCE[|w.file|..|w.file| + 1]), Received(w))
  {
    assert w.file + RESOURCE[|w.file|..|w.file| + 1] == RESOURCE[..|w.file| + 1];
    UpdatesQueueUp(w.now);
  }

  lemma ConnectionBreaks(w: World, delay: int)
    requires Fetching(w, delay) && w.now < CHECK_INTERVAL && |w.file| + 1 < |RESOURCE|
    ensures Takes(Received(w), Fail(RESET), Disconnected(w))
  {
    assert Updates(w.now)[0..] == Updates(w.now);
    UpdatesQueueUp(w.now);
  }

  /** One byte arrives, and the connection is reset. */
  lemma OneByteArrives(start: World, before: seq<Event>, w: World, delay: int) returns (events: seq<Event>)
    requires HonestRun(start, before, w, RESOURCE)
    requires Fetching(w, delay) && w.now < CHECK_INTERVAL && |w.file| + 1 < |RESOURCE|
    ensures HonestRun(start, events, Disconnected(w), RESOURCE)
  {
    ByteArrives(w, delay);
    ConnectionBreaks(w, delay);
    var byte := RESOURCE[|w.file|..|w.file| + 1];
    Extend(start, before, w, Respond(3), Answered(w));
    Extend(start, before + [Respond(3)], Answered(w), Deliver(byte), Received(w));
    Extend(start, before + [Respond(3)] + [Deliver(byte)], Received(w), Fail(RESET), Disconnected(w));
    events := before + [Respond(3)] + [Deliver(byte)] + [Fail(RESET)];
  }

  // The updates run one after the other, and the request is sent again after its delay.

  function TotalKnown(w: World): World {
    w.(queue := UpdatesLeft(w.now, 1), dl := w.dl.(status := w.dl.status.(total := 3)))
  }

  function Counted(w: World): World {
    w.(queue := UpdatesLeft(w.now, 2), dl := w.dl.(status := w.dl.status.(transferred := w.dl.status.transferred + 1)))
  }

  /** The failure has run: a retry is queued. */
  function AfterReset(w: World, delay: int): World {
    w.(queue := [DueAt(w.now + 2 * delay, Retry)] + [CHECK_ENTRY],
       dl := w.dl.(status := w.dl.status.(error := RESET.request), httpActive := false,
                   tracker := w.dl.tracker.(nextRetryDelay := 2 * delay)))
  }

  lemma TotalRuns(w: World)
    requires w.queue == UpdatesLeft(w.now, 0)
    ensures Takes(w, RunNext(ONLINE), TotalKnown(w))
  {
    assert w.queue[1..] == UpdatesLeft(w.now, 1);
  }

  lemma CountRuns(w: World)
    requires w.queue == UpdatesLeft(w.now, 1)
    ensures Takes(w, RunNext(ONLINE), Counted(w))
  {
    assert w.queue[1..] == UpdatesLeft(w.now, 2);
  }

  lemma ResetIsHandled(p: World, delay: int)
    requires p.queue == [CHECK_ENTRY]
    requires p.dl.source == CDN && p.dl.tracker.nextRetryDelay == delay > 0 && 2 * delay < MAX_RETRY_DELAY
    requires p.now + 2 * delay < CHECK_INTERVAL
    ensures OnFailed(p, RESET, ONLINE) == AfterReset(p, delay)
  {
    var retry := DueAt(p.now + 2 * delay, Retry);
    QueuedBeforeCheck([], retry);
    assert [] + [CHECK_ENTRY] == [CHECK_ENTRY] && [] + [retry] == [retry];
  }

  lemma ResetRuns(w: World, delay: int)
    requires w.queue == UpdatesLeft(w.now, 2)
    requires w.dl.source == CDN && w.dl.tracker.nextRetryDelay == delay > 0 && 2 * delay < MAX_RETRY_DELAY
    requires w.now + 2 * delay < CHECK_INTERVAL
    ensures Takes(w, RunNext(ONLINE), AfterReset(w, delay))
  {
    assert w.queue == [DueAt(w.now, Failed(RESET))] + [CHECK_ENTRY] && w.queue[1..] == [CHECK_ENTRY];
    ResetIsHandled(w.(queue := [CHECK_ENTRY]), delay);
  }

  function Due(w: World, delay: nat): World {
    AfterReset(w, delay).(now := w.now + 2 * delay)
  }

  function Resent(w: World, delay: nat): World {
    SendRequest(Due(w, delay).(queue := [CHECK_ENTRY]), ONLINE, true)
  }

  lemma RetryIsSent(w: World, delay: nat)
    requires State(w) == Transferring
    ensures Takes(AfterReset(w, delay), Elapse(2 * delay), Due(w, delay))
    ensures Takes(Due(w, delay), RunNext(ONLINE), Resent(w, delay))
  {
    assert Due(w, delay).queue[1..] == [CHECK_ENTRY];
  }

  lemma UpdatesRun(start: World, before: seq<Event>, w: World) returns (events: seq<Event>)
    requires HonestRun(start, before, w, RESOURCE) && w.queue == UpdatesLeft(w.now, 0)
    ensures HonestRun(start, events, Counted(TotalKnown(w)), RESOURCE)
  {
    TotalRuns(w);
    Extend(start, before, w, RunNext(ONLINE), TotalKnown(w));
    CountRuns(TotalKnown(w));
    Extend(start, before + [RunNext(ONLINE)], TotalKnown(w), RunNext(ONLINE), Counted(TotalKnown(w)));
    events := before + [RunNext(ONLINE)] + [RunNext(ONLINE)];
  }

  lemma FailureRuns(start: World, before: seq<Event>, w: World, delay: nat) returns (events: seq<Event>)
    requires HonestRun(start, before, w, RESOURCE) && w.queue == UpdatesLeft(w.now, 2) && State(w) == Transferring
    requires w.dl.source == CDN && w.dl.tracker.nextRetryDelay == delay > 0 && 2 * delay < MAX_RETRY_DELAY
    requires w.now + 2 * delay < CHECK_INTERVAL
    ensures HonestRun(start, events, Resent(w, delay), RESOURCE)
  {
    ResetRuns(w, delay);
    RetryIsSent(w, delay);
    events := ThreeSteps(start, before, w, RunNext(ONLINE), AfterReset(w, delay), Elapse(2 * delay), Due(w, delay),
                         RunNext(ONLINE), Resent(w, delay));
  }

  lemma ThreeSteps(start: World, before: seq<Event>, w: World, e: Event, a: World, f: Event, b: World, g: Event, z: World)
    returns (events: seq<Event>)
    requires HonestRun(start, before, w, RESOURCE) && Takes(w, e, a) && Takes(a, f, b) && Takes(b, g, z)
    ensures HonestRun(start, events, z, RESOURCE)
  {
    Extend(start, before, w, e, a);
    Extend(start, before + [e], a, f, b);
    Extend(start, before + [e] + [f], b, g, z);
    events := before + [e] + [f] + [g];
  }

  function Retried(w: World, delay: nat): World {
    Resent(Counted(TotalKnown(Disconnected(w))), delay)
  }

  lemma RetriedIsFetching(w: World, delay: nat)
    requires Fetching(w, delay) && |w.file| + 1 < |RESOURCE|
    ensures Fetching(Retried(w, delay), 2 * delay)
    ensures |Retried(w, delay).file| == |w.file| + 1 && Retried(w, delay).now == w.now + 2 * delay
    ensures Retried(w, delay).requestHeaders == w.requestHeaders + [ByteRange(|w.file| + 1, 2)]
  {
    assert HasTag([CHECK_ENTRY], TRACKER_TAG) by {
      assert [CHECK_ENTRY][0].tag == TRACKER_TAG;
    }
  }

  /** The request that follows one byte and a failure. */
  lemma NextRequest(start: World, before: seq<Event>, w: World, delay: nat) returns (events: seq<Event>, z: World)
    requires HonestRun(start, before, w, RESOURCE)
    requires Fetching(w, delay) && 2 * delay < MAX_RETRY_DELAY && w.now + 2 * delay < CHECK_INTERVAL
    requires |w.file| + 1 < |RESOURCE|
    ensures HonestRun(start, events, z, RESOURCE)
    ensures Fetching(z, 2 * delay) && |z.file| == |w.file| + 1 && z.now == w.now + 2 * delay
    ensures z.requestHeaders == w.requestHeaders + [ByteRange(|w.file| + 1, 2)]
  {
    z := Retried(w, delay);
    RetriedIsFetching(w, delay);
    events := OneByteArrives(start, before, w, delay);
    events := UpdatesRun(start, events, Disconnected(w));
    events := FailureRuns(start, events, Counted(TotalKnown(Disconnected(w))), delay);
  }

  function StartAsked(): World {
    NewWorld(30).(queue := [Entry(-1, Call(Start, 0), NULL_TAG)], tickets := 1)
  }

  function Started(): World {
    ToTransferring(SendRequest(StartAsked().(queue := []), ONLINE, false)).(
      replies := map[0 := Reply(true, Status(0, 0, Transferring, Ok, Ok))])
  }

  lemma StartRuns()
    ensures Takes(NewWorld(30), Submit(Start), StartAsked()) && Takes(StartAsked(), RunNext(ONLINE), Started())
  {
    assert StartAsked().queue[1..] == [];
    assert Configured(StartAsked().(queue := []), ONLINE) == StartAsked().(queue := []);
  }

  lemma StartedIsFetching()
    ensures Fetching(Started(), MIN_RETRY_DELAY)
    ensures Started().file == "" && Started().now == 0 && Started().requestHeaders == []
  {
    assert SendRequest(StartAsked().(queue := []), ONLINE, false).queue == [CHECK_ENTRY];
    assert RESOURCE[..0] == "";
  }

  lemma FirstRequest() returns (events: seq<Event>)
    ensures HonestRun(NewWorld(30), events, Started(), RESOURCE)
  {
    StartRuns();
    assert HonestRun(NewWorld(30), [], NewWorld(30), RESOURCE);
    Extend(NewWorld(30), [], NewWorld(30), Submit(Start), StartAsked());
    Extend(NewWorld(30), [] + [Submit(Start)], StartAsked(), RunNext(ONLINE), Started());
    events := [] + [Submit(Start)] + [RunNext(ONLINE)];
  }

  /** What becomes of the file if the server begins a byte too early. */
  lemma EarlierRangeCorrupts(z: World, delay: nat)
    requires Fetching(z, delay) && |z.file| == 2
    ensures Enabled(z, Respond(3)) && Enabled(Next(z, Respond(3)), Deliver(RESOURCE[1..]))
    ensures !(Next(Next(z, Respond(3)), Deliver(RESOURCE[1..])).file <= RESOURCE)
  {
  }

  lemma ThirdRequest() returns (events: seq<Event>, z: World)
    ensures HonestRun(NewWorld(30), events, z, RESOURCE)
    ensures Fetching(z, 4 * MIN_RETRY_DELAY) && |z.file| == 2 && z.requestHeaders == [ByteRange(1, 2), ByteRange(2, 2)]
  {
    events := FirstRequest();
    StartedIsFetching();
    events, z := NextRequest(NewWorld(30), events, Started(), MIN_RETRY_DELAY);
    events, z := NextRequest(NewWorld(30), events, z, 2 * MIN_RETRY_DELAY);
    assert [] + [ByteRange(1, 2)] + [ByteRange(2, 2)] == [ByteRange(1, 2), ByteRange(2, 2)];
  }

  /**
   * Two connections that break after a byte each, and the third request carries two Range headers that contradict each
   * other. A server that went by the first would send a byte again, and the file would no longer be a prefix.
   */
  lemma TwoRangeHeaders() returns (events: seq<Event>, z: World)
    ensures HonestRun(NewWorld(30), events, z, RESOURCE)
    ensures State(z) == Transferring && z.agent == Busy([ByteRange(1, 2), ByteRange(2, 2)], 0, false)
    ensures Enabled(z, Respond(3)) && Enabled(Next(z, Respond(3)), Deliver(RESOURCE[1..]))
    ensures !(Next(Next(z, Respond(3)), Deliver(RESOURCE[1..])).file <= RESOURCE)
  {
    events, z := ThirdRequest();
    EarlierRangeCorrupts(z, 4 * MIN_RETRY_DELAY);
  }
}
