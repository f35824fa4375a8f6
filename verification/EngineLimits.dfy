/** Two runs that show why callers must not resume a download too early. The server keeps to its part in both. */
module EngineLimits {
  import opened TaskQueues
  import opened Engine
  import opened EngineQueue
  import opened EngineSafety
  import opened EngineResume
  import opened EnginePromises

  /** A run in which the server serves resource r, whatever the callers do. */
  ghost predicate ServedRun(w: World, events: seq<Event>, z: World, r: string)
    decreases |events|
  {
    if events == [] then w == z
    else Enabled(w, events[0]) && ServesResource(w, events[0], r) && ServedRun(Next(w, events[0]), events[1..], z, r)
  }

  const ONLINE := Env(true, true, "", false, None)
  const OFFLINE := ONLINE.(network := false)
  const RESOURCE := "ab"
  const REFUSED := Failure(OtherError(7), Ok, 0)

  /** One step of the runs below. */
  predicate Takes(w: World, e: Event, z: World) {
    Enabled(w, e) && ServesResource(w, e, RESOURCE) && Next(w, e) == z
  }

  lemma {:induction false} Extend(w: World, events: seq<Event>, x: World, e: Event, z: World)
    requires ServedRun(w, events, x, RESOURCE) && Takes(x, e, z)
    ensures ServedRun(w, events + [e], z, RESOURCE)
    decreases |events|
  {
    if events == [] {
      assert events + [e] == [e] && [e][1..] == [];
    } else {
      Extend(Next(w, events[0]), events[1..], x, e, z);
      assert (events + [e])[1..] == events[1..] + [e];
    }
  }

  // ---------------------------------------------------------------------------
  // Both runs begin with a first request to the original URL
  // ---------------------------------------------------------------------------

  const CHECK_ENTRY: Entry<Task> := Entry(CHECK_INTERVAL, Check, TRACKER_TAG)
  const FIRST_REQUEST := Request(CDN, 0, None, [], false, 0, Unset, false)

  function Asked(op: Operation, ticket: nat): Entry<Task> {
    Entry(-1, Call(op, ticket), NULL_TAG)
  }

  /** The download with requests sent so far, transferring or paused. */
  function Downloading(state: DownloadState, extended: HResult, attempts: nat): Download {
    Created0(30).(status := Status(0, 0, state, Ok, extended), source := CDN, attempts := attempts,
                  originalAttempted := true, httpActive := state == Transferring)
  }

  function Accepted(state: DownloadState): Reply {
    Reply(true, Status(0, 0, state, Ok, Ok))
  }

  function StartAsked(): World {
    NewWorld(30).(queue := [Asked(Start, 0)], tickets := 1)
  }

  function Requested(): World {
    World(0, Downloading(Transferring, Ok, 1), [CHECK_ENTRY], Busy([], 0, false), [], "", [FIRST_REQUEST], [], 1,
          map[0 := Accepted(Transferring)])
  }

  lemma FirstRequestIsSent()
    ensures Takes(StartAsked(), RunNext(ONLINE), Requested())
  {
    var w := StartAsked();
    var p := w.(queue := []);
    assert w.queue[1..] == [];
    var sent := SendRequest(p.(file := "", dl := p.dl.(mccHost := "", fallback := Unset)), ONLINE, false);
    assert sent.queue == [CHECK_ENTRY];
  }

  lemma BothBegin() returns (events: seq<Event>)
    ensures ServedRun(NewWorld(30), events, Requested(), RESOURCE)
  {
    var w := NewWorld(30);
    assert ServedRun(w, [], w, RESOURCE);
    Extend(w, [], w, Submit(Start), StartAsked());
    FirstRequestIsSent();
    Extend(w, [] + [Submit(Start)], StartAsked(), RunNext(ONLINE), Requested());
    events := [] + [Submit(Start)] + [RunNext(ONLINE)];
  }

  // ---------------------------------------------------------------------------
  // Starting while a byte count is queued
  // ---------------------------------------------------------------------------

  const COUNTS: seq<Entry<Task>> := [Entry(0, Headers(2), DOWNLOAD_TAG), Entry(0, Data(1), DOWNLOAD_TAG), CHECK_ENTRY]

  function Answered(): World {
    Requested().(agent := Busy([], 0, true), queue := [Entry(0, Headers(2), DOWNLOAD_TAG), CHECK_ENTRY])
  }

  function FirstByte(): World {
    Requested().(agent := Busy([], 1, true), queue := COUNTS, file := "a")
  }

  function PauseAsked(): World {
    FirstByte().(queue := [Asked(Pause, 1)] + COUNTS, tickets := 2)
  }

  function Paused1(): World {
    World(0, Downloading(Paused, Ok, 1), COUNTS, Idle, [], "a", [FIRST_REQUEST], [], 2,
          map[0 := Accepted(Transferring), 1 := Accepted(Paused)])
  }

  function RestartAsked(): World {
    Paused1().(queue := [Asked(Start, 2)] + COUNTS, tickets := 3)
  }

  function Restarted(): World {
    World(0, Downloading(Transferring, Ok, 2), COUNTS, Busy([], 0, false), [], "a", [FIRST_REQUEST, FIRST_REQUEST], [], 3,
          map[0 := Accepted(Transferring), 1 := Accepted(Paused), 2 := Accepted(Transferring)])
  }

  lemma FirstByteArrives()
    ensures Takes(Requested(), Respond(2), Answered()) && Takes(Answered(), Deliver("a"), FirstByte())
  {
    assert Next(Requested(), Respond(2)).queue == [Entry(0, Headers(2), DOWNLOAD_TAG)] + [CHECK_ENTRY];
    var tail := Answered().queue[1..];
    assert tail == [CHECK_ENTRY];
    var e := Entry(0, Data(1), DOWNLOAD_TAG);
    assert Insert(tail, e) == [e, CHECK_ENTRY];
    assert Insert(Answered().queue, e) == COUNTS;
    assert "" + "a" == "a";
  }

  lemma PauseJumpsTheQueue()
    ensures Takes(FirstByte(), Submit(Pause), PauseAsked()) && Takes(PauseAsked(), RunNext(ONLINE), Paused1())
  {
    assert PauseAsked().queue[1..] == COUNTS;
  }

  lemma StartJumpsTheQueue()
    ensures Takes(Paused1(), Submit(Start), RestartAsked())
  {
  }

  lemma StartRunsEarly()
    ensures Takes(RestartAsked(), RunNext(ONLINE), Restarted())
  {
    var p := RestartAsked().(queue := COUNTS);
    assert RestartAsked().queue[1..] == COUNTS;
    assert COUNTS[2].tag == TRACKER_TAG;
    var sent := SendRequest(p.(dl := p.dl.(mccHost := "")), ONLINE, false);
    assert sent.queue == COUNTS;
    assert sent.log == [FIRST_REQUEST, FIRST_REQUEST];
  }

  lemma SameByteArrives() returns (x: World, z: World)
    ensures Takes(Restarted(), Respond(2), x) && Takes(x, Deliver("a"), z)
    ensures State(z) == Transferring && z.file == "aa"
  {
    x := Next(Restarted(), Respond(2));
    z := Next(x, Deliver("a"));
    assert "a" + "a" == "aa";
  }

  /** Pausing and starting again at once, while a byte count is queued, puts the same byte into the file twice. */
  lemma EarlyStartCorruptsTheFile() returns (events: seq<Event>, z: World)
    ensures ServedRun(NewWorld(30), events, z, RESOURCE)
    ensures State(z) == Transferring && !(z.file <= RESOURCE)
  {
    var w := NewWorld(30);
    events := BothBegin();
    FirstByteArrives();
    Extend(w, events, Requested(), Respond(2), Answered());
    Extend(w, events + [Respond(2)], Answered(), Deliver("a"), FirstByte());
    events := events + [Respond(2)] + [Deliver("a")];
    PauseJumpsTheQueue();
    Extend(w, events, FirstByte(), Submit(Pause), PauseAsked());
    Extend(w, events + [Submit(Pause)], PauseAsked(), RunNext(ONLINE), Paused1());
    events := events + [Submit(Pause)] + [RunNext(ONLINE)];
    StartJumpsTheQueue();
    StartRunsEarly();
    Extend(w, events, Paused1(), Submit(Start), RestartAsked());
    Extend(w, events + [Submit(Start)], RestartAsked(), RunNext(ONLINE), Restarted());
    events := events + [Submit(Start)] + [RunNext(ONLINE)];
    var x;
    x, z := SameByteArrives();
    Extend(w, events, Restarted(), Respond(2), x);
    Extend(w, events + [Respond(2)], x, Deliver("a"), z);
    events := events + [Respond(2)] + [Deliver("a")];
    assert z.file[1] != RESOURCE[1];
  }

  // ---------------------------------------------------------------------------
  // Starting while the transient-error timer is armed
  // ---------------------------------------------------------------------------

  const TIMER_ENTRY: Entry<Task> := Entry(TRANSIENT_RETRY_DELAY, TransientRetry, DOWNLOAD_TAG)
  const TIMERS: seq<Entry<Task>> := [CHECK_ENTRY, TIMER_ENTRY]

  function Refused(): World {
    Requested().(agent := Idle, queue := [Entry(0, Failed(REFUSED), DOWNLOAD_TAG), CHECK_ENTRY])
  }

  function Disconnected(): World {
    Requested().(dl := Downloading(Paused, NoNetwork, 1), agent := Idle, queue := TIMERS)
  }

  function StartAskedAgain(): World {
    Disconnected().(queue := [Asked(Start, 1)] + TIMERS, tickets := 2)
  }

  function Retransferring(): World {
    World(0, Downloading(Transferring, Ok, 2), TIMERS, Busy([], 0, false), [], "", [FIRST_REQUEST, FIRST_REQUEST], [], 2,
          map[0 := Accepted(Transferring), 1 := Accepted(Transferring)])
  }

  function HalfMinuteLater(): World {
    Retransferring().(now := 30_000)
  }

  function Checked(): World {
    HalfMinuteLater().(
      dl := HalfMinuteLater().dl.(tracker := Tracker(MIN_RETRY_DELAY, 1, 0)), checks := [0],
      queue := [TIMER_ENTRY, Entry(40_000, Check, TRACKER_TAG)])
  }

  function Disturbed(): World {
    Checked().(
      dl := Checked().dl.(status := Status(0, 0, Paused, Ok, NoNetwork)),
      queue := [Entry(40_000, Check, TRACKER_TAG), Entry(60_000, TransientRetry, DOWNLOAD_TAG)])
  }

  lemma ConnectionFails()
    ensures Takes(Requested(), Fail(REFUSED), Refused()) && Takes(Refused(), RunNext(OFFLINE), Disconnected())
  {
    assert Next(Requested(), Fail(REFUSED)).queue == [Entry(0, Failed(REFUSED), DOWNLOAD_TAG)] + [CHECK_ENTRY];
    assert Refused().queue[1..] == [CHECK_ENTRY];
    assert Insert([CHECK_ENTRY], TIMER_ENTRY) == TIMERS;
  }

  lemma StartIsAskedAgain()
    ensures Takes(Disconnected(), Submit(Start), StartAskedAgain())
  {
  }

  lemma StartInTransientError()
    ensures Takes(StartAskedAgain(), RunNext(ONLINE), Retransferring())
  {
    var p := StartAskedAgain().(queue := TIMERS);
    assert StartAskedAgain().queue[1..] == TIMERS;
    assert TIMERS[0].tag == TRACKER_TAG;
    var sent := SendRequest(p.(dl := p.dl.(mccHost := "")), ONLINE, false);
    assert sent.queue == TIMERS;
    assert sent.log == [FIRST_REQUEST, FIRST_REQUEST];
  }

  lemma WatchdogLetsItGoOn()
    ensures Takes(HalfMinuteLater(), RunNext(ONLINE), Checked())
  {
    assert HalfMinuteLater().queue[1..] == [TIMER_ENTRY];
    assert !HasTag([TIMER_ENTRY], TRACKER_TAG);
    assert Insert([TIMER_ENTRY], Entry(40_000, Check, TRACKER_TAG)) == Checked().queue;
  }

  lemma TimerFiresOffline()
    ensures Takes(Checked(), RunNext(OFFLINE), Disturbed())
  {
    var check := Entry(40_000, Check, TRACKER_TAG);
    assert Checked().queue[1..] == [check];
    assert Insert([check], Entry(60_000, TransientRetry, DOWNLOAD_TAG)) == Disturbed().queue;
  }

  function AMinuteLater(): World {
    Disturbed().(now := 60_000)
  }

  function Overlapping(): World {
    AMinuteLater().(queue := [Entry(60_000, TransientRetry, DOWNLOAD_TAG)])
  }

  lemma NextTimerIsDue()
    ensures Takes(Disturbed(), Elapse(30_000), AMinuteLater()) && Takes(AMinuteLater(), RunNext(ONLINE), Overlapping())
    ensures var z := Overlapping(); !Asserts(z.(queue := z.queue[1..]), z.queue[0].task, ONLINE)
  {
    assert AMinuteLater().queue[1..] == Overlapping().queue;
  }

  lemma RestartedInTransientError() returns (events: seq<Event>)
    ensures ServedRun(NewWorld(30), events, Retransferring(), RESOURCE)
  {
    var w := NewWorld(30);
    events := BothBegin();
    ConnectionFails();
    Extend(w, events, Requested(), Fail(REFUSED), Refused());
    Extend(w, events + [Fail(REFUSED)], Refused(), RunNext(OFFLINE), Disconnected());
    events := events + [Fail(REFUSED)] + [RunNext(OFFLINE)];
    StartIsAskedAgain();
    StartInTransientError();
    Extend(w, events, Disconnected(), Submit(Start), StartAskedAgain());
    Extend(w, events + [Submit(Start)], StartAskedAgain(), RunNext(ONLINE), Retransferring());
    events := events + [Submit(Start)] + [RunNext(ONLINE)];
  }

  /**
   * Starting a download that is paused by a transient error leaves its timer armed: should the network be down when it
   * fires, the download is reported as paused while its request goes on, and the next timer finds it still running.
   */
  lemma StartInTransientErrorBreaksAnAssertion() returns (events: seq<Event>, z: World)
    ensures ServedRun(NewWorld(30), events, z, RESOURCE) && Enabled(z, RunNext(ONLINE))
    ensures State(z) == Paused && z.agent.Busy?
    ensures !Asserts(z.(queue := z.queue[1..]), z.queue[0].task, ONLINE)
  {
    var w := NewWorld(30);
    events := RestartedInTransientError();
    Extend(w, events, Retransferring(), Elapse(30_000), HalfMinuteLater());
    WatchdogLetsItGoOn();
    Extend(w, events + [Elapse(30_000)], HalfMinuteLater(), RunNext(ONLINE), Checked());
    events := events + [Elapse(30_000)] + [RunNext(ONLINE)];
    TimerFiresOffline();
    Extend(w, events, Checked(), RunNext(OFFLINE), Disturbed());
    events := events + [RunNext(OFFLINE)];
    NextTimerIsDue();
    Extend(w, events, Disturbed(), Elapse(30_000), AMinuteLater());
    Extend(w, events + [Elapse(30_000)], AMinuteLater(), RunNext(ONLINE), Overlapping());
    events := events + [Elapse(30_000)] + [RunNext(ONLINE)];
    z := Overlapping();
  }
}
