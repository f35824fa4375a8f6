/**
 * One download of the agent as a step protocol: the callers submit operations, the task
 * thread runs one queued task at a time, and the curl thread delivers the response.
 */
module Engine {
  import opened TaskQueues

  // Times are in milliseconds.
  const CHECK_INTERVAL := 10_000
  const TRANSIENT_RETRY_DELAY := 30_000
  const MIN_RETRY_DELAY := 1_000
  const MAX_RETRY_DELAY := 30_000
  const NO_FALLBACK_DELAY := -1_000

  const DOWNLOAD_TAG: Tag := 1
  const TRACKER_TAG: Tag := 2

  datatype DownloadState = Created | Transferring | Transferred | Finalized | Aborted | Paused

  datatype HResult =
    | Ok
    | NoNetwork
    | NoProgress
    | OutOfMemory
    | InvalidUrl
    | InsufficientRangeSupport
    | WriteError
    | OtherError(code: nat)

  datatype Status = Status(total: nat, transferred: nat, state: DownloadState, error: HResult, extended: HResult) {
    predicate IsTransientError() {
      state == Paused && error == Ok && extended != Ok
    }
  }

  datatype Tracker = Tracker(nextRetryDelay: int, noProgress: nat, lastSeen: nat)

  datatype Source = NoSource | MCC | CDN

  /** When falling back from MCC to the original URL is due, if the configuration says so. */
  datatype Fallback = Unset | Never | At(time: int)

  datatype Download = Download(
    status: Status, tracker: Tracker, maxNoProgress: nat,
    source: Source, attempts: nat, transferredAtRequest: nat, originalAttempted: bool,
    httpActive: bool, allowMcc: bool, mccHost: string, fallback: Fallback)

  /** How a request failed: the request's own result, that of the callbacks, and the HTTP status code. */
  datatype Failure = Failure(request: HResult, callback: HResult, httpStatus: nat)

  datatype Operation = Start | Pause | Finalize | Abort | GetStatus

  datatype Task =
    | Headers(total: nat)
    | Data(count: nat)
    | Done
    | Failed(failure: Failure)
    | Retry
    | TransientRetry
    | AlreadyDone
    | Check
    | Call(operation: Operation, ticket: nat)

  /** What one Range header names: the first and the last byte. */
  datatype ByteRange = ByteRange(first: nat, last: int)

  /** The request curl is working on: the Range headers it was sent with, and how many bytes were delivered so far. */
  datatype Agent = Idle | Busy(sent: seq<ByteRange>, delivered: nat, headersSeen: bool)

  /**
   * One SendRequest: its source, the range asked for, all the Range headers that went with it, and the circumstances
   * of the choice of source: whether it is a retry, when it was sent, when falling back is due, and whether MCC was
   * permitted, configured and not banned.
   */
  datatype Request = Request(
    source: Source, first: nat, last: Option<int>, headers: seq<ByteRange>,
    retry: bool, time: int, fallback: Fallback, mccUsable: bool)

  datatype Reply = Reply(accepted: bool, status: Status)

  datatype World = World(
    now: int, dl: Download, queue: seq<Entry<Task>>, agent: Agent, requestHeaders: seq<ByteRange>, file: string,
    log: seq<Request>, checks: seq<nat>, tickets: nat, replies: map<nat, Reply>)

  /** What a task reads from its surroundings when it runs. */
  datatype Env = Env(network: bool, canOpen: bool, mccHost: string, banned: bool, fallbackDelay: Option<int>)

  datatype Event =
    | Elapse(ticks: nat)
    | Submit(operation: Operation)
    | RunNext(env: Env)
    | Respond(total: nat)
    | Deliver(bytes: string)
    | Finish
    | Fail(failure: Failure)
    | Vanish

  // ---------------------------------------------------------------------------
  // Small decisions
  // ---------------------------------------------------------------------------

  predicate IsClientError(httpStatus: nat) {
    400 <= httpStatus < 500
  }

  predicate FallbackDue(f: Fallback, now: int) {
    f.At? && f.time <= now
  }

  /** The inclusive byte range for a length of bytes from an offset. */
  function MakeRange(offset: nat, length: nat): ByteRange {
    ByteRange(offset, offset + length - 1)
  }

  /** The range from the bytes counted so far to the end. */
  function RangeOfTheRest(s: Status): ByteRange {
    MakeRange(s.transferred, if s.transferred <= s.total then s.total - s.transferred else 0)
  }

  /**
   * The agent's header list after a request: one without a range frees the list, one with a range appends to what
   * earlier requests have left in it.
   */
  function HeadersSent(requestHeaders: seq<ByteRange>, s: Status): seq<ByteRange> {
    if s.transferred == 0 then [] else requestHeaders + [RangeOfTheRest(s)]
  }

  /** Where a server begins that goes by the last of several Range headers. */
  function LastOffset(sent: seq<ByteRange>): nat {
    if sent == [] then 0 else sent[|sent| - 1].first
  }

  predicate IsFatal(d: Download, f: Failure) {
    || f.callback != Ok
    || (IsClientError(f.httpStatus) && (d.source == MCC ==> d.fallback == Never))
    || f.request in {OutOfMemory, InvalidUrl, InsufficientRangeSupport, WriteError}
  }

  predicate ShouldPauseMcc(d: Download, clientError: bool, now: int) {
    && d.source == MCC
    && (clientError || if d.fallback == Unset then !d.originalAttempted else FallbackDue(d.fallback, now))
  }

  /** The source a request would like to use. */
  function WantedSource(d: Download, now: int, retry: bool): Source {
    var stalled := d.transferredAtRequest == d.status.transferred && d.attempts >= 2;
    if !retry then MCC
    else if d.fallback != Unset then (if FallbackDue(d.fallback, now) then CDN else d.source)
    else match d.source
      case MCC => if !d.originalAttempted || stalled then CDN else MCC
      case CDN => if stalled then MCC else CDN
      case NoSource => NoSource
  }

  predicate MccAllowed(d: Download, now: int, retry: bool) {
    d.allowMcc && !(retry && FallbackDue(d.fallback, now))
  }

  function ChosenSource(d: Download, now: int, retry: bool, banned: bool): Source {
    if WantedSource(d, now, retry) == MCC && MccAllowed(d, now, retry) && d.mccHost != "" && !banned then MCC else CDN
  }

  function Choose(d: Download, now: int, retry: bool, banned: bool): Download {
    var source := ChosenSource(d, now, retry, banned);
    d.(allowMcc := MccAllowed(d, now, retry),
       source := source,
       attempts := if source == d.source then d.attempts + 1 else 1)
  }

  function RequestFor(d: Download, requestHeaders: seq<ByteRange>, now: int, retry: bool, banned: bool): Request {
    var s := d.status;
    Request(ChosenSource(d, now, retry, banned), s.transferred,
            if s.transferred == 0 then None else Some(RangeOfTheRest(s).last), HeadersSent(requestHeaders, s),
            retry, now, d.fallback, d.allowMcc && d.mccHost != "" && !banned)
  }

  // ---------------------------------------------------------------------------
  // What the task thread does
  // ---------------------------------------------------------------------------

  function Schedule(w: World, task: Task, delay: int, tag: Tag): World {
    w.(queue := AddTask(w.queue, w.now, task, delay, tag))
  }

  function ScheduleCheck(w: World): World {
    if HasTag(w.queue, TRACKER_TAG) then w else Schedule(w, Check, CHECK_INTERVAL, TRACKER_TAG)
  }

  function CancelTasks(w: World): World {
    w.(queue := RemoveTag(RemoveTag(w.queue, DOWNLOAD_TAG), TRACKER_TAG))
  }

  /** Handing a request to the agent; one that is still running is not replaced. */
  function Dispatch(a: Agent, sent: seq<ByteRange>): Agent {
    if a.Busy? then a.(headersSeen := false) else Busy(sent, 0, false)
  }

  /** What a download remembers of a request that begins. */
  function Begun(d: Download): Download {
    d.(httpActive := true,
       transferredAtRequest := d.status.transferred,
       originalAttempted := d.originalAttempted || d.source == CDN,
       status := d.status.(error := Ok, extended := Ok))
  }

  /** The agent gets a request of the chosen source d. */
  function HandOver(w: World, d: Download, request: Request): World {
    w.(dl := Begun(d),
       agent := Dispatch(w.agent, request.headers),
       requestHeaders := request.headers,
       log := w.log + [request])
  }

  function SendRequest(w: World, env: Env, retry: bool): World {
    ScheduleCheck(HandOver(w, Choose(w.dl, w.now, retry, env.banned),
                           RequestFor(w.dl, w.requestHeaders, w.now, retry, env.banned)))
  }

  function SetState(w: World, state: DownloadState, error: HResult, extended: HResult): World {
    w.(dl := w.dl.(status := w.dl.status.(state := state, error := error, extended := extended)))
  }

  function ToTransferring(w: World): World {
    SetState(w, Transferring, Ok, Ok)
  }

  function ToPaused(w: World, error: HResult, extended: HResult): World {
    SetState(w, Paused, error, extended)
  }

  function ToTransferred(w: World): World {
    SetState(w, Transferred, w.dl.status.error, w.dl.status.extended)
  }

  function CloseRequest(w: World): World {
    w.(agent := Idle, dl := w.dl.(httpActive := false))
  }

  function FallbackFrom(now: int, delay: Option<int>): Fallback {
    match delay
    case None => Unset
    case Some(ticks) => if ticks == NO_FALLBACK_DELAY then Never else At(now + ticks)
  }

  /** A new download reads its configuration and begins with an empty file. */
  function Configured(w: World, env: Env): World {
    w.(file := "", dl := w.dl.(mccHost := env.mccHost, fallback := FallbackFrom(w.now, env.fallbackDelay)))
  }

  /** A resumed download reads the MCC host anew, unless MCC was given up. */
  function Reconfigured(w: World, env: Env): World {
    w.(dl := w.dl.(mccHost := if w.dl.allowMcc then env.mccHost else w.dl.mccHost))
  }

  function BeginTransfer(w: World, env: Env): World {
    SendRequest(Configured(w, env), env, false)
  }

  predicate AllCounted(s: Status) {
    s.total != 0 && s.transferred == s.total
  }

  function Resume(w: World, env: Env): World {
    if AllCounted(w.dl.status) then w.(queue := AddFront(w.queue, w.now, AlreadyDone, DOWNLOAD_TAG))
    else SendRequest(Reconfigured(w, env), env, false)
  }

  function AbortTransfer(w: World): World {
    CancelTasks(SetState(w.(agent := Idle, file := ""), Aborted, w.dl.status.error, w.dl.status.extended))
  }

  function FinalizeTransfer(w: World): World {
    CancelTasks(SetState(CloseRequest(w), Finalized, w.dl.status.error, w.dl.status.extended))
  }

  /**
   * Whether the state machine accepts an operation; opening the file can fail only when a transfer begins or resumes.
   * A URL or a path that was never set counts as a file that cannot be opened.
   */
  predicate Accepts(state: DownloadState, op: Operation, canOpen: bool) {
    match op
    case Start => state !in {Finalized, Aborted} && (state in {Created, Paused} ==> canOpen)
    case Pause => state !in {Finalized, Aborted}
    case Finalize => state in {Transferred, Finalized}
    case Abort => state != Finalized
    case GetStatus => true
  }

  function Perform(w: World, op: Operation, env: Env): World {
    var state := w.dl.status.state;
    if !Accepts(state, op, env.canOpen) then w
    else match op
      case Start =>
        if state == Created then ToTransferring(BeginTransfer(w, env))
        else if state == Paused then ToTransferring(Resume(w, env))
        else w
      case Pause => if state == Transferring then ToPaused(CloseRequest(w), Ok, Ok) else w
      case Finalize => if state == Transferred then FinalizeTransfer(w) else w
      case Abort => if state != Aborted then AbortTransfer(w) else w
      case GetStatus => w
  }

  function EnterTransientError(w: World): World {
    Schedule(ToPaused(w, Ok, NoNetwork), TransientRetry, TRANSIENT_RETRY_DELAY, DOWNLOAD_TAG)
  }

  function OnTransientRetry(w: World, env: Env): World {
    if !env.network then EnterTransientError(w)
    else if w.dl.status.IsTransientError() then ToTransferring(SendRequest(w, env, false))
    else w
  }

  function AfterFailure(t: Tracker): Tracker {
    t.(nextRetryDelay := if t.nextRetryDelay * 2 < MAX_RETRY_DELAY then t.nextRetryDelay * 2 else MAX_RETRY_DELAY)
  }

  predicate RetriesAtOnce(w: World, f: Failure) {
    ShouldPauseMcc(w.dl, IsClientError(f.httpStatus), w.now)
  }

  function RetryDelay(w: World, f: Failure): int {
    if RetriesAtOnce(w, f) then 0 else AfterFailure(w.dl.tracker).nextRetryDelay
  }

  function ErrorOf(f: Failure): HResult {
    if f.callback != Ok then f.callback else f.request
  }

  function ScheduleRetry(w: World, f: Failure): World {
    var slower := AfterFailure(w.dl.tracker);
    var tracker := if RetriesAtOnce(w, f) then slower.(nextRetryDelay := MIN_RETRY_DELAY) else slower;
    Schedule(w.(dl := w.dl.(tracker := tracker, status := w.dl.status.(error := ErrorOf(f)))),
             Retry, RetryDelay(w, f), DOWNLOAD_TAG)
  }

  function OnFailed(w: World, f: Failure, env: Env): World {
    var w := w.(dl := w.dl.(httpActive := false));
    if !env.network then EnterTransientError(w)
    else if IsFatal(w.dl, f) then ToPaused(CloseRequest(w), ErrorOf(f), Ok)
    else ScheduleRetry(w, f)
  }

  function AfterCheck(t: Tracker, transferred: nat): Tracker {
    if transferred > t.lastSeen then t.(noProgress := 0, lastSeen := transferred)
    else t.(noProgress := t.noProgress + 1)
  }

  function OnCheck(w: World): World {
    if w.dl.status.state != Transferring then w
    else
      var tracker := AfterCheck(w.dl.tracker, w.dl.status.transferred);
      var w := w.(dl := w.dl.(tracker := tracker), checks := w.checks + [w.dl.status.transferred]);
      if tracker.noProgress >= w.dl.maxNoProgress
      then ToPaused(CloseRequest(w), NoProgress, w.dl.status.error)
      else ScheduleCheck(w)
  }

  function OnCall(w: World, op: Operation, ticket: nat, env: Env): World {
    var after := Perform(w, op, env);
    after.(replies := after.replies[ticket := Reply(Accepts(w.dl.status.state, op, env.canOpen), after.dl.status)])
  }

  /** Runs a task that has just been popped. */
  function Execute(w: World, task: Task, env: Env): World {
    match task
    case Headers(total) => w.(dl := w.dl.(status := w.dl.status.(total := total)))
    case Data(count) => w.(dl := w.dl.(status := w.dl.status.(transferred := w.dl.status.transferred + count)))
    case Done => ToTransferred(w.(dl := w.dl.(httpActive := false)))
    case Failed(f) => OnFailed(w, f, env)
    case Retry => if w.dl.status.state == Transferring && !w.dl.httpActive then SendRequest(w, env, true) else w
    case TransientRetry => OnTransientRetry(w, env)
    case AlreadyDone => ToTransferred(w)
    case Check => OnCheck(w)
    case Call(op, ticket) => OnCall(w, op, ticket, env)
  }

  // ---------------------------------------------------------------------------
  // Events and runs
  // ---------------------------------------------------------------------------

  /** Status requests queue up behind everything; the other operations jump the queue. */
  function SubmitCall(w: World, op: Operation): World {
    var call := Call(op, w.tickets);
    w.(queue := if op == GetStatus then AddTask(w.queue, w.now, call, 0, NULL_TAG)
                else AddFront(w.queue, w.now, call, NULL_TAG),
       tickets := w.tickets + 1)
  }

  predicate Enabled(w: World, e: Event) {
    match e
    case Elapse(_) => true
    case Submit(_) => true
    case RunNext(_) => Ready(w.queue, w.now)
    case Respond(_) => w.agent.Busy? && !w.agent.headersSeen
    case Deliver(_) => w.agent.Busy? && w.agent.headersSeen
    case Finish => w.agent.Busy?
    case Fail(f) => w.agent.Busy? && f.request != Ok
    case Vanish => w.agent.Busy?
  }

  function Next(w: World, e: Event): World
    requires Enabled(w, e)
  {
    match e
    case Elapse(ticks) => w.(now := w.now + ticks)
    case Submit(op) => SubmitCall(w, op)
    case RunNext(env) => Execute(w.(queue := w.queue[1..]), w.queue[0].task, env)
    case Respond(total) =>
      Schedule(w.(agent := w.agent.(headersSeen := true)), Headers(total), 0, DOWNLOAD_TAG)
    case Deliver(bytes) =>
      Schedule(w.(agent := w.agent.(delivered := w.agent.delivered + |bytes|), file := w.file + bytes),
               Data(|bytes|), 0, DOWNLOAD_TAG)
    case Finish => Schedule(w.(agent := Idle), Done, 0, DOWNLOAD_TAG)
    case Fail(f) => Schedule(w.(agent := Idle), Failed(f), 0, DOWNLOAD_TAG)
    case Vanish => w.(agent := Idle)
  }

  function Created0(maxNoProgress: nat): Download {
    Download(Status(0, 0, Created, Ok, Ok), Tracker(MIN_RETRY_DELAY, 0, 0), maxNoProgress,
             NoSource, 0, 0, false, false, true, "", Unset)
  }

  function NewWorld(maxNoProgress: nat): World {
    World(0, Created0(maxNoProgress), [], Idle, [], "", [], [], 0, map[])
  }

  /** events is a run from w that ends in z. */
  ghost predicate RunsTo(w: World, events: seq<Event>, z: World)
    decreases |events|
  {
    if events == [] then w == z
    else Enabled(w, events[0]) && RunsTo(Next(w, events[0]), events[1..], z)
  }

  ghost predicate Reachable(w: World, maxNoProgress: nat) {
    exists events :: RunsTo(NewWorld(maxNoProgress), events, w)
  }
}
