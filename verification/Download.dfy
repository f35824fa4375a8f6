/** The download object and its collaborators: every method carries out the step of the protocol with its name. */
module Downloads {
  import opened TaskQueues
  import E = Engine
  import opened Engine

  class ProgressTracker {
    var nextRetryDelay: int
    var numNoProgressIntervals: nat
    var lastSeenBytesTransferred: nat

    ghost function Value(): Tracker
      reads this
    {
      Tracker(nextRetryDelay, numNoProgressIntervals, lastSeenBytesTransferred)
    }

    constructor ()
      ensures Value() == Tracker(MIN_RETRY_DELAY, 0, 0)
    {
      nextRetryDelay, numNoProgressIntervals, lastSeenBytesTransferred := MIN_RETRY_DELAY, 0, 0;
    }

    method CheckProgress(newBytesTransferred: nat, maxNoProgressIntervals: nat) returns (timedOut: bool)
      modifies this
      ensures Value() == AfterCheck(old(Value()), newBytesTransferred)
      ensures timedOut <==> Value().noProgress >= maxNoProgressIntervals
    {
      if newBytesTransferred > lastSeenBytesTransferred {
        numNoProgressIntervals := 0;
        lastSeenBytesTransferred := newBytesTransferred;
      } else {
        numNoProgressIntervals := numNoProgressIntervals + 1;
      }
      timedOut := numNoProgressIntervals >= maxNoProgressIntervals;
    }

    method OnDownloadFailure()
      modifies this
      ensures Value() == AfterFailure(old(Value()))
    {
      nextRetryDelay := if MAX_RETRY_DELAY <= nextRetryDelay * 2 then MAX_RETRY_DELAY else nextRetryDelay * 2;
    }

    method ResetRetryDelay()
      modifies this
      ensures Value() == old(Value()).(nextRetryDelay := MIN_RETRY_DELAY)
    {
      nextRetryDelay := MIN_RETRY_DELAY;
    }
  }

  /** The HTTP agent: its request, and the list of headers that it keeps from one request to the next. */
  class HttpAgent {
    var request: Agent
    var requestHeaders: seq<ByteRange>

    constructor ()
      ensures request == Idle && requestHeaders == []
    {
      request, requestHeaders := Idle, [];
    }

    method SendRequest(range: Option<ByteRange>)
      modifies this
      ensures requestHeaders == if range.None? then [] else old(requestHeaders) + [range.value]
      ensures request == Dispatch(old(request), requestHeaders)
    {
      if range.None? {
        requestHeaders := [];
      } else {
        requestHeaders := requestHeaders + [range.value];
      }
      if request.Busy? {
        request := request.(headersSeen := false);
      } else {
        request := Busy(requestHeaders, 0, false);
      }
    }

    /** Returns when no callback can come any more. */
    method Close()
      modifies this`request
      ensures request == Idle
    {
      request := Idle;
    }
  }

  /** The destination file, opened for appending. */
  class DestinationFile {
    var contents: string

    constructor ()
      ensures contents == ""
    {
      contents := "";
    }

    /** Creating and deleting both leave nothing of a previous file. */
    method Truncate()
      modifies this
      ensures contents == ""
    {
      contents := "";
    }

    method Append(bytes: string)
      modifies this
      ensures contents == old(contents) + bytes
    {
      contents := contents + bytes;
    }
  }

  class Download {
    var status: Status
    var connectionType: Source
    var numAttemptsWithCurrentConnectionType: nat
    var cbTransferredAtRequestBegin: nat
    var originalHostAttempted: bool
    var httpRequestActive: bool
    var allowMcc: bool
    var mccHost: string
    var mccFallbackDue: Fallback
    const maxNoProgressIntervals: nat

    const progressTracker: ProgressTracker
    const taskThread: TaskQueue<Task>
    const httpAgent: HttpAgent
    const file: DestinationFile

    var tickets: nat
    ghost var replies: map<nat, Reply>
    ghost var log: seq<Request>
    ghost var checks: seq<nat>

    ghost predicate Valid()
      reads this, taskThread
    {
      taskThread.Valid()
    }

    ghost function Value(): E.Download
      reads this, progressTracker
    {
      E.Download(status, progressTracker.Value(), maxNoProgressIntervals, connectionType,
                 numAttemptsWithCurrentConnectionType, cbTransferredAtRequestBegin, originalHostAttempted,
                 httpRequestActive, allowMcc, mccHost, mccFallbackDue)
    }

    /** The state of the protocol this object is in. */
    ghost function Abstract(now: int): World
      reads this, progressTracker, taskThread, httpAgent, file
    {
      World(now, Value(), taskThread.ops, httpAgent.request, httpAgent.requestHeaders, file.contents, log, checks, tickets, replies)
    }

    constructor (maxNoProgressIntervals: nat)
      ensures Valid() && Abstract(0) == NewWorld(maxNoProgressIntervals)
      ensures fresh(progressTracker) && fresh(taskThread) && fresh(httpAgent) && fresh(file)
    {
      this.maxNoProgressIntervals := maxNoProgressIntervals;
      status := Status(0, 0, Created, Ok, Ok);
      connectionType, numAttemptsWithCurrentConnectionType, cbTransferredAtRequestBegin := NoSource, 0, 0;
      originalHostAttempted, httpRequestActive, allowMcc := false, false, true;
      mccHost, mccFallbackDue := "", Unset;
      progressTracker := new ProgressTracker();
      taskThread := new TaskQueue();
      httpAgent := new HttpAgent();
      file := new DestinationFile();
      tickets, replies, log, checks := 0, map[], [], [];
    }

    // -------------------------------------------------------------------------
    // Requests
    // -------------------------------------------------------------------------

    /** The source to prefer after a failure. */
    method ConnectionTypeForRetry(now: int) returns (newConnectionType: Source)
      modifies this`allowMcc
      ensures newConnectionType == WantedSource(old(Value()), now, true)
      ensures allowMcc == MccAllowed(old(Value()), now, true)
    {
      newConnectionType := connectionType;
      if mccFallbackDue != Unset {
        if FallbackDue(mccFallbackDue, now) {
          allowMcc := false;
          newConnectionType := CDN;
        }
      } else {
        var noProgress := cbTransferredAtRequestBegin == status.transferred;
        if connectionType == MCC {
          if originalHostAttempted {
            if noProgress && numAttemptsWithCurrentConnectionType >= 2 {
              newConnectionType := CDN;
            }
          } else {
            newConnectionType := CDN;
          }
        } else if connectionType == CDN {
          if noProgress && numAttemptsWithCurrentConnectionType >= 2 {
            newConnectionType := MCC;
          }
        }
      }
    }

    method UpdateConnectionType(retryAfterFailure: bool, banned: bool, now: int)
      modifies this`allowMcc, this`connectionType, this`numAttemptsWithCurrentConnectionType
      ensures Value() == Choose(old(Value()), now, retryAfterFailure, banned)
    {
      var newConnectionType := MCC;
      if retryAfterFailure {
        newConnectionType := ConnectionTypeForRetry(now);
      }
      if !(newConnectionType == MCC && allowMcc && mccHost != "" && !banned) {
        newConnectionType := CDN;
      }
      if newConnectionType != connectionType {
        connectionType := newConnectionType;
        numAttemptsWithCurrentConnectionType := 1;
      } else {
        numAttemptsWithCurrentConnectionType := numAttemptsWithCurrentConnectionType + 1;
      }
    }

    method SchedProgressTracking(now: int)
      requires Valid()
      modifies taskThread
      ensures Valid() && Abstract(now) == ScheduleCheck(old(Abstract(now)))
    {
      var scheduled := taskThread.Exists(TRACKER_TAG);
      if !scheduled {
        taskThread.Add(Check, CHECK_INTERVAL, TRACKER_TAG, now);
      }
    }

    /** Asks the agent for the rest of the file, or for the whole of it. */
    method RequestTheRest()
      modifies httpAgent
      ensures httpAgent.requestHeaders == HeadersSent(old(httpAgent.requestHeaders), status)
      ensures httpAgent.request == Dispatch(old(httpAgent.request), httpAgent.requestHeaders)
    {
      var range := None;
      if status.transferred != 0 {
        range := Some(RangeOfTheRest(status));
      }
      httpAgent.SendRequest(range);
    }

    method RememberRequest()
      modifies this`httpRequestActive, this`cbTransferredAtRequestBegin, this`originalHostAttempted, this`status
      ensures Value() == Begun(old(Value()))
    {
      httpRequestActive := true;
      cbTransferredAtRequestBegin := status.transferred;
      if connectionType == CDN {
        originalHostAttempted := true;
      }
      status := status.(error := Ok, extended := Ok);
    }

    method SendHttpRequest(retryAfterFailure: bool, env: Env, now: int)
      requires Valid()
      modifies this, taskThread, httpAgent
      ensures Valid() && Abstract(now) == SendRequest(old(Abstract(now)), env, retryAfterFailure)
    {
      ghost var request := RequestFor(Value(), httpAgent.requestHeaders, now, retryAfterFailure, env.banned);
      ghost var d := Choose(Value(), now, retryAfterFailure, env.banned);
      UpdateConnectionType(retryAfterFailure, env.banned, now);
      RequestTheRest();
      log := log + [request];
      RememberRequest();
      assert Abstract(now) == HandOver(old(Abstract(now)), d, request);
      SchedProgressTracking(now);
    }

    // -------------------------------------------------------------------------
    // State changes
    // -------------------------------------------------------------------------

    method Configure(env: Env, now: int)
      modifies this`mccHost, this`mccFallbackDue, file
      ensures Abstract(now) == Configured(old(Abstract(now)), env)
    {
      file.Truncate();
      mccFallbackDue := Unset;
      if env.fallbackDelay.Some? {
        if env.fallbackDelay.value == NO_FALLBACK_DELAY {
          mccFallbackDue := Never;
        } else {
          mccFallbackDue := At(now + env.fallbackDelay.value);
        }
      }
      mccHost := env.mccHost;
    }

    method BeginDownload(env: Env, now: int)
      requires Valid()
      modifies this, taskThread, httpAgent, file
      ensures Valid() && Abstract(now) == BeginTransfer(old(Abstract(now)), env)
    {
      Configure(env, now);
      SendHttpRequest(false, env, now);
    }

    method ResumeDownload(env: Env, now: int)
      requires Valid()
      modifies this, taskThread, httpAgent
      ensures Valid() && Abstract(now) == Resume(old(Abstract(now)), env)
    {
      if status.total != 0 && status.transferred == status.total {
        taskThread.PushFront(AlreadyDone, DOWNLOAD_TAG, now);
      } else {
        if allowMcc {
          mccHost := env.mccHost;
        }
        SendHttpRequest(false, env, now);
      }
    }

    method PauseDownload(now: int)
      modifies this, httpAgent
      ensures Abstract(now) == CloseRequest(old(Abstract(now)))
    {
      httpAgent.Close();
      httpRequestActive := false;
    }

    method CancelQueuedTasks(now: int)
      requires Valid()
      modifies taskThread
      ensures Valid() && Abstract(now) == CancelTasks(old(Abstract(now)))
    {
      taskThread.Remove(DOWNLOAD_TAG);
      taskThread.Remove(TRACKER_TAG);
    }

    method FinalizeDownload(now: int)
      requires Valid()
      modifies this, taskThread, httpAgent
      ensures Valid() && Abstract(now) == CancelTasks(CloseRequest(old(Abstract(now))))
    {
      httpAgent.Close();
      httpRequestActive := false;
      CancelQueuedTasks(now);
    }

    method AbortDownload(now: int)
      requires Valid()
      modifies taskThread, httpAgent, file
      ensures Valid() && Abstract(now) == CancelTasks(old(Abstract(now)).(agent := Idle, file := ""))
    {
      httpAgent.Close();
      CancelQueuedTasks(now);
      file.Truncate();
    }

    method EnterTransferring(now: int)
      modifies this`status
      ensures Abstract(now) == ToTransferring(old(Abstract(now)))
    {
      status := status.(state := Transferring, error := Ok, extended := Ok);
    }

    method EnterPaused(error: HResult, extended: HResult, now: int)
      modifies this`status
      ensures Abstract(now) == ToPaused(old(Abstract(now)), error, extended)
    {
      status := status.(state := Paused, error := error, extended := extended);
    }

    /** Enters a state that leaves the errors as they are. */
    method Enter(state: DownloadState, now: int)
      modifies this`status
      ensures Abstract(now) == SetState(old(Abstract(now)), state, old(status.error), old(status.extended))
    {
      status := status.(state := state);
    }

    method Abandon(now: int)
      requires Valid()
      modifies this, taskThread, httpAgent, file
      ensures Valid() && Abstract(now) == AbortTransfer(old(Abstract(now)))
    {
      AbortDownload(now);
      Enter(Aborted, now);
    }

    /** A state change asked for by a caller; false when the current state, or the file, does not permit it. */
    method PerformStateChange(op: Operation, env: Env, now: int) returns (accepted: bool)
      requires Valid() && op != GetStatus
      modifies this, taskThread, httpAgent, file
      ensures Valid() && Abstract(now) == Perform(old(Abstract(now)), op, env)
      ensures accepted == Accepts(old(status.state), op, env.canOpen)
    {
      accepted := true;
      match status.state {
        case Created =>
          match op {
            case Start =>
              accepted := env.canOpen;
              if accepted {
                BeginDownload(env, now);
                EnterTransferring(now);
              }
            case Finalize => accepted := false;
            case Abort =>
              Abandon(now);
            case _ =>
          }
        case Transferring =>
          match op {
            case Pause =>
              PauseDownload(now);
              EnterPaused(Ok, Ok, now);
            case Finalize => accepted := false;
            case Abort =>
              Abandon(now);
            case _ =>
          }
        case Transferred =>
          match op {
            case Finalize =>
              FinalizeDownload(now);
              Enter(Finalized, now);
            case Abort =>
              Abandon(now);
            case _ =>
          }
        case Paused =>
          match op {
            case Start =>
              accepted := env.canOpen;
              if accepted {
                ResumeDownload(env, now);
                EnterTransferring(now);
              }
            case Finalize => accepted := false;
            case Abort =>
              Abandon(now);
            case _ =>
          }
        case Finalized => accepted := op == Finalize;
        case Aborted => accepted := op == Abort;
      }
    }

    // -------------------------------------------------------------------------
    // Tasks
    // -------------------------------------------------------------------------

    method HandleTransientError(now: int)
      requires Valid()
      modifies this, taskThread
      ensures Valid() && Abstract(now) == EnterTransientError(old(Abstract(now)))
    {
      EnterPaused(Ok, NoNetwork, now);
      taskThread.Add(TransientRetry, TRANSIENT_RETRY_DELAY, DOWNLOAD_TAG, now);
    }

    method ResumeAfterTransientError(env: Env, now: int)
      requires Valid()
      modifies this, taskThread, httpAgent
      ensures Valid()
      ensures Abstract(now) == if old(status).IsTransientError()
                               then ToTransferring(SendRequest(old(Abstract(now)), env, false)) else old(Abstract(now))
    {
      if status.IsTransientError() {
        SendHttpRequest(false, env, now);
        EnterTransferring(now);
      }
    }

    method ShouldPauseMccUsage(clientError: bool, now: int) returns (pauseMcc: bool)
      ensures pauseMcc == ShouldPauseMcc(Abstract(now).dl, clientError, now)
    {
      pauseMcc := false;
      if connectionType == MCC {
        if clientError {
          pauseMcc := true;
        } else if mccFallbackDue != Unset {
          pauseMcc := FallbackDue(mccFallbackDue, now);
        } else {
          pauseMcc := !originalHostAttempted;
        }
      }
    }

    method ShouldFailFast(f: Failure, now: int) returns (fatal: bool)
      ensures fatal == IsFatal(Abstract(now).dl, f)
    {
      var failFast := if connectionType == MCC then mccFallbackDue == Never else true;
      fatal := f.callback != Ok || (IsClientError(f.httpStatus) && failFast)
        || f.request == OutOfMemory || f.request == InvalidUrl
        || f.request == InsufficientRangeSupport || f.request == WriteError;
    }

    /** Doubles the delay, or does without one, and schedules a retry. */
    method RetryLater(f: Failure, error: HResult, now: int)
      requires Valid() && error == ErrorOf(f)
      modifies this, progressTracker, taskThread
      ensures Valid() && Abstract(now) == ScheduleRetry(old(Abstract(now)), f)
    {
      status := status.(error := error);
      progressTracker.OnDownloadFailure();
      var retryDelay := progressTracker.nextRetryDelay;
      var pauseMcc := ShouldPauseMccUsage(IsClientError(f.httpStatus), now);
      if pauseMcc {
        retryDelay := 0;
        progressTracker.ResetRetryDelay();
      }
      taskThread.Add(Retry, retryDelay, DOWNLOAD_TAG, now);
    }

    method RunFailed(f: Failure, env: Env, now: int)
      requires Valid()
      modifies this, progressTracker, taskThread, httpAgent
      ensures Valid() && Abstract(now) == OnFailed(old(Abstract(now)), f, env)
    {
      httpRequestActive := false;
      if !env.network {
        HandleTransientError(now);
        return;
      }
      var error := if f.callback != Ok then f.callback else f.request;
      var fatal := ShouldFailFast(f, now);
      if fatal {
        PauseDownload(now);
        EnterPaused(error, Ok, now);
      } else {
        RetryLater(f, error, now);
      }
    }

    method RunCheck(now: int)
      requires Valid()
      modifies this, progressTracker, taskThread, httpAgent
      ensures Valid() && Abstract(now) == OnCheck(old(Abstract(now)))
    {
      if status.state == Transferring {
        var timedOut := progressTracker.CheckProgress(status.transferred, maxNoProgressIntervals);
        checks := checks + [status.transferred];
        if timedOut {
          PauseDownload(now);
          EnterPaused(NoProgress, status.error, now);
        } else {
          SchedProgressTracking(now);
        }
      }
    }

    method RunCall(op: Operation, ticket: nat, env: Env, now: int)
      requires Valid()
      modifies this, taskThread, httpAgent, file
      ensures Valid() && Abstract(now) == OnCall(old(Abstract(now)), op, ticket, env)
    {
      var accepted := true;
      if op != GetStatus {
        accepted := PerformStateChange(op, env, now);
      }
      replies := replies[ticket := Reply(accepted, status)];
    }

    method RunTask(task: Task, env: Env, now: int)
      requires Valid()
      modifies this, progressTracker, taskThread, httpAgent, file
      ensures Valid() && Abstract(now) == Execute(old(Abstract(now)), task, env)
    {
      match task
      case Headers(total) => status := status.(total := total);
      case Data(count) => status := status.(transferred := status.transferred + count);
      case Done =>
        httpRequestActive := false;
        Enter(Transferred, now);
      case Failed(f) => RunFailed(f, env, now);
      case Retry =>
        if status.state == Transferring && !httpRequestActive {
          SendHttpRequest(true, env, now);
        }
      case TransientRetry =>
        if env.network {
          ResumeAfterTransientError(env, now);
        } else {
          HandleTransientError(now);
        }
      case AlreadyDone => Enter(Transferred, now);
      case Check => RunCheck(now);
      case Call(op, ticket) => RunCall(op, ticket, env, now);
    }

    // -------------------------------------------------------------------------
    // The three parties
    // -------------------------------------------------------------------------

    /** The task thread's poll: runs the first task if it is due. */
    method Poll(env: Env, now: int) returns (ran: bool)
      requires Valid()
      modifies this, progressTracker, taskThread, httpAgent, file
      ensures Valid() && ran == Enabled(old(Abstract(now)), RunNext(env))
      ensures ran ==> Abstract(now) == Next(old(Abstract(now)), RunNext(env))
      ensures !ran ==> Abstract(now) == old(Abstract(now))
    {
      ran := false;
      ghost var before := taskThread.ops;
      var next := taskThread.PopNextReady(now);
      if next.Some? {
        assert before[0] == next.value && before[1..] == taskThread.ops;
        RunTask(next.value.task, env, now);
        ran := true;
      }
    }

    /** A caller's thread queues its operation and waits for the answer to the ticket. */
    method SchedBlock(op: Operation, now: int) returns (ticket: nat)
      requires Valid()
      modifies this, taskThread
      ensures Valid() && ticket == old(tickets)
      ensures Abstract(now) == Next(old(Abstract(now)), Submit(op))
    {
      ticket := tickets;
      if op == GetStatus {
        taskThread.Add(Call(op, ticket), 0, NULL_TAG, now);
      } else {
        taskThread.PushFront(Call(op, ticket), NULL_TAG, now);
      }
      tickets := tickets + 1;
    }

    method OnHeadersAvailable(total: nat, now: int)
      requires Valid() && Enabled(Abstract(now), Respond(total))
      modifies taskThread, httpAgent
      ensures Valid() && Abstract(now) == Next(old(Abstract(now)), Respond(total))
    {
      httpAgent.request := httpAgent.request.(headersSeen := true);
      taskThread.Add(Headers(total), 0, DOWNLOAD_TAG, now);
    }

    method OnData(bytes: string, now: int)
      requires Valid() && Enabled(Abstract(now), Deliver(bytes))
      modifies taskThread, httpAgent, file
      ensures Valid() && Abstract(now) == Next(old(Abstract(now)), Deliver(bytes))
    {
      httpAgent.request := httpAgent.request.(delivered := httpAgent.request.delivered + |bytes|);
      file.Append(bytes);
      taskThread.Add(Data(|bytes|), 0, DOWNLOAD_TAG, now);
    }

    method OnComplete(f: Failure, now: int)
      requires Valid() && httpAgent.request.Busy?
      modifies taskThread, httpAgent
      ensures Valid()
      ensures Abstract(now) == Next(old(Abstract(now)), if f.request == Ok then Finish else Fail(f))
    {
      httpAgent.request := Idle;
      if f.request == Ok {
        taskThread.Add(Done, 0, DOWNLOAD_TAG, now);
      } else {
        taskThread.Add(Failed(f), 0, DOWNLOAD_TAG, now);
      }
    }
  }
}
