/** Handing transfers to the worker thread and taking them back, in every interleaving. */
module CurlWrappers {
  import opened Sequences
  import opened TaskQueues

  type Handle = nat
  type Caller = nat

  /** A transfer as it was added; the ticket tells one adding of a handle from another. */
  datatype HandleData = HandleData(handle: Handle, ticket: nat)

  /**
   * The shared state. Every transfer that became active has an event that says it no longer is; inactive holds the
   * tickets whose event is set, called the tickets whose callback was invoked, in order.
   */
  datatype Shared = Shared(
    toAdd: seq<HandleData>, toRemove: seq<Handle>, active: seq<HandleData>,
    activated: set<nat>, inactive: set<nat>, called: seq<nat>,
    nextTicket: nat, keepRunning: bool)

  const INITIAL := Shared([], [], [], {}, {}, [], 0, true)

  // ---------------------------------------------------------------------------
  // Finding and erasing
  // ---------------------------------------------------------------------------

  predicate Holds(s: seq<HandleData>, h: Handle) {
    exists i :: 0 <= i < |s| && s[i].handle == h
  }

  /** The index of the first transfer of a handle, or the length. */
  function Find(s: seq<HandleData>, h: Handle): (k: nat)
    ensures k <= |s| && (k < |s| <==> Holds(s, h)) && (k < |s| ==> s[k].handle == h)
    ensures forall i :: 0 <= i < k ==> s[i].handle != h
  {
    if s == [] || s[0].handle == h then 0
    else
      assert Holds(s, h) ==> Holds(s[1..], h);
      assert Holds(s[1..], h) ==> Holds(s, h) by {
        if Holds(s[1..], h) {
          var i :| 0 <= i < |s| - 1 && s[1..][i].handle == h;
          assert s[i + 1].handle == h;
        }
      }
      1 + Find(s[1..], h)
  }

  function EraseAt(s: seq<HandleData>, k: nat): seq<HandleData>
    requires k < |s|
  {
    s[..k] + s[k + 1..]
  }

  function EraseHandle(s: seq<HandleData>, h: Handle): seq<HandleData> {
    if s == [] then [] else (if s[0].handle == h then [] else [s[0]]) + EraseHandle(s[1..], h)
  }

  // ---------------------------------------------------------------------------
  // The steps, each under the lock
  // ---------------------------------------------------------------------------

  function AddStep(w: Shared, h: Handle): Shared {
    if !w.keepRunning || Holds(w.toAdd, h) then w
    else w.(toAdd := w.toAdd + [HandleData(h, w.nextTicket)], nextTicket := w.nextTicket + 1)
  }

  function RemoveStep(w: Shared, h: Handle): Shared {
    var u := w.(toAdd := EraseHandle(w.toAdd, h));
    if Holds(w.active, h) && h !in w.toRemove then u.(toRemove := u.toRemove + [h]) else u
  }

  /** The ticket whose event a caller of Remove waits for. */
  function WaitsFor(w: Shared, h: Handle): Option<nat> {
    if Holds(w.active, h) then Some(w.active[Find(w.active, h)].ticket) else None
  }

  function Activate(w: Shared, d: HandleData): (u: Shared)
    ensures u == w.(active := u.active, activated := u.activated)
  {
    if Holds(w.active, d.handle) then w
    else w.(active := w.active + [d], activated := w.activated + {d.ticket})
  }

  function Deactivate(w: Shared, h: Handle): (u: Shared)
    ensures u == w.(active := u.active, inactive := u.inactive)
  {
    var k := Find(w.active, h);
    if k == |w.active| then w
    else w.(active := EraseAt(w.active, k), inactive := w.inactive + {w.active[k].ticket})
  }

  function ActivateAll(w: Shared, ds: seq<HandleData>): (u: Shared)
    ensures u == w.(active := u.active, activated := u.activated)
  {
    if ds == [] then w else Activate(ActivateAll(w, ds[..|ds| - 1]), ds[|ds| - 1])
  }

  function DeactivateAll(w: Shared, hs: seq<Handle>): (u: Shared)
    ensures u == w.(active := u.active, inactive := u.inactive)
  {
    if hs == [] then w else Deactivate(DeactivateAll(w, hs[..|hs| - 1]), hs[|hs| - 1])
  }

  /** One turn of the worker: what was queued is added, then what was queued is removed. */
  function Drain(w: Shared): Shared {
    DeactivateAll(ActivateAll(w, w.toAdd).(toAdd := []), w.toRemove).(toRemove := [])
  }

  /** The transfer library reports that an active handle is done. */
  function CompleteStep(w: Shared, h: Handle): Shared
    requires Holds(w.active, h)
  {
    Deactivate(w.(called := w.called + [w.active[Find(w.active, h)].ticket]), h)
  }

  /** The end: the worker has stopped, and everything is dropped. */
  function Shutdown(w: Shared): Shared {
    w.(inactive := w.inactive + Tickets(w.active), active := [], toAdd := [], toRemove := [])
  }

  function Tickets(s: seq<HandleData>): set<nat> {
    set i | 0 <= i < |s| :: s[i].ticket
  }

  /** Join is the end of the destructor that Stop begins; in between the worker may still report completions. */
  datatype Event = Add(h: Handle) | Remove(h: Handle) | Work | Done(h: Handle) | Stop | Join

  predicate Enabled(w: Shared, e: Event) {
    match e
    case Work => w.keepRunning
    case Done(h) => Holds(w.active, h)
    case Join => !w.keepRunning
    case _ => true
  }

  function Next(w: Shared, e: Event): Shared
    requires Enabled(w, e)
  {
    match e
    case Add(h) => AddStep(w, h)
    case Remove(h) => RemoveStep(w, h)
    case Work => Drain(w)
    case Done(h) => CompleteStep(w, h)
    case Stop => w.(keepRunning := false)
    case Join => Shutdown(w)
  }

  ghost predicate RunsTo(w: Shared, events: seq<Event>, last: Shared)
    decreases |events|
  {
    if events == [] then w == last
    else Enabled(w, events[0]) && RunsTo(Next(w, events[0]), events[1..], last)
  }

  // ---------------------------------------------------------------------------
  // What every step keeps
  // ---------------------------------------------------------------------------

  predicate Distinct(s: seq<HandleData>) {
    forall i, j :: 0 <= i < j < |s| ==> s[i].handle != s[j].handle && s[i].ticket != s[j].ticket
  }

  predicate DistinctTickets(s: seq<nat>) {
    forall i, j :: 0 <= i < j < |s| ==> s[i] != s[j]
  }

  /**
   * Active handles are distinct. A transfer's event is set exactly when it has been active and no longer is. A callback
   * was invoked at most once, and only for a transfer that has left the active ones since.
   */
  ghost predicate Core(w: Shared) {
    && Distinct(w.active)
    && (forall t :: t in w.activated ==> t < w.nextTicket)
    && Tickets(w.active) <= w.activated
    && w.inactive == w.activated - Tickets(w.active)
    && DistinctTickets(w.called) && (forall t :: t in w.called ==> t in w.inactive)
  }

  /** Transfers that were added and have not been active yet. */
  ghost predicate Fresh(ds: seq<HandleData>, w: Shared) {
    Distinct(ds) && forall d :: d in ds ==> d.ticket < w.nextTicket && d.ticket !in w.activated
  }

  ghost predicate Safe(w: Shared) {
    Core(w) && Fresh(w.toAdd, w)
  }

  lemma {:induction false} EraseHandleKeeps(s: seq<HandleData>, h: Handle)
    ensures forall d :: d in EraseHandle(s, h) <==> d in s && d.handle != h
    ensures Distinct(s) ==> Distinct(EraseHandle(s, h))
  {
    if s != [] {
      EraseHandleKeeps(s[1..], h);
      if Distinct(s) {
        assert Distinct(s[1..]);
        assert forall d :: d in s[1..] ==> d.handle != s[0].handle && d.ticket != s[0].ticket;
      }
    }
  }

  lemma TicketIn(s: seq<HandleData>, d: HandleData)
    requires d in s
    ensures d.ticket in Tickets(s)
  {
    var i :| 0 <= i < |s| && s[i] == d;
    assert s[i].ticket in Tickets(s);
  }

  lemma HoldsIn(s: seq<HandleData>, h: Handle)
    ensures Holds(s, h) <==> exists d :: d in s && d.handle == h
  {
    if Holds(s, h) {
      var i :| 0 <= i < |s| && s[i].handle == h;
      assert s[i] in s;
    }
  }

  lemma TicketsAppend(s: seq<HandleData>, d: HandleData)
    ensures Tickets(s + [d]) == Tickets(s) + {d.ticket}
  {
    forall t | t in Tickets(s) + {d.ticket} ensures t in Tickets(s + [d]) {
      if t == d.ticket {
        assert (s + [d])[|s|].ticket == t;
      } else {
        var i :| 0 <= i < |s| && s[i].ticket == t;
        assert (s + [d])[i].ticket == t;
      }
    }
  }

  lemma EraseAtKeeps(s: seq<HandleData>, k: nat)
    requires k < |s| && Distinct(s)
    ensures Distinct(EraseAt(s, k))
    ensures Tickets(EraseAt(s, k)) == Tickets(s) - {s[k].ticket}
    ensures forall d :: d in EraseAt(s, k) <==> d in s && d != s[k]
    ensures !Holds(EraseAt(s, k), s[k].handle)
  {
    var r := EraseAt(s, k);
    assert forall i :: 0 <= i < |r| ==> r[i] == if i < k then s[i] else s[i + 1];
    forall t | t in Tickets(s) - {s[k].ticket} ensures t in Tickets(r) {
      var i :| 0 <= i < |s| && s[i].ticket == t;
      assert r[if i < k then i else i - 1].ticket == t;
    }
    forall d | d in s && d != s[k] ensures d in r {
      var i :| 0 <= i < |s| && s[i] == d;
      assert r[if i < k then i else i - 1] == d;
    }
  }

  lemma ActivateKeeps(w: Shared, d: HandleData)
    requires Core(w) && d.ticket < w.nextTicket && d.ticket !in w.activated
    ensures Core(Activate(w, d))
  {
    if !Holds(w.active, d.handle) {
      TicketsAppend(w.active, d);
      forall i | 0 <= i < |w.active| ensures w.active[i].handle != d.handle && w.active[i].ticket != d.ticket {
        assert w.active[i].ticket in Tickets(w.active);
      }
    }
  }

  lemma DeactivateKeeps(w: Shared, h: Handle)
    requires Core(w)
    ensures Core(Deactivate(w, h)) && !Holds(Deactivate(w, h).active, h)
    ensures w.inactive <= Deactivate(w, h).inactive
    ensures forall d :: d in Deactivate(w, h).active ==> d in w.active
  {
    var k := Find(w.active, h);
    if k < |w.active| {
      EraseAtKeeps(w.active, k);
      assert w.active[k].ticket in Tickets(w.active);
    }
  }

  lemma CompleteKeeps(w: Shared, h: Handle)
    requires Core(w) && Holds(w.active, h)
    ensures Core(CompleteStep(w, h))
  {
    var k := Find(w.active, h);
    EraseAtKeeps(w.active, k);
    assert w.active[k].ticket in Tickets(w.active);
  }

  lemma {:induction false} ActivateAllKeeps(w: Shared, ds: seq<HandleData>)
    requires Core(w) && Fresh(ds, w)
    ensures Core(ActivateAll(w, ds))
    ensures ActivateAll(w, ds).activated <= w.activated + Tickets(ds)
  {
    if ds != [] {
      var n := |ds| - 1;
      ActivateAllKeeps(w, ds[..n]);
      assert ds == ds[..n] + [ds[n]];
      TicketsAppend(ds[..n], ds[n]);
      assert forall i :: 0 <= i < n ==> ds[..n][i].ticket != ds[n].ticket;
      ActivateKeeps(ActivateAll(w, ds[..n]), ds[n]);
    }
  }

  lemma {:induction false} DeactivateAllKeeps(w: Shared, hs: seq<Handle>)
    requires Core(w)
    ensures Core(DeactivateAll(w, hs))
    ensures forall h :: h in hs ==> !Holds(DeactivateAll(w, hs).active, h)
    ensures w.inactive <= DeactivateAll(w, hs).inactive
    ensures forall d :: d in DeactivateAll(w, hs).active ==> d in w.active
  {
    if hs != [] {
      var n := |hs| - 1;
      DeactivateAllKeeps(w, hs[..n]);
      var u := DeactivateAll(w, hs[..n]);
      DeactivateKeeps(u, hs[n]);
      forall h | h in hs ensures !Holds(Deactivate(u, hs[n]).active, h) {
        HoldsIn(u.active, h);
        HoldsIn(Deactivate(u, hs[n]).active, h);
        assert h == hs[n] || h in hs[..n];
      }
    }
  }

  lemma DrainKeeps(w: Shared)
    requires Safe(w)
    ensures Safe(Drain(w))
  {
    ActivateAllKeeps(w, w.toAdd);
    DeactivateAllKeeps(ActivateAll(w, w.toAdd).(toAdd := []), w.toRemove);
  }

  /** Every step keeps the handshake safe. */
  lemma StepKeepsSafe(w: Shared, e: Event)
    requires Safe(w) && Enabled(w, e)
    ensures Safe(Next(w, e))
  {
    match e
    case Add(h) => AddKeeps(w, h);
    case Remove(h) => EraseHandleKeeps(w.toAdd, h);
    case Work => DrainKeeps(w);
    case Done(h) => CompleteKeeps(w, h);
    case Stop =>
    case Join =>
  }

  lemma AddKeeps(w: Shared, h: Handle)
    requires Safe(w)
    ensures Safe(AddStep(w, h))
  {
    var d := HandleData(h, w.nextTicket);
    if w.keepRunning && !Holds(w.toAdd, h) {
      forall i | 0 <= i < |w.toAdd| ensures w.toAdd[i].handle != h && w.toAdd[i].ticket != d.ticket {
        assert w.toAdd[i] in w.toAdd;
      }
    }
  }

  lemma {:induction false} RunsKeepSafe(w: Shared, events: seq<Event>, last: Shared)
    requires Safe(w) && RunsTo(w, events, last)
    ensures Safe(last)
    decreases |events|
  {
    if events != [] {
      StepKeepsSafe(w, events[0]);
      RunsKeepSafe(Next(w, events[0]), events[1..], last);
    }
  }

  /** Some run from the start, in whatever interleaving, ends in w. */
  ghost predicate Reachable(w: Shared) {
    exists events :: RunsTo(INITIAL, events, w)
  }

  lemma InitialIsSafe()
    ensures Safe(INITIAL)
  {
  }

  /** In every reachable state the handshake is safe. */
  lemma ReachableIsSafe(w: Shared)
    requires Reachable(w)
    ensures Safe(w)
  {
    InitialIsSafe();
    var events :| RunsTo(INITIAL, events, w);
    RunsKeepSafe(INITIAL, events, w);
  }

  /**
   * In every reachable state no handle is active twice, an event is set exactly for the transfers that were active and no
   * longer are, and a callback was invoked at most once for each, and only for those.
   */
  lemma EventsAndCallbacks(w: Shared)
    requires Reachable(w)
    ensures forall i, j :: 0 <= i < j < |w.active| ==> w.active[i].handle != w.active[j].handle
    ensures forall t :: t in w.inactive <==> t in w.activated && t !in Tickets(w.active)
    ensures DistinctTickets(w.called) && forall t :: t in w.called ==> t in w.inactive
  {
    ReachableIsSafe(w);
  }

  /** A callback is invoked only by a completion, and for the transfer that is active then and leaves with it. */
  lemma CallbackWhileActive(w: Shared, e: Event)
    requires Safe(w) && Enabled(w, e)
    ensures Next(w, e).called != w.called ==>
              e.Done? && exists d :: && d in w.active && d.handle == e.h && d !in Next(w, e).active
                                     && Next(w, e).called == w.called + [d.ticket] && d.ticket !in w.called
  {
    match e
    case Add(h) =>
    case Remove(h) =>
    case Work =>
      ActivateAllKeeps(w, w.toAdd);
      DeactivateAllKeeps(ActivateAll(w, w.toAdd).(toAdd := []), w.toRemove);
    case Done(h) =>
      var k := Find(w.active, h);
      var d := w.active[k];
      EraseAtKeeps(w.active, k);
      TicketIn(w.active, d);
      assert d in w.active;
    case Stop =>
    case Join =>
  }

  lemma InactiveStays(w: Shared, e: Event)
    requires Safe(w) && Enabled(w, e)
    ensures w.inactive <= Next(w, e).inactive
  {
    match e
    case Work =>
      ActivateAllKeeps(w, w.toAdd);
      DeactivateAllKeeps(ActivateAll(w, w.toAdd).(toAdd := []), w.toRemove);
    case _ =>
  }

  lemma {:induction false} CallbacksAreOver(w: Shared, events: seq<Event>, last: Shared, ticket: nat)
    requires Safe(w) && RunsTo(w, events, last) && ticket in w.inactive
    ensures ticket in last.inactive && (ticket in last.called <==> ticket in w.called)
    decreases |events|
  {
    if events != [] {
      var next := Next(w, events[0]);
      StepKeepsSafe(w, events[0]);
      InactiveStays(w, events[0]);
      NoLateCallback(w, events[0], ticket);
      CallbacksAreOver(next, events[1..], last, ticket);
    }
  }

  /** Once the event of a transfer is set, its callback has been invoked or never will be. */
  lemma NoCallbackAfterwards(w: Shared, events: seq<Event>, last: Shared, ticket: nat)
    requires Reachable(w) && RunsTo(w, events, last) && ticket in w.inactive
    ensures ticket in last.inactive && (ticket in last.called <==> ticket in w.called)
  {
    ReachableIsSafe(w);
    CallbacksAreOver(w, events, last, ticket);
  }

  lemma NoLateCallback(w: Shared, e: Event, ticket: nat)
    requires Safe(w) && Enabled(w, e) && ticket in w.inactive
    ensures ticket in Next(w, e).called <==> ticket in w.called
  {
    CallbackWhileActive(w, e);
    forall d | d in w.active ensures d.ticket != ticket {
      TicketIn(w.active, d);
    }
  }

  // ---------------------------------------------------------------------------
  // Which callbacks there are
  // ---------------------------------------------------------------------------

  lemma FindsIt(s: seq<HandleData>, d: HandleData)
    requires Distinct(s) && d in s
    ensures Holds(s, d.handle) && s[Find(s, d.handle)] == d
  {
    var i :| 0 <= i < |s| && s[i] == d;
    assert s[i].handle == d.handle;
    assert Holds(s, d.handle);
    var k := Find(s, d.handle);
    assert s[k].handle == s[i].handle;
  }

  lemma DoneCalls(w: Shared, d: HandleData)
    requires Distinct(w.active) && d in w.active
    ensures Enabled(w, Done(d.handle)) && Next(w, Done(d.handle)).called == w.called + [d.ticket]
  {
    FindsIt(w.active, d);
  }

  /** Every completion of an active transfer is reported, at once and to nobody else. */
  lemma CompletionIsReported(w: Shared, d: HandleData)
    requires Reachable(w) && d in w.active
    ensures Enabled(w, Done(d.handle)) && Next(w, Done(d.handle)).called == w.called + [d.ticket]
  {
    ReachableIsSafe(w);
    DoneCalls(w, d);
  }

  /** Nothing else calls back: transfers that are removed or dropped leave without a callback. */
  lemma OthersCallNobody(w: Shared, e: Event)
    requires Enabled(w, e) && !e.Done?
    ensures Next(w, e).called == w.called
  {
  }

  /** In the run some completion finds the transfer with the ticket active. */
  ghost predicate Completes(w: Shared, events: seq<Event>, ticket: nat)
    decreases |events|
  {
    && events != [] && Enabled(w, events[0])
    && ((events[0].Done? && HandleData(events[0].h, ticket) in w.active) || Completes(Next(w, events[0]), events[1..], ticket))
  }

  lemma StepCalls(w: Shared, e: Event, ticket: nat)
    requires Safe(w) && Enabled(w, e)
    ensures ticket in Next(w, e).called <==> ticket in w.called || (e.Done? && HandleData(e.h, ticket) in w.active)
  {
    if e.Done? {
      var d := w.active[Find(w.active, e.h)];
      DoneCalls(w, d);
      if HandleData(e.h, ticket) in w.active {
        FindsIt(w.active, HandleData(e.h, ticket));
      }
    }
  }

  lemma {:induction false} CallsFollow(w: Shared, events: seq<Event>, last: Shared, ticket: nat)
    requires Safe(w) && RunsTo(w, events, last)
    ensures ticket in last.called <==> ticket in w.called || Completes(w, events, ticket)
    decreases |events|
  {
    if events != [] {
      StepKeepsSafe(w, events[0]);
      StepCalls(w, events[0], ticket);
      CallsFollow(Next(w, events[0]), events[1..], last, ticket);
    }
  }

  /** Over every run a transfer's callback is invoked if and only if it completes while it is active. */
  lemma CalledExactlyWhenCompleted(w: Shared, events: seq<Event>, last: Shared, ticket: nat)
    requires Reachable(w) && RunsTo(w, events, last)
    ensures ticket in last.called <==> ticket in w.called || Completes(w, events, ticket)
  {
    ReachableIsSafe(w);
    CallsFollow(w, events, last, ticket);
  }

  // ---------------------------------------------------------------------------
  // Taking a transfer back
  // ---------------------------------------------------------------------------

  /** Since its removal a handle was not added again: it is not queued, and active at most as what is waited for. */
  ghost predicate Quiet(w: Shared, h: Handle, waits: Option<nat>) {
    && (forall d :: d in w.toAdd ==> d.handle != h)
    && (forall d :: d in w.active && d.handle == h ==> waits == Some(d.ticket))
  }

  /** The removal that is waited for is either done or still queued. */
  ghost predicate Pending(w: Shared, h: Handle, ticket: nat) {
    ticket in w.inactive || (HandleData(h, ticket) in w.active && h in w.toRemove)
  }

  lemma RemovalBegins(w: Shared, h: Handle)
    requires Safe(w)
    ensures var u := RemoveStep(w, h); var waits := WaitsFor(w, h);
            Quiet(u, h, waits) && (waits.Some? ==> Pending(u, h, waits.value))
  {
    EraseHandleKeeps(w.toAdd, h);
    HoldsIn(w.active, h);
    if Holds(w.active, h) {
      var k := Find(w.active, h);
      assert w.active[k] == HandleData(h, w.active[k].ticket);
    }
  }

  lemma {:induction false} ActivateAllQuiet(w: Shared, ds: seq<HandleData>, h: Handle)
    requires forall d :: d in ds ==> d.handle != h
    ensures forall d :: d in ActivateAll(w, ds).active && d.handle == h ==> d in w.active
    ensures forall d :: d in w.active ==> d in ActivateAll(w, ds).active
  {
    if ds != [] {
      ActivateAllQuiet(w, ds[..|ds| - 1], h);
    }
  }

  lemma QuietSteps(w: Shared, e: Event, h: Handle, waits: Option<nat>)
    requires Safe(w) && Enabled(w, e) && e != Add(h) && Quiet(w, h, waits)
    ensures Quiet(Next(w, e), h, waits)
  {
    match e
    case Add(_) =>
    case Remove(g) => EraseHandleKeeps(w.toAdd, g);
    case Work =>
      ActivateAllKeeps(w, w.toAdd);
      ActivateAllQuiet(w, w.toAdd, h);
      DeactivateAllKeeps(ActivateAll(w, w.toAdd).(toAdd := []), w.toRemove);
    case Done(g) => EraseAtKeeps(w.active, Find(w.active, g));
    case Stop =>
    case Join =>
  }

  /** Leaving the active ones sets the event. */
  lemma LeavingIsSignalled(w: Shared, d: HandleData)
    requires Core(w) && d.ticket in w.activated && (forall a :: a in w.active && a.ticket == d.ticket ==> a == d) && d !in w.active
    ensures d.ticket in w.inactive
  {
    forall i | 0 <= i < |w.active| ensures w.active[i].ticket != d.ticket {
      assert w.active[i] in w.active;
    }
  }

  lemma {:induction false} ActivateAllFresh(w: Shared, ds: seq<HandleData>, d: HandleData)
    requires Core(w) && Fresh(ds, w) && d in w.active
    ensures d in ActivateAll(w, ds).active
  {
    if ds != [] {
      assert Fresh(ds[..|ds| - 1], w);
      ActivateAllFresh(w, ds[..|ds| - 1], d);
    }
  }

  /** One turn of the worker ends every wait. */
  lemma TurnEndsTheWait(w: Shared, h: Handle, ticket: nat)
    requires Safe(w) && Pending(w, h, ticket)
    ensures ticket in Drain(w).inactive
  {
    var a := ActivateAll(w, w.toAdd);
    var d := HandleData(h, ticket);
    ActivateAllKeeps(w, w.toAdd);
    var u := a.(toAdd := []);
    DeactivateAllKeeps(u, w.toRemove);
    var v := DeactivateAll(u, w.toRemove);
    if ticket !in w.inactive {
      TicketIn(w.active, d);
      ActivateAllFresh(w, w.toAdd, d);
      TicketIn(u.active, d);
      HoldsIn(v.active, h);
      OneTicketOneTransfer(u.active, d);
      LeavingIsSignalled(v, d);
    }
  }

  lemma OneTicketOneTransfer(s: seq<HandleData>, d: HandleData)
    requires Distinct(s) && d in s
    ensures forall a :: a in s && a.ticket == d.ticket ==> a == d
  {
  }

  lemma DoneKeepsPending(w: Shared, g: Handle, h: Handle, ticket: nat)
    requires Safe(w) && Holds(w.active, g) && Pending(w, h, ticket)
    ensures Pending(CompleteStep(w, g), h, ticket)
  {
    var k := Find(w.active, g);
    EraseAtKeeps(w.active, k);
  }

  lemma JoinEndsTheWait(w: Shared, h: Handle, ticket: nat)
    requires Pending(w, h, ticket)
    ensures ticket in Shutdown(w).inactive
  {
    if ticket !in w.inactive {
      TicketIn(w.active, HandleData(h, ticket));
    }
  }

  lemma PendingSteps(w: Shared, e: Event, h: Handle, ticket: nat)
    requires Safe(w) && Enabled(w, e) && Pending(w, h, ticket)
    ensures Pending(Next(w, e), h, ticket)
  {
    match e
    case Add(_) =>
    case Remove(g) =>
    case Work => TurnEndsTheWait(w, h, ticket);
    case Done(g) => DoneKeepsPending(w, g, h, ticket);
    case Stop =>
    case Join => JoinEndsTheWait(w, h, ticket);
  }

  lemma {:induction false} QuietRuns(w: Shared, events: seq<Event>, last: Shared, h: Handle, waits: Option<nat>)
    requires Safe(w) && RunsTo(w, events, last) && Quiet(w, h, waits) && (waits.Some? ==> Pending(w, h, waits.value))
    requires forall i :: 0 <= i < |events| ==> events[i] != Add(h)
    ensures Safe(last) && Quiet(last, h, waits) && (waits.Some? ==> Pending(last, h, waits.value))
    decreases |events|
  {
    if events != [] {
      StepKeepsSafe(w, events[0]);
      QuietSteps(w, events[0], h, waits);
      if waits.Some? {
        PendingSteps(w, events[0], h, waits.value);
      }
      QuietRuns(Next(w, events[0]), events[1..], last, h, waits);
    }
  }

  /**
   * Whatever happens between: once Remove returns because the event it waits for is set, or because there was nothing
   * to wait for, and the handle was not added again, the handle is neither queued nor active. While the event is not
   * set, the next turn of the worker sets it, and so does the end of the destructor.
   */
  lemma RemoveIsComplete(w: Shared, h: Handle, events: seq<Event>, last: Shared)
    requires Reachable(w) && RunsTo(RemoveStep(w, h), events, last)
    requires forall i :: 0 <= i < |events| ==> events[i] != Add(h)
    ensures var waits := WaitsFor(w, h);
            && (waits == None || waits.value in last.inactive ==> !Holds(last.toAdd, h) && !Holds(last.active, h))
            && (waits.Some? ==> waits.value in Drain(last).inactive && waits.value in Shutdown(last).inactive)
  {
    var waits := WaitsFor(w, h);
    ReachableIsSafe(w);
    StepKeepsSafe(w, Remove(h));
    RemovalBegins(w, h);
    QuietRuns(RemoveStep(w, h), events, last, h, waits);
    HoldsIn(last.toAdd, h);
    HoldsIn(last.active, h);
    forall d | d in last.active ensures d.ticket !in last.inactive {
      TicketIn(last.active, d);
    }
    if waits.Some? {
      TurnEndsTheWait(last, h, waits.value);
      JoinEndsTheWait(last, h, waits.value);
    }
  }

  // ---------------------------------------------------------------------------
  // What a turn of the worker does, and what is not promised
  // ---------------------------------------------------------------------------

  lemma {:induction false} ActivateAllHolds(w: Shared, ds: seq<HandleData>, h: Handle)
    ensures Holds(ActivateAll(w, ds).active, h) <==> Holds(w.active, h) || Holds(ds, h)
  {
    if ds != [] {
      var n := |ds| - 1;
      ActivateAllHolds(w, ds[..n], h);
      AppendHolds(ds[..n], ds[n], h);
      assert ds == ds[..n] + [ds[n]];
      AppendHolds(ActivateAll(w, ds[..n]).active, ds[n], h);
    }
  }

  lemma AppendHolds(s: seq<HandleData>, d: HandleData, h: Handle)
    ensures Holds(s + [d], h) <==> Holds(s, h) || d.handle == h
  {
    HoldsIn(s, h);
    HoldsIn(s + [d], h);
  }

  lemma {:induction false} DeactivateAllExactly(w: Shared, hs: seq<Handle>)
    requires Core(w)
    ensures forall d :: d in DeactivateAll(w, hs).active <==> d in w.active && d.handle !in hs
  {
    if hs != [] {
      var n := |hs| - 1;
      DeactivateAllExactly(w, hs[..n]);
      DeactivateAllKeeps(w, hs[..n]);
      var u := DeactivateAll(w, hs[..n]);
      DeactivateExactly(u, hs[n]);
      assert forall h :: h in hs <==> h in hs[..n] || h == hs[n];
    }
  }

  lemma DeactivateExactly(w: Shared, h: Handle)
    requires Core(w)
    ensures forall d :: d in Deactivate(w, h).active <==> d in w.active && d.handle != h
  {
    var k := Find(w.active, h);
    HoldsIn(w.active, h);
    if k < |w.active| {
      EraseAtKeeps(w.active, k);
    }
  }

  /** A transfer that was added becomes active with the next turn exactly if its handle is not, and no removal is queued. */
  lemma AddedBecomesActive(w: Shared, d: HandleData)
    requires Reachable(w) && d in w.toAdd
    ensures d in Drain(w).active <==> !Holds(w.active, d.handle) && d.handle !in w.toRemove
  {
    ReachableIsSafe(w);
    TurnExactly(w, d);
    HoldsIn(w.active, d.handle);
    if d in w.active {
      TicketIn(w.active, d);
    }
  }

  lemma {:induction false} ActivateAllExactly(w: Shared, ds: seq<HandleData>, d: HandleData)
    requires Core(w) && Fresh(ds, w)
    ensures d in ActivateAll(w, ds).active <==> d in w.active || (d in ds && !Holds(w.active, d.handle))
  {
    if ds != [] {
      var n := |ds| - 1;
      ActivateAllExactly(w, ds[..n], d);
      ActivateAllHolds(w, ds[..n], ds[n].handle);
      assert d in ds <==> d in ds[..n] || d == ds[n];
      assert d == ds[n] ==> !Holds(ds[..n], d.handle);
    }
  }

  /**
   * Which transfers are active after a turn of the worker: those that were, and those added whose handle was not active,
   * but for the handles whose removal was queued.
   */
  lemma TurnExactly(w: Shared, d: HandleData)
    requires Reachable(w)
    ensures d in Drain(w).active <==> d.handle !in w.toRemove
                                      && (d in w.active || (d in w.toAdd && forall a :: a in w.active ==> a.handle != d.handle))
    ensures Drain(w).toAdd == [] && Drain(w).toRemove == [] && Drain(w).called == w.called
  {
    ReachableIsSafe(w);
    HoldsIn(w.active, d.handle);
    ActivateAllKeeps(w, w.toAdd);
    ActivateAllExactly(w, w.toAdd, d);
    DeactivateAllExactly(ActivateAll(w, w.toAdd).(toAdd := []), w.toRemove);
  }

  lemma OneIsActivated(w: Shared, d: HandleData)
    requires w.toAdd == [d] && w.active == []
    ensures ActivateAll(w, w.toAdd) == w.(active := [d], activated := w.activated + {d.ticket})
  {
    assert [d][..0] == [];
    assert ActivateAll(w, []) == w;
  }

  lemma OneIsRemoved(w: Shared, d: HandleData)
    requires w.toRemove == [d.handle] && w.active == [d]
    ensures DeactivateAll(w, w.toRemove) == w.(active := [], inactive := w.inactive + {d.ticket})
  {
    assert [d.handle][..0] == [];
    assert DeactivateAll(w, []) == w;
    assert [d][0].handle == d.handle;
    assert EraseAt([d], 0) == [];
  }

  lemma {:induction false} RunsConcat(w: Shared, first: seq<Event>, middle: Shared, second: seq<Event>, last: Shared)
    requires RunsTo(w, first, middle) && RunsTo(middle, second, last)
    ensures RunsTo(w, first + second, last)
    decreases |first|
  {
    if first == [] {
      assert first + second == second;
    } else {
      assert (first + second)[1..] == first[1..] + second;
      RunsConcat(Next(w, first[0]), first[1..], middle, second, last);
    }
  }

  lemma OneStep(w: Shared, e: Event)
    requires Enabled(w, e)
    ensures RunsTo(w, [e], Next(w, e))
  {
    assert [e][1..] == [];
  }

  /** The state with one active transfer, the first ever added. */
  function OneActive(h: Handle): Shared {
    INITIAL.(active := [HandleData(h, 0)], activated := {0}, nextTicket := 1)
  }

  lemma OneBecomesActive(h: Handle)
    ensures RunsTo(INITIAL, [Add(h), Work], OneActive(h))
  {
    var w := OneQueued(h);
    OneIsQueued(h);
    OneIsDrained(h);
    OneStep(INITIAL, Add(h));
    OneStep(w, Work);
    RunsConcat(INITIAL, [Add(h)], w, [Work], OneActive(h));
    assert [Add(h)] + [Work] == [Add(h), Work];
  }

  function OneQueued(h: Handle): Shared {
    INITIAL.(toAdd := [HandleData(h, 0)], nextTicket := 1)
  }

  lemma OneIsQueued(h: Handle)
    ensures AddStep(INITIAL, h) == OneQueued(h)
  {
  }

  lemma OneIsDrained(h: Handle)
    ensures Drain(OneQueued(h)) == OneActive(h)
  {
    OneIsActivated(OneQueued(h), HandleData(h, 0));
  }

  /** Its removal begins, and then it completes. */
  function RemovedLate(h: Handle): Shared {
    INITIAL.(toRemove := [h], activated := {0}, inactive := {0}, called := [0], nextTicket := 1)
  }

  lemma OneCompletes(h: Handle)
    ensures RunsTo(OneActive(h), [Remove(h), Done(h)], RemovedLate(h))
  {
    var w := OneActive(h).(toRemove := [h]);
    assert w.active[0].handle == h;
    assert EraseAt(w.active, 0) == [];
    assert Next(OneActive(h), Remove(h)) == w;
    assert Next(w, Done(h)) == RemovedLate(h);
    OneStep(OneActive(h), Remove(h));
    OneStep(w, Done(h));
    RunsConcat(OneActive(h), [Remove(h)], w, [Done(h)], RemovedLate(h));
    assert [Remove(h)] + [Done(h)] == [Remove(h), Done(h)];
  }

  /** A transfer is added, becomes active, and its removal begins; then it completes, and its handle is added again. */
  lemma LateRemovalBegins(h: Handle) returns (w: Shared)
    ensures RunsTo(INITIAL, [Add(h), Work] + [Remove(h), Done(h)] + [Add(h)], w)
    ensures w == RemovedLate(h).(toAdd := [HandleData(h, 1)], nextTicket := 2)
  {
    w := Next(RemovedLate(h), Add(h));
    OneBecomesActive(h);
    OneCompletes(h);
    OneStep(RemovedLate(h), Add(h));
    RunsConcat(INITIAL, [Add(h), Work], OneActive(h), [Remove(h), Done(h)], RemovedLate(h));
    RunsConcat(INITIAL, [Add(h), Work] + [Remove(h), Done(h)], RemovedLate(h), [Add(h)], w);
  }

  /** The removal of a transfer that completed first strips the next transfer of its handle: no callback will come. */
  lemma LateRemovalStripsNextAdd(h: Handle) returns (w: Shared)
    ensures RunsTo(INITIAL, [Add(h), Work] + [Remove(h), Done(h)] + [Add(h)], w) && HandleData(h, 1) in w.toAdd
    ensures var last := Drain(w);
            last.active == [] && last.toAdd == [] && 1 in last.inactive && last.called == [0]
  {
    w := LateRemovalBegins(h);
    var b := HandleData(h, 1);
    OneIsActivated(w, b);
    OneIsRemoved(ActivateAll(w, w.toAdd).(toAdd := []), b);
  }

  // ---------------------------------------------------------------------------
  // The object
  // ---------------------------------------------------------------------------

  class CurlRequests {
    var handlesToAdd: seq<HandleData>
    var handlesToRemove: seq<Handle>
    var handles: seq<HandleData>
    /** The tickets of the transfers whose event was made, and of those whose event is set. */
    var events: set<nat>
    var signalled: set<nat>
    var callbacks: seq<nat>
    var added: nat
    var keepRunning: bool

    function State(): Shared
      reads this
    {
      Shared(handlesToAdd, handlesToRemove, handles, events, signalled, callbacks, added, keepRunning)
    }

    constructor ()
      ensures State() == INITIAL
    {
      handlesToAdd, handlesToRemove, handles := [], [], [];
      events, signalled, callbacks, added := {}, {}, [], 0;
      keepRunning := true;
    }

    method FindIn(s: seq<HandleData>, h: Handle) returns (k: nat)
      ensures k == Find(s, h)
    {
      k := 0;
      while k < |s| && s[k].handle != h
        invariant k <= |s|
        invariant forall i :: 0 <= i < k ==> s[i].handle != h
      {
        k := k + 1;
      }
      FindAt(s, h, k);
    }

    /** False stands for an exception: the worker was stopped, or the handle is queued already. */
    method Add(h: Handle) returns (ok: bool)
      modifies this
      ensures State() == AddStep(old(State()), h)
      ensures ok == (old(keepRunning) && !Holds(old(handlesToAdd), h))
    {
      if !keepRunning {
        return false;
      }
      var itAdd := FindIn(handlesToAdd, h);
      if itAdd != |handlesToAdd| {
        return false;
      }
      handlesToAdd := handlesToAdd + [HandleData(h, added)];
      added := added + 1;
      ok := true;
    }

    method Erased(s: seq<HandleData>, h: Handle) returns (kept: seq<HandleData>)
      ensures kept == EraseHandle(s, h)
    {
      kept := [];
      var i := 0;
      assert s[0..] == s;
      while i < |s|
        invariant i <= |s|
        invariant kept + EraseHandle(s[i..], h) == EraseHandle(s, h)
      {
        EraseStep(s, i, h);
        if s[i].handle != h {
          Associates(kept, [s[i]], EraseHandle(s[i + 1..], h));
          kept := kept + [s[i]];
        }
        i := i + 1;
      }
      assert s[i..] == [] && kept + [] == kept;
    }

    /** What Remove does under the lock; outside it waits for the event of the ticket returned. */
    method RemoveUnderLock(h: Handle) returns (waits: Option<nat>)
      modifies this
      ensures State() == RemoveStep(old(State()), h) && waits == WaitsFor(old(State()), h)
    {
      handlesToAdd := Erased(handlesToAdd, h);
      var existing := FindIn(handles, h);
      if existing == |handles| {
        return None;
      }
      waits := Some(handles[existing].ticket);
      if h !in handlesToRemove {
        handlesToRemove := handlesToRemove + [h];
      }
    }

    method ActivateOne(d: HandleData)
      modifies this`handles, this`events
      ensures State() == Activate(old(State()), d)
    {
      var it := FindIn(handles, d.handle);
      if it == |handles| {
        events := events + {d.ticket};
        handles := handles + [d];
      }
    }

    method DeactivateOne(h: Handle)
      modifies this`handles, this`signalled
      ensures State() == Deactivate(old(State()), h)
    {
      var it := FindIn(handles, h);
      if it != |handles| {
        signalled := signalled + {handles[it].ticket};
        handles := handles[..it] + handles[it + 1..];
      }
    }

    /** One turn of the worker under the lock. */
    method Turn()
      modifies this
      ensures State() == Drain(old(State()))
    {
      var i := 0;
      assert handlesToAdd[..0] == [];
      while i < |handlesToAdd|
        invariant i <= |handlesToAdd| && handlesToAdd == old(handlesToAdd)
        invariant State() == ActivateAll(old(State()), handlesToAdd[..i])
      {
        assert handlesToAdd[..i + 1][..i] == handlesToAdd[..i];
        ActivateOne(handlesToAdd[i]);
        i := i + 1;
      }
      assert handlesToAdd[..i] == handlesToAdd;
      handlesToAdd := [];
      ghost var between := State();
      assert handlesToRemove[..0] == [];
      i := 0;
      while i < |handlesToRemove|
        invariant i <= |handlesToRemove| && handlesToRemove == between.toRemove
        invariant State() == DeactivateAll(between, handlesToRemove[..i])
      {
        assert handlesToRemove[..i + 1][..i] == handlesToRemove[..i];
        DeactivateOne(handlesToRemove[i]);
        i := i + 1;
      }
      assert handlesToRemove[..i] == handlesToRemove;
      handlesToRemove := [];
    }

    /** An active handle is done: its callback is invoked, then it leaves. */
    method CompleteOne(h: Handle)
      requires Holds(handles, h)
      modifies this
      ensures State() == CompleteStep(old(State()), h)
    {
      var it := FindIn(handles, h);
      callbacks := callbacks + [handles[it].ticket];
      signalled := signalled + {handles[it].ticket};
      handles := handles[..it] + handles[it + 1..];
    }

    /** The end of the destructor. */
    method RemoveAll()
      modifies this
      ensures State() == Shutdown(old(State()))
    {
      var i := 0;
      while i < |handles|
        invariant i <= |handles|
        invariant State() == old(State()).(inactive := old(signalled) + Tickets(handles[..i]))
      {
        assert handles[..i + 1] == handles[..i] + [handles[i]];
        TicketsAppend(handles[..i], handles[i]);
        signalled := signalled + {handles[i].ticket};
        i := i + 1;
      }
      assert handles[..i] == handles;
      handles, handlesToAdd, handlesToRemove := [], [], [];
    }
  }

  lemma EraseStep(s: seq<HandleData>, i: nat, h: Handle)
    requires i < |s|
    ensures EraseHandle(s[i..], h) == if s[i].handle == h then EraseHandle(s[i + 1..], h)
                                      else [s[i]] + EraseHandle(s[i + 1..], h)
  {
    assert s[i..][1..] == s[i + 1..];
  }

  lemma {:induction false} FindAt(s: seq<HandleData>, h: Handle, k: nat)
    requires k <= |s| && (k < |s| ==> s[k].handle == h)
    requires forall i :: 0 <= i < k ==> s[i].handle != h
    ensures Find(s, h) == k
  {
    if k > 0 {
      FindAt(s[1..], h, k - 1);
    }
  }
}
