/** Which cache servers are banned, and that the table of bans agrees with the history of reports. */
module MccManagers {
  import opened Sequences
  import opened TaskQueues
  import opened Text
  import opened Uri
  import Engine

  /** Fifteen minutes, in the nanoseconds of the steady clock. */
  const BAN_INTERVAL := 15 * 60 * 1_000_000_000

  datatype OriginalHostStatus = OriginalHostStatus(host: string, timeOfUnban: int)

  /** None stands for the smallest time point: never banned. */
  datatype MccHost = MccHost(address: string, timeOfUnban: Option<int>, originalHosts: seq<OriginalHostStatus>)

  /** The failures of a request that matter here. */
  datatype Failure = Timeout | NameNotResolved | CannotConnect | OtherFailure

  datatype Report = Report(time: int, failure: Failure, httpStatusCode: nat, mccHost: string, originalHost: string)

  predicate IsUnresponsive(failure: Failure) {
    failure == Timeout || failure == NameNotResolved || failure == CannotConnect
  }

  // ---------------------------------------------------------------------------
  // What the history says
  // ---------------------------------------------------------------------------

  /** A report that bans a cache server for one original host. */
  predicate BansForHost(r: Report, mccHost: string, originalHost: string) {
    r.mccHost == mccHost && r.originalHost == originalHost && 400 <= r.httpStatusCode < 500
  }

  /** A report that bans a cache server for every original host. */
  predicate BansForAll(r: Report, mccHost: string) {
    && r.mccHost == mccHost && !(400 <= r.httpStatusCode < 500)
    && (r.failure == Timeout || r.failure == NameNotResolved || r.failure == CannotConnect)
  }

  predicate Monotone(history: seq<Report>) {
    forall i, j :: 0 <= i < j < |history| ==> history[i].time <= history[j].time
  }

  /** Some report of the last fifteen minutes, in nanoseconds, bans it. */
  ghost predicate BannedByHistory(history: seq<Report>, mccHost: string, originalHost: string, now: int) {
    exists i :: && 0 <= i < |history| && now < history[i].time + 900_000_000_000
                && (BansForHost(history[i], mccHost, originalHost) || BansForAll(history[i], mccHost))
  }

  // ---------------------------------------------------------------------------
  // The table
  // ---------------------------------------------------------------------------

  function AddressOf(entry: MccHost): string {
    entry.address
  }

  function HostOf(status: OriginalHostStatus): string {
    status.host
  }

  /** The index of the entry for a cache server, or the length of the table. */
  function Find(table: seq<MccHost>, address: string): nat {
    IndexOf(table, AddressOf, address)
  }

  function FindHost(hosts: seq<OriginalHostStatus>, host: string): nat {
    IndexOf(hosts, HostOf, host)
  }

  function BanForOriginalHost(hosts: seq<OriginalHostStatus>, host: string, until: int): seq<OriginalHostStatus> {
    var k := FindHost(hosts, host);
    if k == |hosts| then hosts + [OriginalHostStatus(host, until)] else hosts[k := hosts[k].(timeOfUnban := until)]
  }

  predicate IsFatal(r: Report) {
    Engine.IsClientError(r.httpStatusCode) || IsUnresponsive(r.failure)
  }

  /** The entry a report writes. */
  function EntryAfter(table: seq<MccHost>, r: Report): MccHost {
    var k := Find(table, r.mccHost);
    var entry := if k == |table| then MccHost(r.mccHost, None, []) else table[k];
    var until := r.time + BAN_INTERVAL;
    if Engine.IsClientError(r.httpStatusCode)
    then entry.(originalHosts := BanForOriginalHost(entry.originalHosts, r.originalHost, until))
    else entry.(timeOfUnban := Some(until))
  }

  /** The table after a report. */
  function AfterReport(table: seq<MccHost>, r: Report): seq<MccHost> {
    var k := Find(table, r.mccHost);
    if !IsFatal(r) then table
    else if k == |table| then table + [EntryAfter(table, r)]
    else table[k := EntryAfter(table, r)]
  }

  function Replay(history: seq<Report>): seq<MccHost> {
    if history == [] then [] else AfterReport(Replay(history[..|history| - 1]), history[|history| - 1])
  }

  predicate Banned(table: seq<MccHost>, mccHost: string, originalHost: string, now: int) {
    var k := Find(table, mccHost);
    k < |table| &&
      var entry := table[k]; var j := FindHost(entry.originalHosts, originalHost);
      || (entry.timeOfUnban.Some? && now < entry.timeOfUnban.value)
      || (j < |entry.originalHosts| && now < entry.originalHosts[j].timeOfUnban)
  }

  predicate Unique(table: seq<MccHost>) {
    && (forall i, j :: 0 <= i < j < |table| ==> table[i].address != table[j].address)
    && (forall i :: 0 <= i < |table| ==> UniqueHosts(table[i].originalHosts))
  }

  predicate UniqueHosts(hosts: seq<OriginalHostStatus>) {
    forall i, j :: 0 <= i < j < |hosts| ==> hosts[i].host != hosts[j].host
  }

  class MCCManager {
    var mccHosts: seq<MccHost>

    constructor ()
      ensures mccHosts == Replay([])
    {
      mccHosts := [];
    }

    /** False stands for the exception about a URL that is none. */
    method ReportHostError(failure: Failure, httpStatusCode: nat, mccHost: string, originalUrl: string, now: int, stray: int)
      returns (ok: bool)
      modifies this
      ensures ok == FromString(originalUrl, stray).Some?
      ensures mccHosts == if !ok then old(mccHosts)
                          else AfterReport(old(mccHosts), Report(now, failure, httpStatusCode, mccHost,
                                                                 FromString(originalUrl, stray).value.host))
    {
      var uri := FromString(originalUrl, stray);
      if uri.None? {
        return false;
      }
      Record(Report(now, failure, httpStatusCode, mccHost, uri.value.host));
      ok := true;
    }

    method Record(r: Report)
      modifies this
      ensures mccHosts == AfterReport(old(mccHosts), r)
    {
      var perHostFatalError := Engine.IsClientError(r.httpStatusCode);
      var generalFatalError := r.failure == Timeout || r.failure == NameNotResolved || r.failure == CannotConnect;
      if perHostFatalError || generalFatalError {
        var it := FindEntry(r.mccHost);
        if it == |mccHosts| {
          mccHosts := mccHosts + [MccHost(r.mccHost, None, [])];
        }
        var entry := mccHosts[it];
        if perHostFatalError {
          entry := entry.(originalHosts := BanForOriginalHost(entry.originalHosts, r.originalHost, r.time + BAN_INTERVAL));
        } else {
          entry := entry.(timeOfUnban := Some(r.time + BAN_INTERVAL));
        }
        mccHosts := mccHosts[it := entry];
      }
    }

    method FindEntry(address: string) returns (it: nat)
      ensures it == Find(mccHosts, address)
    {
      it := 0;
      while it < |mccHosts| && mccHosts[it].address != address
        invariant it <= |mccHosts|
        invariant forall i :: 0 <= i < it ==> mccHosts[i].address != address
      {
        it := it + 1;
      }
      IndexIs(mccHosts, AddressOf, address, it);
    }

    method IsBanned(mccHost: string, originalUrl: string, now: int, stray: int) returns (r: Option<bool>)
      ensures r == if Find(mccHosts, mccHost) == |mccHosts| then Some(false)
                   else if FromString(originalUrl, stray).None? then None
                   else Some(Banned(mccHosts, mccHost, FromString(originalUrl, stray).value.host, now))
    {
      var it := FindEntry(mccHost);
      if it == |mccHosts| {
        return Some(false);
      }
      var uri := FromString(originalUrl, stray);
      if uri.None? {
        return None;
      }
      var entry := mccHosts[it];
      var isBanned := entry.timeOfUnban.Some? && now < entry.timeOfUnban.value;
      if !isBanned {
        var j := FindHost(entry.originalHosts, uri.value.host);
        if j < |entry.originalHosts| {
          isBanned := now < entry.originalHosts[j].timeOfUnban;
        }
      }
      r := Some(isBanned);
    }
  }

  // ---------------------------------------------------------------------------
  // The table agrees with the history
  // ---------------------------------------------------------------------------

  /** Until when a cache server is banned for all hosts. */
  function AllUntil(table: seq<MccHost>, mccHost: string): Option<int> {
    var k := Find(table, mccHost);
    if k < |table| then table[k].timeOfUnban else None
  }

  function HostUntil(hosts: seq<OriginalHostStatus>, host: string): Option<int> {
    var j := FindHost(hosts, host);
    if j < |hosts| then Some(hosts[j].timeOfUnban) else None
  }

  /** Until when a cache server is banned for one host. */
  function OneUntil(table: seq<MccHost>, mccHost: string, originalHost: string): Option<int> {
    var k := Find(table, mccHost);
    if k < |table| then HostUntil(table[k].originalHosts, originalHost) else None
  }

  lemma BannedUntil(table: seq<MccHost>, mccHost: string, originalHost: string, now: int)
    ensures Banned(table, mccHost, originalHost, now)
       <==> || (AllUntil(table, mccHost).Some? && now < AllUntil(table, mccHost).value)
            || (OneUntil(table, mccHost, originalHost).Some? && now < OneUntil(table, mccHost, originalHost).value)
  {
  }

  lemma HostBanIsFound(hosts: seq<OriginalHostStatus>, host: string, until: int, other: string)
    ensures HostUntil(BanForOriginalHost(hosts, host, until), other) == if other == host then Some(until) else HostUntil(hosts, other)
    ensures UniqueHosts(hosts) ==> UniqueHosts(BanForOriginalHost(hosts, host, until))
  {
    var after := BanForOriginalHost(hosts, host, until);
    var j := FindHost(hosts, other);
    if j == |hosts| && other != host {
      IndexIs(after, HostOf, other, |after|);
    } else {
      IndexIs(after, HostOf, other, j);
    }
  }

  /** Where an entry is found after another one was changed or added. */
  lemma EntryIsFound(table: seq<MccHost>, entry: MccHost, other: string)
    ensures var k := Find(table, entry.address);
            var after := if k == |table| then table + [entry] else table[k := entry];
            var j := Find(after, other);
            && (other == entry.address ==> j == k && after[j] == entry)
            && (other != entry.address && Find(table, other) < |table| ==> j == Find(table, other) && after[j] == table[j])
            && (other != entry.address && Find(table, other) == |table| ==> j == |after|)
  {
    var k := Find(table, entry.address);
    var after := if k == |table| then table + [entry] else table[k := entry];
    var j := Find(table, other);
    if other != entry.address && j == |table| {
      IndexIs(after, AddressOf, other, |after|);
    } else {
      IndexIs(after, AddressOf, other, j);
    }
  }

  /** What a report changes, and what it does not. */
  lemma ReportChanges(table: seq<MccHost>, r: Report, mccHost: string, originalHost: string)
    ensures AllUntil(AfterReport(table, r), mccHost)
         == if BansForAll(r, mccHost) then Some(r.time + BAN_INTERVAL) else AllUntil(table, mccHost)
    ensures OneUntil(AfterReport(table, r), mccHost, originalHost)
         == if BansForHost(r, mccHost, originalHost) then Some(r.time + BAN_INTERVAL)
            else OneUntil(table, mccHost, originalHost)
  {
    if IsFatal(r) {
      EntryIsFound(table, EntryAfter(table, r), mccHost);
      HostBanIsFound(HostsBefore(table, r.mccHost), r.originalHost, r.time + BAN_INTERVAL, originalHost);
    }
  }

  function HostsBefore(table: seq<MccHost>, mccHost: string): seq<OriginalHostStatus> {
    var k := Find(table, mccHost);
    if k == |table| then [] else table[k].originalHosts
  }

  /** Entries stay unique. */
  lemma ReportKeepsUnique(table: seq<MccHost>, r: Report)
    requires Unique(table)
    ensures Unique(AfterReport(table, r))
  {
    HostBanIsFound(HostsBefore(table, r.mccHost), r.originalHost, r.time + BAN_INTERVAL, "");
    assert UniqueHosts(HostsBefore(table, r.mccHost));
    UniqueUpdate(table, EntryAfter(table, r));
  }

  lemma UniqueUpdate(table: seq<MccHost>, entry: MccHost)
    requires Unique(table) && UniqueHosts(entry.originalHosts)
    ensures var k := Find(table, entry.address); Unique(if k == |table| then table + [entry] else table[k := entry])
  {
  }

  lemma {:induction false} TableIsUnique(history: seq<Report>)
    ensures Unique(Replay(history))
  {
    if history != [] {
      TableIsUnique(history[..|history| - 1]);
      ReportKeepsUnique(Replay(history[..|history| - 1]), history[|history| - 1]);
    }
  }

  ghost predicate SomeAll(history: seq<Report>, mccHost: string, now: int) {
    exists i :: 0 <= i < |history| && BansForAll(history[i], mccHost) && now < history[i].time + BAN_INTERVAL
  }

  ghost predicate SomeOne(history: seq<Report>, mccHost: string, originalHost: string, now: int) {
    exists i :: 0 <= i < |history| && BansForHost(history[i], mccHost, originalHost) && now < history[i].time + BAN_INTERVAL
  }

  /** With a clock that does not run backwards the last ban is the one that lasts longest. */
  lemma {:induction false} UntilIsLast(history: seq<Report>, mccHost: string, originalHost: string, now: int)
    requires Monotone(history)
    ensures var until := AllUntil(Replay(history), mccHost); SomeAll(history, mccHost, now) <==> until.Some? && now < until.value
    ensures var until := OneUntil(Replay(history), mccHost, originalHost);
            SomeOne(history, mccHost, originalHost, now) <==> until.Some? && now < until.value
  {
    if history == [] {
      assert Find(Replay(history), mccHost) == 0;
    } else {
      var front := history[..|history| - 1];
      var last := history[|history| - 1];
      UntilIsLast(front, mccHost, originalHost, now);
      ReportChanges(Replay(front), last, mccHost, originalHost);
      AllGrows(history, mccHost, now);
      OneGrows(history, mccHost, originalHost, now);
    }
  }

  lemma AllGrows(history: seq<Report>, mccHost: string, now: int)
    requires history != [] && Monotone(history)
    ensures var last := history[|history| - 1];
            SomeAll(history, mccHost, now) <==> if BansForAll(last, mccHost) then now < last.time + BAN_INTERVAL
                                                else SomeAll(history[..|history| - 1], mccHost, now)
  {
    var n := |history| - 1;
    if SomeAll(history[..n], mccHost, now) {
      var i :| 0 <= i < n && BansForAll(history[..n][i], mccHost) && now < history[..n][i].time + BAN_INTERVAL;
      assert BansForAll(history[i], mccHost);
    }
    if SomeAll(history, mccHost, now) && !BansForAll(history[n], mccHost) {
      var i :| 0 <= i < |history| && BansForAll(history[i], mccHost) && now < history[i].time + BAN_INTERVAL;
      assert BansForAll(history[..n][i], mccHost);
    }
  }

  lemma OneGrows(history: seq<Report>, mccHost: string, originalHost: string, now: int)
    requires history != [] && Monotone(history)
    ensures SomeOne(history, mccHost, originalHost, now) <==>
            if BansForHost(history[|history| - 1], mccHost, originalHost) then now < history[|history| - 1].time + BAN_INTERVAL
            else SomeOne(history[..|history| - 1], mccHost, originalHost, now)
  {
    var n := |history| - 1;
    if SomeOne(history[..n], mccHost, originalHost, now) {
      var i :| 0 <= i < n && BansForHost(history[..n][i], mccHost, originalHost) && now < history[..n][i].time + BAN_INTERVAL;
      assert BansForHost(history[i], mccHost, originalHost);
    }
    if SomeOne(history, mccHost, originalHost, now) && !BansForHost(history[n], mccHost, originalHost) {
      var i :| 0 <= i < |history| && BansForHost(history[i], mccHost, originalHost) && now < history[i].time + BAN_INTERVAL;
      assert BansForHost(history[..n][i], mccHost, originalHost);
    }
  }

  /** A cache server is banned exactly when a report of the last fifteen minutes banned it, for this host or for all. */
  lemma BannedExactlyByHistory(history: seq<Report>, mccHost: string, originalHost: string, now: int)
    requires Monotone(history)
    ensures Banned(Replay(history), mccHost, originalHost, now) <==> BannedByHistory(history, mccHost, originalHost, now)
  {
    UntilIsLast(history, mccHost, originalHost, now);
    BannedUntil(Replay(history), mccHost, originalHost, now);
    assert BannedByHistory(history, mccHost, originalHost, now)
      <==> SomeAll(history, mccHost, now) || SomeOne(history, mccHost, originalHost, now);
  }
}
