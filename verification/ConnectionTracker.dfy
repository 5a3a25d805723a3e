/** Recognising closed connections from successive snapshots, and the bounded history of them. */
module ConnectionTracker {
  import opened Prelude
  import opened Settings

  /** A connection as the proxy reports it; absent text fields read as empty, absent counters as zero. */
  datatype Conn = Conn(
    id: Option<string>, sourceIp: string, destIp: string, destPort: string, host: string, chains: seq<string>,
    upload: nat, download: nat)

  /** What is remembered of an active connection. */
  datatype Meta = Meta(
    id: string, sourceIp: string, destination: string, chains: seq<string>, upload: nat, download: nat)

  /** The reported list; `None` when the answer has no list of connections. */
  type Snapshot = Option<seq<Conn>>

  /** What a query of the proxy yields: nothing, when it fails, or an answer. */
  datatype Reply = NoReply | Reply(snapshot: Snapshot)

  function Destination(c: Conn): string {
    if c.destIp != "" then c.destIp + ":" + c.destPort else c.host
  }

  function MetaOf(c: Conn, id: string): Meta {
    Meta(id, c.sourceIp, Destination(c), c.chains, c.upload, c.download)
  }

  function ClosedOf(m: Meta, now: nat): ClosedConnection {
    ClosedConnection(m.id, m.sourceIp, m.destination, m.chains, m.upload, m.download, now)
  }

  /** The ids of a snapshot; entries without an id do not count. */
  function Ids(s: Snapshot): set<string> {
    if s.None? then {} else set i | 0 <= i < |s.value| && s.value[i].id.Some? :: s.value[i].id.value
  }

  /** What is remembered after a list was read: the last entry with an id wins. */
  function MetasOf(conns: seq<Conn>): map<string, Meta> {
    if conns == [] then map[]
    else
      var c := conns[|conns| - 1];
      var before := MetasOf(conns[..|conns| - 1]);
      if c.id.Some? then before[c.id.value := MetaOf(c, c.id.value)] else before
  }

  function Metas(s: Snapshot): map<string, Meta> {
    if s.None? then map[] else MetasOf(s.value)
  }

  /** The first reported connection with that id. */
  function Find(conns: seq<Conn>, id: string): Option<Conn> {
    if conns == [] then None
    else if conns[0].id == Some(id) then Some(conns[0])
    else Find(conns[1..], id)
  }

  function FindIn(s: Snapshot, id: string): Option<Conn> {
    if s.None? then None else Find(s.value, id)
  }

  /** `order` lists the elements of `ids`, each once; the iteration order of a hash set is not determined. */
  ghost predicate Enumerates(order: seq<string>, ids: set<string>) {
    && (forall x :: x in order <==> x in ids)
    && (forall i, j :: 0 <= i < j < |order| ==> order[i] != order[j])
  }

  /** The records of the ids in `order`, with the last remembered values. */
  function Records(active: map<string, Meta>, order: seq<string>, now: nat): (r: seq<ClosedConnection>)
    requires forall x :: x in order ==> x in active
    ensures |r| == |order|
  {
    seq(|order|, i requires 0 <= i < |order| => ClosedOf(active[order[i]], now))
  }

  // ----- The bounded history -----

  function Take<T>(s: seq<T>, n: nat): seq<T> {
    if n <= |s| then s[..n] else s
  }

  /** The stored history after one more record: newest first, cut to `max`. */
  function Recorded(history: seq<ClosedConnection>, c: ClosedConnection, max: nat): seq<ClosedConnection> {
    Take([c] + history, max)
  }

  /** The stored history after several records. */
  function RecordedAll(
    history: seq<ClosedConnection>, records: seq<ClosedConnection>, max: nat): seq<ClosedConnection> {
    if records == [] then history
    else Recorded(RecordedAll(history, records[..|records| - 1], max), records[|records| - 1], max)
  }

  class Tracker {
    const settings: SettingsStore
    var active: map<string, Meta>
    var history: seq<ClosedConnection>
    ghost var log: seq<ClosedConnection>  // every record ever made, oldest first

    constructor (settings: SettingsStore)
      ensures this.settings == settings && active == map[] && history == [] && log == []
    {
      this.settings := settings;
      active, history, log := map[], [], [];
    }

    /** Every remembered connection is stored under its own id. */
    ghost predicate Valid()
      reads this
    {
      forall x :: x in active ==> active[x].id == x
    }

    /** One more record in front, cut to the maximum that settings.yaml gives at that moment. */
    method RecordClosedConnection(closed: ClosedConnection)
      modifies this
      ensures active == old(active) && log == old(log) + [closed]
      ensures history == Recorded(old(history), closed, settings.HistoryMaximum())
    {
      var maxCount := settings.HistoryMaximum();
      var connections := history;
      connections := [closed] + connections;
      if |connections| > maxCount {
        connections := connections[..maxCount];
      }
      history := connections;
      log := log + [closed];
    }

    method ClearHistory()
      modifies this
      ensures history == [] && active == old(active) && log == old(log)
    {
      history := [];
    }

    /** Compare a snapshot with what was active: record what is gone, remember what is there. */
    method TrackConnections(snapshot: Snapshot, now: nat) returns (ghost order: seq<string>)
      requires Valid()
      modifies this
      ensures Valid() && active == Metas(snapshot)
      ensures Enumerates(order, old(active).Keys - Ids(snapshot))
      ensures log == old(log) + Records(old(active), order, now)
      ensures history == RecordedAll(old(history), Records(old(active), order, now), settings.HistoryMaximum())
    {
      ghost var before := active;
      order := RecordGone(active.Keys - Ids(snapshot), now);
      if snapshot.Some? {
        Remember(snapshot.value);
      }
      MetasKeys(snapshot);
      assert (before - (before.Keys - Ids(snapshot))).Keys <= Ids(snapshot);
      assert active == Metas(snapshot);
    }

    /** Forget the connections in `closed` and record each of them, in some order. */
    method RecordGone(closed: set<string>, now: nat) returns (ghost order: seq<string>)
      requires closed <= active.Keys
      modifies this
      ensures active == old(active) - closed && Enumerates(order, closed)
      ensures log == old(log) + Records(old(active), order, now)
      ensures history == RecordedAll(old(history), Records(old(active), order, now), settings.HistoryMaximum())
    {
      var pending := closed;
      ghost var done: set<string> := {};
      ghost var before, oldHistory, max := active, history, settings.HistoryMaximum();
      ghost var oldLog, records: seq<ClosedConnection> := log, [];
      order := [];
      while pending != {}
        invariant done + pending == closed && done !! pending
        invariant active == before - done && Enumerates(order, done)
        invariant records == Records(before, order, now)
        invariant log == oldLog + records && history == RecordedAll(oldHistory, records, max)
        decreases |pending|
      {
        var id :| id in pending;
        pending := pending - {id};
        ForgetOne(id, now);
        GoneNext(before, done, order, id, now, oldLog, oldHistory, max);
        records := Records(before, order + [id], now);
        done := done + {id};
        order := order + [id];
      }
      assert done == closed;
    }

    /** Forget one connection and record it with its last remembered values. */
    method ForgetOne(id: string, now: nat)
      requires id in active
      modifies this
      ensures active == old(active) - {id}
      ensures log == old(log) + [ClosedOf(old(active)[id], now)]
      ensures history == Recorded(old(history), ClosedOf(old(active)[id], now), settings.HistoryMaximum())
    {
      var meta := active[id];
      active := active - {id};
      RecordClosedConnection(ClosedOf(meta, now));
    }

    /** Remember every reported connection that has an id. */
    method Remember(conns: seq<Conn>)
      modifies this
      ensures active == old(active) + MetasOf(conns) && log == old(log) && history == old(history)
    {
      for i := 0 to |conns|
        invariant active == old(active) + MetasOf(conns[..i]) && log == old(log) && history == old(history)
      {
        assert conns[..i + 1][..i] == conns[..i];
        if conns[i].id.Some? {
          active := active[conns[i].id.value := MetaOf(conns[i], conns[i].id.value)];
        }
      }
      assert conns[..|conns|] == conns;
    }

    /** Query the proxy and track its answer; a failed query changes nothing. */
    method GetConnections(reply: Reply, now: nat) returns (snapshot: Result<Snapshot>, ghost order: seq<string>)
      requires Valid()
      modifies this
      ensures Valid() && (snapshot.Err? <==> reply.NoReply?)
      ensures reply.NoReply? ==> active == old(active) && log == old(log) && history == old(history)
      ensures reply.Reply? ==>
                && snapshot.value == reply.snapshot && active == Metas(reply.snapshot)
                && Enumerates(order, old(active).Keys - Ids(reply.snapshot))
                && log == old(log) + Records(old(active), order, now)
                && history == RecordedAll(old(history), Records(old(active), order, now), settings.HistoryMaximum())
    {
      order := [];
      if reply.NoReply? {
        return Err("Failed to query Clash API"), order;
      }
      order := TrackConnections(reply.snapshot, now);
      snapshot := Ok(reply.snapshot);
    }

    /** Query and track, then look up one connection; fails when the query does or when there is no list. */
    method GetConnectionInfo(id: string, reply: Reply, now: nat)
      returns (info: Result<Option<ClosedConnection>>, ghost order: seq<string>)
      requires Valid()
      modifies this
      ensures Valid()
      ensures reply.NoReply? ==> active == old(active) && log == old(log) && history == old(history)
      ensures reply.Reply? ==>
                && active == Metas(reply.snapshot)
                && Enumerates(order, old(active).Keys - Ids(reply.snapshot))
                && log == old(log) + Records(old(active), order, now)
                && history == RecordedAll(old(history), Records(old(active), order, now), settings.HistoryMaximum())
      ensures info.Err? <==> reply.NoReply? || reply.snapshot.None?
      ensures info.Ok? ==> info.value == match FindIn(reply.snapshot, id)
                                         case Some(c) => Some(ClosedOf(MetaOf(c, id), now))
                                         case None => None
    {
      var snapshot: Result<Snapshot>;
      snapshot, order := GetConnections(reply, now);
      if snapshot.Err? {
        return Err(snapshot.error), order;
      }
      if snapshot.value.None? {
        return Err("Invalid connections response"), order;
      }
      var conns := snapshot.value.value;
      for i := 0 to |conns|
        invariant Find(conns, id) == Find(conns[i..], id)
      {
        if conns[i].id == Some(id) {
          return Ok(Some(ClosedOf(MetaOf(conns[i], id), now))), order;
        }
        assert conns[i..][1..] == conns[i + 1..];
      }
      info := Ok(None);
    }

    /**
      * Close one connection: look it up, ask the proxy to close it, and record it if it was found. The
      * proxy is asked even when the lookup fails.
      */
    method CloseConnection(id: string, reply: Reply, closeSucceeds: bool, now: nat)
      returns (ok: bool, ghost order: seq<string>)
      requires Valid()
      modifies this
      ensures Valid() && ok == closeSucceeds
      ensures reply.NoReply? ==> active == old(active) && log == old(log) && history == old(history)
      ensures reply.Reply? ==>
                && active == Metas(reply.snapshot)
                && Enumerates(order, old(active).Keys - Ids(reply.snapshot))
                && log == old(log) + Records(old(active), order, now) + FoundRecord(reply.snapshot, id, now)
                && history == RecordedAll(
                                old(history), Records(old(active), order, now) + FoundRecord(reply.snapshot, id, now),
                                settings.HistoryMaximum())
    {
      var info: Result<Option<ClosedConnection>>;
      info, order := GetConnectionInfo(id, reply, now);
      ok := closeSucceeds;
      if reply.Reply? {
        ghost var gone, found := Records(old(active), order, now), FoundRecord(reply.snapshot, id, now);
        assert found == [] ==> gone + found == gone;
      }
      if info.Ok? && info.value.Some? {
        RecordClosedConnection(info.value.value);
        ghost var gone := Records(old(active), order, now);
        assert (gone + [info.value.value])[..|gone|] == gone;
      }
    }
  }

  /** The record a manual close adds: one when the id is reported, none otherwise. */
  function FoundRecord(snapshot: Snapshot, id: string, now: nat): seq<ClosedConnection> {
    match FindIn(snapshot, id)
    case Some(c) => [ClosedOf(MetaOf(c, id), now)]
    case None => []
  }

  /** One more connection forgotten and recorded. */
  lemma GoneNext(
    active: map<string, Meta>, done: set<string>, order: seq<string>, id: string, now: nat,
    log: seq<ClosedConnection>, history: seq<ClosedConnection>, max: nat)
    requires Enumerates(order, done) && done <= active.Keys && id in active && id !in done
    ensures Enumerates(order + [id], done + {id})
    ensures (active - done) - {id} == active - (done + {id}) && id in active - done && (active - done)[id] == active[id]
    ensures log + Records(active, order + [id], now) == log + Records(active, order, now) + [ClosedOf(active[id], now)]
    ensures RecordedAll(history, Records(active, order + [id], now), max)
         == Recorded(RecordedAll(history, Records(active, order, now), max), ClosedOf(active[id], now), max)
  {
    assert Records(active, order + [id], now)[..|order|] == Records(active, order, now);
  }

  lemma {:induction false} MetasOfKeys(conns: seq<Conn>)
    ensures MetasOf(conns).Keys == Ids(Some(conns))
    ensures forall x :: x in MetasOf(conns) ==> MetasOf(conns)[x].id == x
    decreases |conns|
  {
    if conns != [] {
      var n := |conns| - 1;
      MetasOfKeys(conns[..n]);
      forall x ensures x in Ids(Some(conns)) <==> x in Ids(Some(conns[..n])) || conns[n].id == Some(x) {
        if x in Ids(Some(conns[..n])) {
          var i :| 0 <= i < n && conns[..n][i].id == Some(x);
          assert conns[i].id == Some(x);
        }
        if x in Ids(Some(conns)) {
          var i :| 0 <= i < |conns| && conns[i].id == Some(x);
          assert i < n ==> conns[..n][i].id == Some(x);
        }
      }
    }
  }

  /** Exactly the reported ids are remembered, each under its own id. */
  lemma MetasKeys(s: Snapshot)
    ensures Metas(s).Keys == Ids(s)
    ensures forall x :: x in Metas(s) ==> Metas(s)[x].id == x
  {
    if s.Some? {
      MetasOfKeys(s.value);
    }
  }
}
