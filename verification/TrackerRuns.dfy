/** Whole runs of the connection tracker: nothing is lost, nothing is recorded twice by it. */
module TrackerRuns {
  import opened Prelude
  import opened Settings
  import opened ConnectionTracker

  /**
    * A snapshot arrives because the list was polled, or because one connection is being closed by hand;
    * or the query fails. `order` is the order in which the ended connections are recorded.
    */
  datatype Event =
    | Poll(snapshot: Snapshot, order: seq<string>, now: nat)
    | Close(id: string, snapshot: Snapshot, order: seq<string>, now: nat)
    | Failed

  datatype World = World(active: map<string, Meta>, log: seq<ClosedConnection>)

  /** The extra record of an event. */
  function Extra(e: Event): seq<ClosedConnection> {
    match e
    case Close(id, snapshot, _, now) => FoundRecord(snapshot, id, now)
    case _ => []
  }

  ghost predicate Possible(w: World, e: Event) {
    e.Failed? || Enumerates(e.order, w.active.Keys - Ids(e.snapshot))
  }

  /** What one event does, as `GetConnections` and `CloseConnection` promise it. */
  ghost function Next(w: World, e: Event): World
    requires Possible(w, e)
  {
    if e.Failed? then w else World(Metas(e.snapshot), w.log + Records(w.active, e.order, e.now) + Extra(e))
  }

  ghost predicate PossibleRun(es: seq<Event>)
    decreases |es|, 0
  {
    es == [] || (PossibleRun(es[..|es| - 1]) && Possible(After(es[..|es| - 1]), es[|es| - 1]))
  }

  /** The tracker after a run that started with nothing remembered. */
  ghost function After(es: seq<Event>): (w: World)
    requires PossibleRun(es)
    ensures w.active == Metas(LastSnapshot(es))
    decreases |es|, 1
  {
    if es == [] then World(map[], []) else Next(After(es[..|es| - 1]), es[|es| - 1])
  }

  /** The last snapshot that arrived; none at the start. */
  function LastSnapshot(es: seq<Event>): Snapshot {
    if es == [] then None
    else if es[|es| - 1].Failed? then LastSnapshot(es[..|es| - 1])
    else es[|es| - 1].snapshot
  }

  /** The last snapshot reports the id. */
  predicate Present(es: seq<Event>, x: string) {
    x in Ids(LastSnapshot(es))
  }

  /** The last event made the id appear. */
  predicate StartsNow(es: seq<Event>, x: string) {
    es != [] && Present(es, x) && !Present(es[..|es| - 1], x)
  }

  /** The last event made the id disappear. */
  predicate EndsNow(es: seq<Event>, x: string) {
    es != [] && !Present(es, x) && Present(es[..|es| - 1], x)
  }

  /** The last event is a manual close that found the id. */
  predicate FoundNow(es: seq<Event>, x: string) {
    es != [] && es[|es| - 1].Close? && es[|es| - 1].id == x && FindIn(es[|es| - 1].snapshot, x).Some?
  }

  /** How often the id appeared. */
  function Started(es: seq<Event>, x: string): nat {
    if es == [] then 0 else Started(es[..|es| - 1], x) + (if StartsNow(es, x) then 1 else 0)
  }

  /** How often the id disappeared. */
  function Ended(es: seq<Event>, x: string): nat {
    if es == [] then 0 else Ended(es[..|es| - 1], x) + (if EndsNow(es, x) then 1 else 0)
  }

  /** How many manual closes of the id found it. */
  function FoundCloses(es: seq<Event>, x: string): nat {
    if es == [] then 0 else FoundCloses(es[..|es| - 1], x) + (if FoundNow(es, x) then 1 else 0)
  }

  // ----- The tracker makes such a run -----

  /** A query as it reaches the tracker: a poll, or the lookup and close of one connection. */
  datatype Query =
    | List(reply: Reply, now: nat)
    | CloseOne(id: string, reply: Reply, closeSucceeds: bool, now: nat)

  /** The event that a query is for the tracker. */
  ghost predicate IsEvent(e: Event, q: Query) {
    if q.reply.NoReply? then e.Failed?
    else
      match q
      case List(reply, now) => e.Poll? && e.snapshot == reply.snapshot && e.now == now
      case CloseOne(id, reply, _, now) => e.Close? && e.id == id && e.snapshot == reply.snapshot && e.now == now
  }

  /** Whatever was asked so far, one more query of the tracker is one more event of its run. */
  method Observe(t: Tracker, q: Query, ghost es: seq<Event>) returns (ghost e: Event)
    requires t.Valid() && PossibleRun(es) && World(t.active, t.log) == After(es)
    modifies t
    ensures t.Valid() && IsEvent(e, q)
    ensures PossibleRun(es + [e]) && World(t.active, t.log) == After(es + [e])
  {
    ghost var order: seq<string>;
    match q {
      case List(reply, now) =>
        var snapshot: Result<Snapshot>;
        snapshot, order := t.GetConnections(reply, now);
        e := if reply.NoReply? then Failed else Poll(reply.snapshot, order, now);
      case CloseOne(id, reply, closeSucceeds, now) =>
        var ok: bool;
        ok, order := t.CloseConnection(id, reply, closeSucceeds, now);
        e := if reply.NoReply? then Failed else Close(id, reply.snapshot, order, now);
    }
    assert (es + [e])[..|es|] == es;
  }

  // ----- What the log holds -----

  /** The records of one id, in order. */
  function OfId(log: seq<ClosedConnection>, x: string): seq<ClosedConnection> {
    if log == [] then []
    else OfId(log[..|log| - 1], x) + (if log[|log| - 1].id == x then [log[|log| - 1]] else [])
  }

  /**
    * The records an id should have: one for each presence that ended, with the values of the last
    * snapshot that reported it, and one for each manual close that found it, in the order of events.
    */
  function Expected(es: seq<Event>, x: string): seq<ClosedConnection> {
    if es == [] then []
    else
      var n := |es| - 1;
      Expected(es[..n], x)
      + (if EndsNow(es, x) && x in Metas(LastSnapshot(es[..n])) && !es[n].Failed?
         then [ClosedOf(Metas(LastSnapshot(es[..n]))[x], es[n].now)] else [])
      + (if es[n].Close? && es[n].id == x then FoundRecord(es[n].snapshot, x, es[n].now) else [])
  }

  lemma {:induction false} OfIdConcat(a: seq<ClosedConnection>, b: seq<ClosedConnection>, x: string)
    ensures OfId(a + b, x) == OfId(a, x) + OfId(b, x)
  {
    if b == [] {
      assert a + b == a;
    } else {
      assert (a + b)[..|a + b| - 1] == a + b[..|b| - 1];
      OfIdConcat(a, b[..|b| - 1], x);
    }
  }

  /** Recording distinct ids gives each of them one record, with what was remembered of it. */
  lemma {:induction false} OfIdRecords(active: map<string, Meta>, order: seq<string>, now: nat, x: string)
    requires forall y :: y in order ==> y in active && active[y].id == y
    requires forall i, j :: 0 <= i < j < |order| ==> order[i] != order[j]
    ensures OfId(Records(active, order, now), x) == if x in order then [ClosedOf(active[x], now)] else []
    decreases |order|
  {
    if order != [] {
      var n := |order| - 1;
      var records := Records(active, order, now);
      assert records[..n] == Records(active, order[..n], now);
      OfIdRecords(active, order[..n], now, x);
      assert records[n] == ClosedOf(active[order[n]], now);
      assert x in order <==> x in order[..n] || x == order[n];
    }
  }

  /** Exactly the ids of the last snapshot are active, each under its own id. */
  lemma ActiveIsLastSnapshot(es: seq<Event>)
    requires PossibleRun(es)
    ensures forall x :: x in After(es).active <==> Present(es, x)
    ensures forall x :: x in After(es).active ==> After(es).active[x].id == x
  {
    MetasKeys(LastSnapshot(es));
  }

  lemma {:induction false} FoundIsPresent(conns: seq<Conn>, x: string)
    ensures Find(conns, x).Some? <==> x in Ids(Some(conns))
  {
    if conns != [] {
      FoundIsPresent(conns[1..], x);
      if x in Ids(Some(conns)) && conns[0].id != Some(x) {
        var i :| 0 <= i < |conns| && conns[i].id == Some(x);
        assert conns[1..][i - 1].id == Some(x);
      }
      if x in Ids(Some(conns[1..])) {
        var i :| 0 <= i < |conns[1..]| && conns[1..][i].id == Some(x);
        assert conns[i + 1].id == Some(x);
      }
      if conns[0].id == Some(x) {
        assert conns[0].id.value == x;
      }
    }
  }

  /** The records that one event adds for an id. */
  lemma EventRecords(w: World, e: Event, x: string)
    requires Possible(w, e) && !e.Failed? && forall y :: y in w.active ==> w.active[y].id == y
    ensures OfId(Next(w, e).log, x)
         == OfId(w.log, x)
            + (if x in w.active && x !in Ids(e.snapshot) then [ClosedOf(w.active[x], e.now)] else [])
            + (if e.Close? && e.id == x then FoundRecord(e.snapshot, x, e.now) else [])
  {
    var records := Records(w.active, e.order, e.now);
    OfIdConcat(w.log + records, Extra(e), x);
    OfIdConcat(w.log, records, x);
    OfIdRecords(w.active, e.order, e.now, x);
    OfIdExtra(e, x);
  }

  lemma OfIdExtra(e: Event, x: string)
    ensures OfId(Extra(e), x) == if e.Close? && e.id == x then FoundRecord(e.snapshot, x, e.now) else []
  {
    if Extra(e) != [] {
      assert Extra(e)[..0] == [];
    }
  }

  /**
    * The log of every id over every run is exactly the ordered list of its ended presences, each with
    * the values of the snapshot before, and of the manual closes that found it.
    */
  lemma {:induction false} LogIsExpected(es: seq<Event>, x: string)
    requires PossibleRun(es)
    ensures OfId(After(es).log, x) == Expected(es, x)
    decreases |es|
  {
    if es != [] {
      var n := |es| - 1;
      LogIsExpected(es[..n], x);
      ActiveIsLastSnapshot(es[..n]);
      if !es[n].Failed? {
        EventRecords(After(es[..n]), es[n], x);
        assert EndsNow(es, x) <==> x in After(es[..n]).active && x !in Ids(es[n].snapshot);
      }
    }
  }

  /** A record shows a reported connection as closed at that time: every value under its own name. */
  predicate RecordOf(r: ClosedConnection, c: Conn, id: string, at: nat) {
    && r.id == id && r.sourceIp == c.sourceIp && r.chains == c.chains
    && r.upload == c.upload && r.download == c.download && r.closedAt == at
    && r.destination == if c.destIp != "" then c.destIp + ":" + c.destPort else c.host
  }

  /** The last entry of a snapshot with that id. */
  function LastEntry(conns: seq<Conn>, x: string): Option<Conn> {
    if conns == [] then None
    else if conns[|conns| - 1].id == Some(x) then Some(conns[|conns| - 1])
    else LastEntry(conns[..|conns| - 1], x)
  }

  /** What a snapshot says of an id at the time when its connection is recorded. */
  datatype Sighting = Sighting(conn: Conn, at: nat)

  /**
    * The sightings that an id's records have to show: the last entry of the snapshot before it ended, and
    * the first entry with the id in the snapshot of a manual close.
    */
  function Sightings(es: seq<Event>, x: string): seq<Sighting> {
    if es == [] then []
    else
      var n := |es| - 1;
      var before := LastSnapshot(es[..n]);
      Sightings(es[..n], x)
      + (if EndsNow(es, x) && before.Some? && LastEntry(before.value, x).Some? && !es[n].Failed?
         then [Sighting(LastEntry(before.value, x).value, es[n].now)] else [])
      + (if FoundNow(es, x) then [Sighting(FindIn(es[n].snapshot, x).value, es[n].now)] else [])
  }

  lemma {:induction false} LastEntryRemembered(conns: seq<Conn>, x: string)
    ensures LastEntry(conns, x).Some? <==> x in MetasOf(conns)
    ensures x in MetasOf(conns) ==> MetasOf(conns)[x] == MetaOf(LastEntry(conns, x).value, x)
    decreases |conns|
  {
    if conns != [] {
      LastEntryRemembered(conns[..|conns| - 1], x);
    }
  }

  /** The lookup of a manual close takes the first entry with the id. */
  lemma {:induction false} FindIsFirst(conns: seq<Conn>, x: string)
    requires Find(conns, x).Some?
    ensures exists i :: 0 <= i < |conns| && conns[i].id == Some(x) && Find(conns, x).value == conns[i]
                        && forall j :: 0 <= j < i ==> conns[j].id != Some(x)
  {
    if conns[0].id != Some(x) {
      FindIsFirst(conns[1..], x);
      var i :| 0 <= i < |conns[1..]| && conns[1..][i].id == Some(x) && Find(conns[1..], x).value == conns[1..][i]
               && forall j :: 0 <= j < i ==> conns[1..][j].id != Some(x);
      forall j | 0 <= j < i + 1 ensures conns[j].id != Some(x) {
        assert j > 0 ==> conns[1..][j - 1] == conns[j];
      }
      assert conns[i + 1].id == Some(x);
    }
  }

  /** The records show the sightings, one each, in order. */
  ghost predicate Show(records: seq<ClosedConnection>, sightings: seq<Sighting>, x: string) {
    && |records| == |sightings|
    && forall i :: 0 <= i < |records| ==> RecordOf(records[i], sightings[i].conn, x, sightings[i].at)
  }

  lemma ShowConcat(
    a: seq<ClosedConnection>, b: seq<ClosedConnection>, p: seq<Sighting>, q: seq<Sighting>, x: string)
    requires Show(a, p, x) && Show(b, q, x)
    ensures Show(a + b, p + q, x)
  {
    var records, sightings := a + b, p + q;
    forall i | 0 <= i < |records| ensures RecordOf(records[i], sightings[i].conn, x, sightings[i].at) {
      if i < |a| {
        assert records[i] == a[i] && sightings[i] == p[i];
      } else {
        assert records[i] == b[i - |a|] && sightings[i] == q[i - |a|];
      }
    }
  }

  /** The records of a presence that the last event ended, and of a close that it is. */
  function EndedPart(es: seq<Event>, x: string): (seq<ClosedConnection>, seq<Sighting>)
    requires es != []
  {
    var n := |es| - 1;
    var before := LastSnapshot(es[..n]);
    if EndsNow(es, x) && before.Some? && LastEntry(before.value, x).Some? && !es[n].Failed? then
      var c := LastEntry(before.value, x).value;
      ([ClosedOf(MetaOf(c, x), es[n].now)], [Sighting(c, es[n].now)])
    else ([], [])
  }

  function FoundPart(es: seq<Event>, x: string): (seq<ClosedConnection>, seq<Sighting>)
    requires es != []
  {
    var n := |es| - 1;
    if FoundNow(es, x) then
      var c := FindIn(es[n].snapshot, x).value;
      ([ClosedOf(MetaOf(c, x), es[n].now)], [Sighting(c, es[n].now)])
    else ([], [])
  }

  lemma PartsShown(es: seq<Event>, x: string)
    requires es != []
    ensures Show(EndedPart(es, x).0, EndedPart(es, x).1, x) && Show(FoundPart(es, x).0, FoundPart(es, x).1, x)
  {}

  /** The two lists grow by the same parts. */
  lemma PartsAdded(es: seq<Event>, x: string)
    requires es != []
    ensures Expected(es, x) == Expected(es[..|es| - 1], x) + EndedPart(es, x).0 + FoundPart(es, x).0
    ensures Sightings(es, x) == Sightings(es[..|es| - 1], x) + EndedPart(es, x).1 + FoundPart(es, x).1
  {
    var before := LastSnapshot(es[..|es| - 1]);
    MetasKeys(before);
    if before.Some? {
      LastEntryRemembered(before.value, x);
    }
  }

  lemma {:induction false} ExpectedShown(es: seq<Event>, x: string)
    ensures Show(Expected(es, x), Sightings(es, x), x)
    decreases |es|
  {
    if es != [] {
      var before, seen := Expected(es[..|es| - 1], x), Sightings(es[..|es| - 1], x);
      ExpectedShown(es[..|es| - 1], x);
      PartsAdded(es, x);
      PartsShown(es, x);
      ShowConcat(before, EndedPart(es, x).0, seen, EndedPart(es, x).1, x);
      ShowConcat(before + EndedPart(es, x).0, FoundPart(es, x).0, seen + EndedPart(es, x).1, FoundPart(es, x).1, x);
    }
  }

  /**
    * Over every run the log of an id shows exactly its sightings, in order: counters, addresses, chains and
    * closing time of each record are those of the reported connection.
    */
  lemma LogShowsSightings(es: seq<Event>, x: string)
    requires PossibleRun(es)
    ensures Show(OfId(After(es).log, x), Sightings(es, x), x)
  {
    LogIsExpected(es, x);
    ExpectedShown(es, x);
  }

  /** One connection with upload 10 and download 2000 that the next poll misses. */
  lemma SampleRecord()
    ensures var c := Conn(Some("x"), "10.0.0.2", "1.2.3.4", "443", "example.org", ["PROXY"], 10, 2000);
            var polls := [Poll(Some([c]), [], 5), Poll(Some([]), ["x"], 9)];
            && PossibleRun(polls)
            && After(polls).log == [ClosedConnection("x", "10.0.0.2", "1.2.3.4:443", ["PROXY"], 10, 2000, 9)]
  {
    var c := Conn(Some("x"), "10.0.0.2", "1.2.3.4", "443", "example.org", ["PROXY"], 10, 2000);
    var first: seq<Event> := [Poll(Some([c]), [], 5)];
    var polls := first + [Poll(Some([]), ["x"], 9)];
    assert first[..0] == [] && polls[..1] == first;
    assert PossibleRun([]) && After([]).active == map[];
    assert PossibleRun(first) by {
      assert Enumerates([], {});
    }
    assert [c][..0] == [];
    assert MetasOf([c]) == map["x" := MetaOf(c, "x")];
    assert After(first) == World(map["x" := MetaOf(c, "x")], []);
    assert Ids(Some([])) == {};
    assert PossibleRun(polls) by {
      assert Enumerates(["x"], {"x"} - {});
    }
    assert "1.2.3.4" + ":" + "443" == "1.2.3.4:443";
    assert Records(After(first).active, ["x"], 9) == [ClosedOf(MetaOf(c, "x"), 9)];
    assert polls == [Poll(Some([c]), [], 5), Poll(Some([]), ["x"], 9)];
  }

  lemma {:induction false} ExpectedLength(es: seq<Event>, x: string)
    ensures |Expected(es, x)| == Ended(es, x) + FoundCloses(es, x)
    decreases |es|
  {
    if es != [] {
      ExpectedLength(es[..|es| - 1], x);
      MetasKeys(LastSnapshot(es[..|es| - 1]));
    }
  }

  /** Each presence of an id that is over, and each manual close that found it, has exactly one record. */
  lemma LogCounts(es: seq<Event>, x: string)
    requires PossibleRun(es)
    ensures |OfId(After(es).log, x)| == Ended(es, x) + FoundCloses(es, x)
  {
    LogIsExpected(es, x);
    ExpectedLength(es, x);
  }

  /** Every presence that started is over or still active. */
  lemma {:induction false} PresencesBalance(es: seq<Event>, x: string)
    ensures Started(es, x) == Ended(es, x) + (if Present(es, x) then 1 else 0)
    decreases |es|
  {
    if es != [] {
      PresencesBalance(es[..|es| - 1], x);
    }
  }

  /**
    * Conservation: over any run, for every id, the presences that started are either still active or
    * logged exactly once, and each manual close that found the id added exactly one further record.
    */
  lemma Conservation(es: seq<Event>, x: string)
    requires PossibleRun(es)
    ensures |OfId(After(es).log, x)| + (if x in After(es).active then 1 else 0) == Started(es, x) + FoundCloses(es, x)
    ensures x in After(es).active <==> Present(es, x)
  {
    LogCounts(es, x);
    PresencesBalance(es, x);
    ActiveIsLastSnapshot(es);
  }

  /** All connections that disappeared, over the whole run. */
  ghost function TotalEnded(es: seq<Event>): nat {
    if es == [] then 0
    else TotalEnded(es[..|es| - 1]) + |Ids(LastSnapshot(es[..|es| - 1])) - Ids(LastSnapshot(es))|
  }

  function TotalFound(es: seq<Event>): nat {
    if es == [] then 0 else TotalFound(es[..|es| - 1]) + |Extra(es[|es| - 1])|
  }

  lemma {:induction false} EnumerationLength(order: seq<string>, ids: set<string>)
    requires Enumerates(order, ids)
    ensures |order| == |ids|
    decreases |order|
  {
    if order == [] {
      assert ids == {};
    } else {
      var n := |order| - 1;
      EnumerationLength(order[..n], ids - {order[n]});
    }
  }

  /** The log has one entry per disappeared connection and one per manual close that found its id. */
  lemma {:induction false} LogLength(es: seq<Event>)
    requires PossibleRun(es)
    ensures |After(es).log| == TotalEnded(es) + TotalFound(es)
    decreases |es|
  {
    if es != [] {
      var n := |es| - 1;
      var before := Ids(LastSnapshot(es[..n]));
      LogLength(es[..n]);
      if es[n].Failed? {
        assert before - before == {};
      } else {
        MetasKeys(LastSnapshot(es[..n]));
        assert After(es[..n]).active.Keys == before;
        EnumerationLength(es[n].order, before - Ids(es[n].snapshot));
      }
    }
  }

  /** A connection that disappears at step `k` is logged with the values of the snapshot before. */
  lemma {:induction false} LoggedWithLastSeen(es: seq<Event>, k: nat, x: string)
    requires PossibleRun(es) && k < |es| && EndsNow(es[..k + 1], x)
    ensures x in Metas(LastSnapshot(es[..k])) && !es[k].Failed?
    ensures ClosedOf(Metas(LastSnapshot(es[..k]))[x], es[k].now) in OfId(After(es).log, x)
    decreases |es|
  {
    var n := |es| - 1;
    assert es[..k + 1][..k] == es[..k];
    MetasKeys(LastSnapshot(es[..k]));
    LogIsExpected(es, x);
    if k < n {
      assert es[..n][..k + 1] == es[..k + 1] && es[..n][..k] == es[..k];
      LoggedWithLastSeen(es[..n], k, x);
      LogIsExpected(es[..n], x);
    } else {
      assert es[..k + 1] == es;
    }
  }

  /** A manual close followed by a poll that misses the connection leaves two records of one connection. */
  lemma ManualCloseLogsTwice(es: seq<Event>, close: Event, poll: Event)
    requires close.Close? && poll.Poll? && PossibleRun(es + [close, poll])
    requires FindIn(close.snapshot, close.id).Some? && close.id !in Ids(poll.snapshot)
    ensures PossibleRun(es)
    ensures |OfId(After(es + [close, poll]).log, close.id)| == |OfId(After(es).log, close.id)| + 2
  {
    var x := close.id;
    var all := es + [close, poll];
    assert all[..|es| + 1] == es + [close] && (es + [close])[..|es|] == es;
    LogCounts(all, x);
    LogCounts(es, x);
    FoundIsPresent(close.snapshot.value, x);
    assert Present(es + [close], x) && !Present(all, x);
    assert Ended(all, x) == Ended(es + [close], x) + 1 && Ended(es + [close], x) == Ended(es, x);
    assert FoundCloses(all, x) == FoundCloses(es + [close], x)
        && FoundCloses(es + [close], x) == FoundCloses(es, x) + 1;
  }

  // ----- The bounded history over runs -----

  /** A change of the stored history: a record under the maximum of that moment, or a clear. */
  datatype Change = Add(record: ClosedConnection, max: nat) | Clear

  function Stored(changes: seq<Change>): seq<ClosedConnection> {
    if changes == [] then []
    else
      match changes[|changes| - 1]
      case Add(c, max) => Recorded(Stored(changes[..|changes| - 1]), c, max)
      case Clear => []
  }

  /** All records since the last clear, newest first. */
  function NewestFirst(changes: seq<Change>): seq<ClosedConnection> {
    if changes == [] || changes[|changes| - 1].Clear? then []
    else [changes[|changes| - 1].record] + NewestFirst(changes[..|changes| - 1])
  }

  /** The changes that recording a list under one maximum makes. */
  function Adds(records: seq<ClosedConnection>, max: nat): (r: seq<Change>)
    ensures |r| == |records|
  {
    seq(|records|, i requires 0 <= i < |records| => Add(records[i], max))
  }

  /** What the tracker stores for a list of records is the history after these changes. */
  lemma {:induction false} RecordedIsStored(changes: seq<Change>, records: seq<ClosedConnection>, max: nat)
    ensures RecordedAll(Stored(changes), records, max) == Stored(changes + Adds(records, max))
    decreases |records|
  {
    var all := changes + Adds(records, max);
    if records == [] {
      assert all == changes;
    } else {
      var n := |records| - 1;
      RecordedIsStored(changes, records[..n], max);
      assert all[..|all| - 1] == changes + Adds(records[..n], max);
    }
  }

  /**
    * Whatever maxima were in force, the stored history is a prefix of the full newest-first log since the
    * last clear, and no longer than the maximum of the last record.
    */
  lemma {:induction false} HistoryIsNewest(changes: seq<Change>)
    ensures Stored(changes) <= NewestFirst(changes)
    ensures changes != [] && changes[|changes| - 1].Add? ==> |Stored(changes)| <= changes[|changes| - 1].max
    decreases |changes|
  {
    if changes != [] {
      HistoryIsNewest(changes[..|changes| - 1]);
    }
  }

  /** A record stays stored for as long as no maximum was too small for it: an upper bound on the length per step. */
  ghost predicate Fits(changes: seq<Change>, length: nat) {
    forall j :: 0 <= j < |changes| && changes[j].Add? ==> length <= changes[j].max + (|changes| - 1 - j)
  }

  /**
    * The exact length between clears: the number of records, or what the tightest maximum left plus the
    * records made since, whichever is smaller.
    */
  lemma {:induction false} HistoryLength(changes: seq<Change>)
    requires forall j :: 0 <= j < |changes| ==> changes[j].Add?
    ensures |Stored(changes)| <= |changes| && Fits(changes, |Stored(changes)|)
    ensures |Stored(changes)| == |changes|
            || exists j :: 0 <= j < |changes| && |Stored(changes)| == changes[j].max + (|changes| - 1 - j)
    decreases |changes|
  {
    if changes != [] {
      var n := |changes| - 1;
      var before := changes[..n];
      HistoryLength(before);
      if |Stored(before)| + 1 <= changes[n].max && |Stored(before)| < n {
        var j :| 0 <= j < n && |Stored(before)| == before[j].max + (n - 1 - j);
        assert changes[j].max + (n - j) == |Stored(changes)|;
      } else if |Stored(before)| + 1 > changes[n].max {
        assert changes[n].max + (n - n) == |Stored(changes)|;
      }
      forall j | 0 <= j < |changes| ensures |Stored(changes)| <= changes[j].max + (n - j) {
        assert j < n ==> before[j] == changes[j];
      }
    }
  }

  /** With one maximum and no clear the history is exactly the newest records, as many as fit. */
  lemma {:induction false} ConstantMaximum(changes: seq<Change>, max: nat)
    requires forall j :: 0 <= j < |changes| ==> changes[j].Add? && changes[j].max == max
    ensures Stored(changes) == Take(NewestFirst(changes), max)
    ensures |NewestFirst(changes)| == |changes|
    decreases |changes|
  {
    if changes != [] {
      ConstantMaximum(changes[..|changes| - 1], max);
    }
  }
}
