/** The interleaved seat bound is exact: for every limit and every number of activations in flight
    some run ends with maxDevices - 1 + inFlight active seats. */
module Saturation {
  import opened Common
  import opened Models
  import opened Seats
  import opened Licensing
  import opened Interleaving
  import opened Concurrency

  /** A license nobody has used, and no request in flight. */
  function Start(l: License): System {
    System(Server(map[l.key := l], EMPTY_TABLE, []), map[])
  }

  predicate Open(l: License) {
    l.expiresAt.None? && l.revokedAt.None?
  }

  /** A different device for every number. */
  function Dev(i: nat): (d: string)
    ensures |d| == i
  {
    seq(i, _ => 'x')
  }

  function Devs(n: nat): set<string> {
    set i | 0 <= i < n :: Dev(i)
  }

  lemma {:induction false} DevsSize(n: nat)
    ensures |Devs(n)| == n
    ensures Dev(n) !in Devs(n) && Devs(n + 1) == Devs(n) + {Dev(n)}
  {
    assert forall i :: 0 <= i < n ==> |Dev(i)| == i;
    if n > 0 { DevsSize(n - 1); }
  }

  lemma NotYet(p: nat, b: nat)
    requires p <= b
    ensures Dev(b) !in Devs(p)
  {
    assert forall i :: 0 <= i < p ==> |Dev(i)| == i;
  }

  function Ask(l: License, t: nat): Request {
    Activate(l.key, Dev(t), "", false)
  }

  /** Requests 0 to b - 1 are known: those below a are answered, those from a to p - 1 have inserted,
      the rest have passed the check; the first p devices hold the seats. */
  ghost predicate Shape(sys: System, l: License, a: nat, p: nat, b: nat) {
    && a <= p <= b && Open(l)
    && sys.server.licenses == map[l.key := l] && Inv(sys.server)
    && HoldersOf(sys.server, l.key) == Devs(p)
    && (forall t: nat :: t in sys.flights <==> t < b)
    && (forall t: nat :: t < b ==> sys.flights[t].req == Ask(l, t))
    && (forall t: nat :: t < a ==> sys.flights[t].at.Ended?)
    && (forall t: nat :: a <= t < p ==> sys.flights[t].at in {Inserted(l, 0), Recounting(l, 0)})
    && (forall t: nat :: p <= t < b ==> sys.flights[t].at == Passed(l, 0))
  }

  /** The same, with request b on its way to the check. */
  ghost predicate Mid(sys: System, l: License, a: nat, p: nat, b: nat, at: Counter) {
    && b in sys.flights && sys.flights[b] == Flight(Ask(l, b), at)
    && Shape(sys.(flights := sys.flights - {b}), l, a, p, b)
  }

  function Range(a: nat, b: nat): set<nat> {
    if b <= a then {} else Range(a, b - 1) + {b - 1}
  }

  lemma {:induction false} RangeFacts(a: nat, b: nat)
    requires a <= b
    ensures |Range(a, b)| == b - a && forall t :: t in Range(a, b) <==> a <= t < b
  {
    if a < b { RangeFacts(a, b - 1); }
  }

  lemma FlightsOfShape(sys: System, l: License, a: nat, p: nat, b: nat)
    requires Shape(sys, l, a, p, b)
    ensures |FlightOn(sys, l.key)| <= b - a
  {
    RangeFacts(a, b);
    SubsetBound(FlightOn(sys, l.key), Range(a, b));
  }

  lemma FlightsOfMid(sys: System, l: License, a: nat, p: nat, b: nat, at: Counter)
    requires Mid(sys, l, a, p, b, at)
    ensures |FlightOn(sys, l.key)| <= b + 1 - a
  {
    RangeFacts(a, b + 1);
    forall t | t in FlightOn(sys, l.key) ensures t in Range(a, b + 1) {
      if t != b { assert t in (sys.flights - {b}); }
    }
    SubsetBound(FlightOn(sys, l.key), Range(a, b + 1));
  }

  // ---- runs with few activations in flight --------------------------------------------------

  ghost predicate Leads(l: License, sys: System, moves: seq<Move>, end: System, inFlight: nat) {
    && Reach(sys, moves, |moves|) == end
    && forall m :: 0 <= m <= |moves| ==> |FlightOn(Reach(sys, moves, m), l.key)| <= inFlight
  }

  ghost predicate Can(l: License, sys: System, end: System, inFlight: nat) {
    exists moves :: Leads(l, sys, moves, end, inFlight)
  }

  lemma {:induction false} ReachJoined(sys: System, p: seq<Move>, q: seq<Move>, n: nat)
    requires n <= |p| + |q|
    ensures Reach(sys, p + q, n) == if n <= |p| then Reach(sys, p, n) else Reach(Reach(sys, p, |p|), q, n - |p|)
    decreases n
  {
    hide Exec;
    if n > 0 { ReachJoined(sys, p, q, n - 1); }
  }

  lemma Then(l: License, sys: System, mid: System, end: System, inFlight: nat)
    requires Can(l, sys, mid, inFlight) && Can(l, mid, end, inFlight)
    ensures Can(l, sys, end, inFlight)
  {
    hide Exec;
    var p :| Leads(l, sys, p, mid, inFlight);
    var q :| Leads(l, mid, q, end, inFlight);
    forall m | 0 <= m <= |p + q| ensures |FlightOn(Reach(sys, p + q, m), l.key)| <= inFlight {
      ReachJoined(sys, p, q, m);
    }
    ReachJoined(sys, p, q, |p + q|);
    assert Leads(l, sys, p + q, end, inFlight);
  }

  lemma Stay(l: License, sys: System, inFlight: nat)
    requires |FlightOn(sys, l.key)| <= inFlight
    ensures Can(l, sys, sys, inFlight)
  {
    assert Leads(l, sys, [], sys, inFlight);
  }

  lemma OneMove(l: License, sys: System, move: Move, inFlight: nat)
    requires |FlightOn(sys, l.key)| <= inFlight && |FlightOn(Exec(sys, move), l.key)| <= inFlight
    ensures Can(l, sys, Exec(sys, move), inFlight)
  {
    hide Exec;
    var moves := [move];
    assert Reach(sys, moves, 0) == sys && Reach(sys, moves, 1) == Exec(sys, move);
    assert Leads(l, sys, moves, Exec(sys, move), inFlight);
  }

  // ---- the moves ----------------------------------------------------------------------------

  /** The counters on the way to the check. */
  function NextTo(l: License, at: Counter): Counter {
    match at
    case Looking => Looked(l)
    case Looked(_) => Checked(l, 0)
    case Checked(_, _) => Counting(l, 0)
    case _ => Passed(l, 0)
  }

  lemma ApproachStatement(s: Server, l: License, p: nat, b: nat, at: Counter)
    requires s.licenses == map[l.key := l] && Open(l) && HoldersOf(s, l.key) == Devs(p) && p <= b && p < l.maxDevices
    requires at in {Looking, Looked(l), Checked(l, 0), Counting(l, 0)}
    ensures Statement(s, Ask(l, b), at, 0) == (s, NextTo(l, at))
  {
    NotYet(p, b);
    DevsSize(p);
  }

  /** Request b takes one step on the way to the check, which leaves the server alone. */
  lemma Approach(sys: System, l: License, a: nat, p: nat, b: nat, at: Counter, inFlight: nat) returns (end: System)
    requires Mid(sys, l, a, p, b, at) && b + 1 - a <= inFlight && p < l.maxDevices
    requires at in {Looking, Looked(l), Checked(l, 0), Counting(l, 0)}
    ensures Can(l, sys, end, inFlight) && Mid(end, l, a, p, b, NextTo(l, at))
  {
    ApproachStatement(sys.server, l, p, b, at);
    hide Statement, Can, HoldersOf, Inv;
    end := Exec(sys, Advance(b, 0));
    assert end.flights - {b} == sys.flights - {b};
    FlightsOfMid(sys, l, a, p, b, at);
    FlightsOfMid(end, l, a, p, b, NextTo(l, at));
    OneMove(l, sys, Advance(b, 0), inFlight);
  }

  lemma PassOne(sys: System, l: License, a: nat, p: nat, b: nat, inFlight: nat) returns (end: System)
    requires Shape(sys, l, a, p, b) && b + 1 - a <= inFlight && p < l.maxDevices
    ensures Shape(end, l, a, p, b + 1) && Can(l, sys, end, inFlight)
  {
    hide Can, Statement, HoldersOf, Inv;
    var first := Exec(sys, Begin(b, Ask(l, b)));
    assert first.flights - {b} == sys.flights;
    FlightsOfShape(sys, l, a, p, b);
    FlightsOfMid(first, l, a, p, b, Looking);
    OneMove(l, sys, Begin(b, Ask(l, b)), inFlight);
    var s1 := Approach(first, l, a, p, b, Looking, inFlight);
    var s2 := Approach(s1, l, a, p, b, Looked(l), inFlight);
    var s3 := Approach(s2, l, a, p, b, Checked(l, 0), inFlight);
    end := Approach(s3, l, a, p, b, Counting(l, 0), inFlight);
    Then(l, sys, first, s1, inFlight);
    Then(l, sys, s1, s2, inFlight);
    Then(l, sys, s2, s3, inFlight);
    Then(l, sys, s3, end, inFlight);
    MidIsShape(end, l, a, p, b);
  }

  lemma MidIsShape(sys: System, l: License, a: nat, p: nat, b: nat)
    requires Mid(sys, l, a, p, b, Passed(l, 0))
    ensures Shape(sys, l, a, p, b + 1)
  {
    var old' := sys.(flights := sys.flights - {b});
    forall t: nat ensures t in sys.flights <==> t < b + 1 {
      assert t in old'.flights <==> t < b;
    }
    forall t: nat | t < b ensures sys.flights[t] == old'.flights[t] {
      assert t in old'.flights;
    }
  }

  /** Moving request t on, with the server's seats for q devices, keeps the shape. */
  lemma ShapeMoved(sys: System, l: License, a: nat, p: nat, b: nat, t: nat, s': Server, at': Counter, c: nat, q: nat)
    requires Shape(sys, l, a, p, b) && a <= t < b
    requires s'.licenses == sys.server.licenses && Inv(s') && HoldersOf(s', l.key) == Devs(q)
    requires (t == p && c == a && q == p + 1 && at' == Inserted(l, 0))
          || (t == a < p && c == a && q == p && at' == Recounting(l, 0))
          || (t == a < p && c == a + 1 && q == p && at'.Ended?)
    ensures Shape(System(s', sys.flights[t := sys.flights[t].(at := at')]), l, c, q, b)
  {
    hide Inv, HoldersOf, Devs;
  }

  lemma MoveOne(sys: System, l: License, a: nat, p: nat, b: nat, t: nat, c: nat, q: nat, inFlight: nat) returns (end: System)
    requires Shape(sys, l, a, p, b) && a <= t < b && b - a <= inFlight
    requires var (s', at') := Statement(sys.server, Ask(l, t), sys.flights[t].at, 0);
      && s'.licenses == sys.server.licenses && Inv(s') && HoldersOf(s', l.key) == Devs(q)
      && ((t == p && c == a && q == p + 1 && at' == Inserted(l, 0))
          || (t == a < p && c == a && q == p && at' == Recounting(l, 0))
          || (t == a < p && c == a + 1 && q == p && at'.Ended?))
    ensures Shape(end, l, c, q, b) && Can(l, sys, end, inFlight)
    ensures end.flights[t].at == Statement(sys.server, Ask(l, t), sys.flights[t].at, 0).1
  {
    var (s', at') := Statement(sys.server, Ask(l, t), sys.flights[t].at, 0);
    ShapeMoved(sys, l, a, p, b, t, s', at', c, q);
    end := Exec(sys, Advance(t, 0));
    assert end == System(s', sys.flights[t := sys.flights[t].(at := at')]);
    FlightsOfShape(sys, l, a, p, b);
    FlightsOfShape(end, l, c, q, b);
    OneMove(l, sys, Advance(t, 0), inFlight);
  }

  lemma InsertStatement(s: Server, l: License, t: nat)
    requires s.licenses == map[l.key := l] && Inv(s) && Open(l)
    ensures var (s', at') := Statement(s, Ask(l, t), Passed(l, 0), 0);
      Inv(s') && s'.licenses == s.licenses && at' == Inserted(l, 0) && HoldersOf(s', l.key) == HoldersOf(s, l.key) + {Dev(t)}
  {
    var f := Flight(Ask(l, t), Passed(l, 0));
    assert Faithful(s, f);
    StatementKeepsTables(s, f.req, f.at, 0);
    StatementHolders(s, f.req, f.at, 0, l.key);
  }

  lemma ReportStatement(s: Server, l: License, t: nat)
    requires s.licenses == map[l.key := l] && Inv(s) && Open(l)
    ensures var (s', at') := Statement(s, Ask(l, t), Inserted(l, 0), 0);
      Inv(s') && s'.licenses == s.licenses && at' == Recounting(l, 0) && HoldersOf(s', l.key) == HoldersOf(s, l.key)
  {
  }

  lemma InsertOne(sys: System, l: License, a: nat, p: nat, b: nat, inFlight: nat) returns (end: System)
    requires Shape(sys, l, a, p, b) && p < b && b - a <= inFlight
    ensures Shape(end, l, a, p + 1, b) && Can(l, sys, end, inFlight)
    ensures end.flights[p].at == Inserted(l, 0)
  {
    hide Statement, Can, HoldersOf, Inv, Devs, Dev;
    assert sys.flights[p].at == Passed(l, 0);
    InsertStatement(sys.server, l, p);
    DevsSize(p);
    end := MoveOne(sys, l, a, p, b, p, a, p + 1, inFlight);
  }

  lemma Report(sys: System, l: License, a: nat, p: nat, b: nat, inFlight: nat) returns (end: System)
    requires Shape(sys, l, a, p, b) && a < p && b - a <= inFlight && sys.flights[a].at == Inserted(l, 0)
    ensures Shape(end, l, a, p, b) && Can(l, sys, end, inFlight) && end.flights[a].at == Recounting(l, 0)
  {
    ReportStatement(sys.server, l, a);
    hide Statement, Can;
    end := MoveOne(sys, l, a, p, b, a, a, p, inFlight);
  }

  lemma Answer(sys: System, l: License, a: nat, p: nat, b: nat, inFlight: nat) returns (end: System)
    requires Shape(sys, l, a, p, b) && a < p && b - a <= inFlight && sys.flights[a].at == Recounting(l, 0)
    ensures Shape(end, l, a + 1, p, b) && Can(l, sys, end, inFlight)
  {
    end := MoveOne(sys, l, a, p, b, a, a + 1, p, inFlight);
  }

  // ---- the run ------------------------------------------------------------------------------

  lemma StartShape(l: License)
    requires Open(l)
    ensures Shape(Start(l), l, 0, 0, 0)
  {
  }

  /** One activation from beginning to answer. */
  lemma FillOne(sys: System, l: License, n: nat, inFlight: nat) returns (end: System)
    requires Shape(sys, l, n, n, n) && n < l.maxDevices && inFlight >= 1
    ensures Shape(end, l, n + 1, n + 1, n + 1) && Can(l, sys, end, inFlight)
  {
    hide Shape, Can;
    var passed := PassOne(sys, l, n, n, n, inFlight);
    var inserted := InsertOne(passed, l, n, n, n + 1, inFlight);
    var reported := Report(inserted, l, n, n + 1, n + 1, inFlight);
    end := Answer(reported, l, n, n + 1, n + 1, inFlight);
    Then(l, sys, passed, inserted, inFlight);
    Then(l, sys, inserted, reported, inFlight);
    Then(l, sys, reported, end, inFlight);
  }

  lemma FillNone(l: License, inFlight: nat)
    requires Open(l)
    ensures Shape(Start(l), l, 0, 0, 0) && Can(l, Start(l), Start(l), inFlight)
  {
    StartShape(l);
    FlightsOfShape(Start(l), l, 0, 0, 0);
    Stay(l, Start(l), inFlight);
  }

  /** Activations one after the other fill n seats. */
  lemma {:induction false} FillAlone(l: License, n: nat, inFlight: nat) returns (end: System)
    requires Open(l) && n < l.maxDevices && inFlight >= 1
    ensures Shape(end, l, n, n, n) && Can(l, Start(l), end, inFlight)
  {
    hide Shape, Can, Start;
    if n == 0 {
      FillNone(l, inFlight);
      end := Start(l);
    } else {
      var before := FillAlone(l, n - 1, inFlight);
      end := FillOne(before, l, n - 1, inFlight);
      Then(l, Start(l), before, end, inFlight);
    }
  }

  /** k more activations all pass the check before any of them inserts. */
  lemma {:induction false} PassTogether(l: License, n: nat, k: nat, inFlight: nat) returns (end: System)
    requires Open(l) && n < l.maxDevices && k <= inFlight && inFlight >= 1
    ensures Shape(end, l, n, n, n + k) && Can(l, Start(l), end, inFlight)
  {
    if k == 0 {
      end := FillAlone(l, n, inFlight);
    } else {
      var before := PassTogether(l, n, k - 1, inFlight);
      end := PassOne(before, l, n, n, n + k - 1, inFlight);
      Then(l, Start(l), before, end, inFlight);
    }
  }

  lemma {:induction false} InsertTogether(l: License, n: nat, k: nat, inFlight: nat) returns (end: System)
    requires Open(l) && n < l.maxDevices && k <= inFlight && inFlight >= 1
    ensures Shape(end, l, n, n + k, n + inFlight) && Can(l, Start(l), end, inFlight)
  {
    if k == 0 {
      end := PassTogether(l, n, inFlight, inFlight);
    } else {
      var before := InsertTogether(l, n, k - 1, inFlight);
      end := InsertOne(before, l, n, n + k - 1, n + inFlight, inFlight);
      Then(l, Start(l), before, end, inFlight);
    }
  }

  lemma ShapeSeats(sys: System, l: License, a: nat, p: nat, b: nat)
    requires Shape(sys, l, a, p, b)
    ensures |HoldersOf(sys.server, l.key)| == p
  {
    DevsSize(p);
  }

  lemma NothingYet(l: License, inFlight: nat)
    requires l.maxDevices >= 1 && inFlight >= 1
    ensures SysInv(Start(l)) && SeatBound(Start(l), l.key, inFlight)
  {
    assert PassedOn(Start(l), l.key) == {};
    assert HoldersOf(Start(l).server, l.key) == {};
  }

  /** For every limit and every number of activations in flight the bound is reached. */
  lemma BoundIsReached(l: License, inFlight: nat) returns (moves: seq<Move>)
    requires Open(l) && l.maxDevices >= 1 && inFlight >= 1
    ensures SysInv(Start(l)) && SeatBound(Start(l), l.key, inFlight)
    ensures forall m :: 0 <= m <= |moves| ==> |FlightOn(Reach(Start(l), moves, m), l.key)| <= inFlight
    ensures |HoldersOf(Reach(Start(l), moves, |moves|).server, l.key)| == l.maxDevices - 1 + inFlight
  {
    var end := InsertTogether(l, l.maxDevices - 1, inFlight, inFlight);
    ShapeSeats(end, l, l.maxDevices - 1, l.maxDevices - 1 + inFlight, l.maxDevices - 1 + inFlight);
    NothingYet(l, inFlight);
    hide Reach, HoldersOf, FlightOn, SeatBound, SysInv, Shape;
    moves :| Leads(l, Start(l), moves, end, inFlight);
  }
}
