/** Licenses do not influence each other when requests interleave either: deleting every move that works
    on other licenses leaves a license's rows (up to row ids), events and requests in flight as they were. */
module InterleavedIndependence {
  import opened Models
  import opened Seats
  import opened Licensing
  import opened Independence
  import LicenseStore
  import opened Interleaving
  import opened InterleavedLedger
  import Saturation

  /** A request in flight on the license. */
  predicate OwnFlight(sys: System, t: nat, key: string) {
    t in sys.flights && Split(sys.flights[t].req) && sys.flights[t].req.key == key
  }

  /** Whether a move works on the license: begins or advances a request on it, or is an administrator's
      request about it. A beginning under a number in use does nothing. */
  predicate WorksOn(sys: System, move: Move, key: string, id: string) {
    match move
    case Begin(tid, req) => tid !in sys.flights && Split(req) && req.key == key
    case Advance(tid, _) => OwnFlight(sys, tid, key)
    case Admin(_, req) => !Split(req) && Concerns(req, key, id)
  }

  /** The moves among the first n that work on the license. */
  function OwnMoves(sys: System, moves: seq<Move>, n: nat, key: string, id: string): seq<Move>
    requires n <= |moves|
  {
    if n == 0 then []
    else if WorksOn(Reach(sys, moves, n - 1), moves[n - 1], key, id) then OwnMoves(sys, moves, n - 1, key, id) + [moves[n - 1]]
    else OwnMoves(sys, moves, n - 1, key, id)
  }

  /** The same request at the same counter with the same locals, the row id of its device aside. */
  predicate SameFlight(f: Flight, g: Flight) {
    f.req == g.req && if f.at.Touching? && g.at.Touching? then f.at.(row := 0) == g.at.(row := 0) else f.at == g.at
  }

  /** Two systems agree on the requests in flight on the license. */
  ghost predicate SameFlights(a: System, b: System, key: string) {
    && (forall t :: t in b.flights ==> t in a.flights)
    && (forall t :: OwnFlight(a, t, key) <==> OwnFlight(b, t, key))
    && (forall t :: OwnFlight(a, t, key) ==> SameFlight(a.flights[t], b.flights[t]))
  }

  /** Two systems agree on everything about the license, or on there being none yet. */
  ghost predicate AlikeSystems(a: System, b: System, key: string, id: string) {
    Alike(a.server, b.server, key, id) && SameFlights(a, b, key)
  }

  // ---- the license's own statements ---------------------------------------------------------

  lemma SameAfterTouchId(a: Table, b: Table, id: string, d: string, p: nat, q: nat, now: Time)
    requires WellFormed(a) && WellFormed(b) && SameSeats(a, b, id)
    requires (id, d) in a.rows && (id, d) in b.rows && a.rows[(id, d)].id == p && b.rows[(id, d)].id == q
    ensures SameSeats(TouchId(a, p, now), TouchId(b, q, now), id)
  {
    TouchIdIsTouch(a, (id, d), now);
    TouchIdIsTouch(b, (id, d), now);
    hide TouchId;
    var x, y := a.rows[(id, d)], b.rows[(id, d)];
    assert x.(id := 0) == y.(id := 0);
    assert x.(lastSeenAt := now, id := 0) == y.(lastSeenAt := now, id := 0);
    SameAfterUpdate(a, b, id, d, x.(lastSeenAt := now), y.(lastSeenAt := now));
  }

  /** The license a request has read has the license's id. */
  lemma OwnId(a: Server, f: Flight, key: string, id: string)
    requires Faithful(a, f) && HasRead(f.at) && f.req.key == key && a.licenses[key].id == id
    ensures f.at.l.id == id && f.at.l.key == key
  {
  }

  lemma OwnRelease(a: Server, b: Server, l: License, req: Request, now: Time)
    requires req.Deactivate? && req.key == l.key && Same(a, b, l.key, l.id)
    ensures var (a', p) := Statement(a, req, Looked(l), now);
      var (b', q) := Statement(b, req, Looked(l), now);
      Same(a', b', l.key, l.id) && p == q
  {
    SameHolders(a.devices, b.devices, l.id);
    if req.device in Holders(a.devices, l.id) {
      SameAfterTouchAndFree(a.devices, b.devices, l.id, req.device, now);
    }
    hide EventsOf, SameSeats, Holders, Free;
  }

  lemma OwnInsert(a: Server, b: Server, l: License, asOf: Time, req: Request, now: Time)
    requires Inv(a) && Inv(b) && req.Activate? && req.key == l.key && Same(a, b, l.key, l.id)
    ensures var (a', p) := Statement(a, req, Passed(l, asOf), now);
      var (b', q) := Statement(b, req, Passed(l, asOf), now);
      Same(a', b', l.key, l.id) && p == q
  {
    SameAfterUpsert(a.devices, b.devices, l.id, req.device, req.name, now);
    hide EventsOf, SameSeats, Upsert;
  }

  lemma OwnReport(a: Server, b: Server, l: License, at: Counter, req: Request, now: Time)
    requires Split(req) && Same(a, b, l.key, l.id) && (at.Inserted? || at.Freed?) && at.l == l
    ensures var (a', p) := Statement(a, req, at, now);
      var (b', q) := Statement(b, req, at, now);
      Same(a', b', l.key, l.id) && p == q
  {
    var e := Event(if at.Inserted? then Activation else Deactivation, l.key, l.product, l.customer, req.device, now);
    SameEvent(a.events, e, l.key);
    SameEvent(b.events, e, l.key);
    hide EventsOf, SameSeats;
  }

  lemma OwnTouch(a: Server, b: Server, f: Flight, g: Flight, now: Time, key: string, id: string)
    requires Inv(a) && Inv(b) && Faithful(a, f) && Faithful(b, g)
    requires Same(a, b, key, id) && f.req.key == key && SameFlight(f, g) && f.at.Touching?
    ensures var (a', p) := Statement(a, f.req, f.at, now);
      var (b', q) := Statement(b, g.req, g.at, now);
      Same(a', b', key, id) && p == q
  {
    OwnId(a, f, key, id);
    SameAfterTouchId(a.devices, b.devices, id, f.req.device, f.at.row, g.at.row, now);
    hide EventsOf, SameSeats, TouchId, Inv;
  }

  /** The statements that only read. */
  lemma OwnRead(a: Server, b: Server, at: Counter, req: Request, now: Time, key: string, id: string)
    requires Split(req) && Same(a, b, key, id) && req.key == key
    requires HasRead(at) ==> at.l.id == id
    requires !at.Touching? && !at.Inserted? && !at.Freed? && !at.Passed? && !(at.Looked? && req.Deactivate?)
    ensures var (a', p) := Statement(a, req, at, now);
      var (b', q) := Statement(b, req, at, now);
      a' == a && b' == b && SameFlight(Flight(req, p), Flight(req, q))
  {
    SameHolders(a.devices, b.devices, id);
    hide EventsOf, SameSeats, TouchId, Upsert, Free;
  }

  /** What the statement reads of the tables is alike, so the locals and the tables stay alike. */
  lemma OwnStatement(a: Server, b: Server, f: Flight, g: Flight, now: Time, key: string, id: string)
    requires Inv(a) && Inv(b) && Faithful(a, f) && Faithful(b, g)
    requires Same(a, b, key, id) && f.req.key == key && SameFlight(f, g)
    ensures var (a', p) := Statement(a, f.req, f.at, now);
      var (b', q) := Statement(b, g.req, g.at, now);
      Same(a', b', key, id) && SameFlight(f.(at := p), g.(at := q))
  {
    hide Statement, Inv, EventsOf, SameSeats;
    if HasRead(f.at) { OwnId(a, f, key, id); }
    if f.at.Touching? {
      OwnTouch(a, b, f, g, now, key, id);
    } else {
      assert f == g;
      match f.at {
        case Looked(l) =>
          if f.req.Deactivate? { OwnRelease(a, b, l, f.req, now); } else { OwnRead(a, b, f.at, f.req, now, key, id); }
        case Passed(l, asOf) => OwnInsert(a, b, l, asOf, f.req, now);
        case Inserted(l, _) => OwnReport(a, b, l, f.at, f.req, now);
        case Freed(l) => OwnReport(a, b, l, f.at, f.req, now);
        case _ => OwnRead(a, b, f.at, f.req, now, key, id);
      }
    }
  }

  // ---- statements on other licenses ---------------------------------------------------------

  lemma ForeignStatement(a: Server, f: Flight, now: Time, key: string)
    requires Inv(a) && Faithful(a, f) && key in a.licenses && f.req.key != key
    ensures Same(Statement(a, f.req, f.at, now).0, a, key, a.licenses[key].id)
  {
    hide EventsOf, SameSeats;
    ForeignSeatsKept(a, f, now, key);
    ForeignEventsKept(a, f, now, key);
    StatementKeepsTables(a, f.req, f.at, now);
    hide Statement, Inv, Faithful;
  }

  /** Only the two reporting statements append to the log. */
  lemma StatementLog(a: Server, req: Request, at: Counter, now: Time)
    requires Split(req)
    ensures Statement(a, req, at, now).0.events == a.events +
      if at.Inserted? then [Event(Activation, at.l.key, at.l.product, at.l.customer, req.device, now)]
      else if at.Freed? then [Event(Deactivation, at.l.key, at.l.product, at.l.customer, req.device, now)]
      else []
  {
    hide Upsert, Free, TouchId, Licensing.Sign;
    assert a.events + [] == a.events;
  }

  lemma ForeignEventsKept(a: Server, f: Flight, now: Time, key: string)
    requires Faithful(a, f) && f.req.key != key
    ensures EventsOf(Statement(a, f.req, f.at, now).0.events, key) == EventsOf(a.events, key)
  {
    hide Statement, EventsOf;
    StatementLog(a, f.req, f.at, now);
    assert a.events + [] == a.events;
    if f.at.Inserted? || f.at.Freed? {
      var l, kind := f.at.l, if f.at.Inserted? then Activation else Deactivation;
      SameEvent(a.events, Event(kind, l.key, l.product, l.customer, f.req.device, now), key);
    }
  }

  lemma ForeignSeatsKept(a: Server, f: Flight, now: Time, key: string)
    requires Inv(a) && Faithful(a, f) && key in a.licenses && f.req.key != key
    ensures SameSeats(Statement(a, f.req, f.at, now).0.devices, a.devices, a.licenses[key].id)
  {
    var id := a.licenses[key].id;
    SelfSame(a.devices, id);
    if HasRead(f.at) {
      var l := f.at.l;
      SameId(a.licenses, f.req.key, key);
      ForeignSeats(a.devices, now, l.id, f.req.device, if f.req.Activate? then f.req.name else "", id);
      if f.at.Touching? { ForeignTouch(a.devices, (l.id, f.req.device), now, id); }
    }
    hide SameSeats, Inv, Holders, Upsert, Free, TouchId, Touch;
  }

  lemma SelfSame(t: Table, id: string)
    ensures SameSeats(t, t, id)
  {
  }

  lemma ForeignTouch(t: Table, k: SeatKey, now: Time, id: string)
    requires WellFormed(t) && k in t.rows && k.0 != id
    ensures SameSeats(TouchId(t, t.rows[k].id, now), t, id)
  {
    TouchIdIsTouch(t, k, now);
  }

  // ---- statements while there is no such license --------------------------------------------

  lemma AbsentStatement(a: Server, f: Flight, now: Time, key: string, id: string)
    requires Inv(a) && Faithful(a, f) && Absent(a, key, id)
    ensures var (a', p) := Statement(a, f.req, f.at, now);
      && Absent(a', key, id) && EventsOf(a'.events, key) == EventsOf(a.events, key)
      && (f.req.key == key ==> a' == a && p == if f.at.Looking? then Ended(NotFound) else f.at)
  {
    if HasRead(f.at) {
      var l := f.at.l;
      SameEvent(a.events, Event(Activation, l.key, l.product, l.customer, f.req.device, now), key);
      SameEvent(a.events, Event(Deactivation, l.key, l.product, l.customer, f.req.device, now), key);
    }
    hide EventsOf, Inv, Holders, Upsert, Free, TouchId;
  }

  // ---- one move -----------------------------------------------------------------------------

  lemma AdvanceAlike(a: System, b: System, tid: nat, now: Time, key: string, id: string)
    requires SysInv(a) && SysInv(b) && AlikeSystems(a, b, key, id) && OwnFlight(a, tid, key)
    ensures var (s, p) := Statement(a.server, a.flights[tid].req, a.flights[tid].at, now);
      var (u, q) := Statement(b.server, b.flights[tid].req, b.flights[tid].at, now);
      Alike(s, u, key, id) && SameFlight(a.flights[tid].(at := p), b.flights[tid].(at := q))
  {
    hide Statement, EventsOf, Inv;
    if Same(a.server, b.server, key, id) {
      OwnStatement(a.server, b.server, a.flights[tid], b.flights[tid], now, key, id);
    } else {
      AbsentStatement(a.server, a.flights[tid], now, key, id);
      AbsentStatement(b.server, b.flights[tid], now, key, id);
    }
  }

  lemma FlightsMoved(a: System, b: System, tid: nat, f: Flight, g: Flight, s: Server, u: Server, key: string)
    requires SameFlights(a, b, key) && SameFlight(f, g) && Split(f.req) && f.req.key == key
    ensures SameFlights(System(s, a.flights[tid := f]), System(u, b.flights[tid := g]), key)
  {
    var a', b' := System(s, a.flights[tid := f]), System(u, b.flights[tid := g]);
    forall t ensures OwnFlight(a', t, key) <==> OwnFlight(b', t, key) {
      assert t != tid ==> (OwnFlight(a', t, key) <==> OwnFlight(a, t, key)) && (OwnFlight(b', t, key) <==> OwnFlight(b, t, key));
    }
    forall t | OwnFlight(a', t, key) ensures SameFlight(a'.flights[t], b'.flights[t]) {
      assert t != tid ==> OwnFlight(a, t, key);
    }
  }

  lemma FlightsApart(a: System, b: System, tid: nat, f: Flight, s: Server, key: string)
    requires SameFlights(a, b, key) && !OwnFlight(a, tid, key) && !(Split(f.req) && f.req.key == key)
    ensures SameFlights(System(s, a.flights[tid := f]), b, key)
  {
  }

  /** A move that works on the license has the same effect on it in both systems. */
  lemma OwnMove(a: System, b: System, move: Move, key: string, id: string)
    requires SysInv(a) && SysInv(b) && AlikeSystems(a, b, key, id) && WorksOn(a, move, key, id)
    requires key !in a.server.licenses && move.Admin? ==>
      if move.req.Create? then move.req.id == id else !LicenseStore.HasId(Exec(a, move).server.licenses, id)
    ensures AlikeSystems(Exec(a, move), Exec(b, move), key, id)
  {
    hide Statement, Serve, Alike, SameFlights, Inv, SysInv;
    match move {
      case Begin(tid, req) =>
        assert tid !in b.flights by { Numbers(a, b, key, tid); }
        FlightsMoved(a, b, tid, Flight(req, Looking), Flight(req, Looking), a.server, b.server, key);
      case Advance(tid, now) =>
        AdvanceAlike(a, b, tid, now, key, id);
        Numbers(a, b, key, tid);
        var f, g := a.flights[tid], b.flights[tid];
        var (s, p) := Statement(a.server, f.req, f.at, now);
        var (u, q) := Statement(b.server, g.req, g.at, now);
        FlightsMoved(a, b, tid, f.(at := p), g.(at := q), s, u, key);
      case Admin(now, req) =>
        Servers(a, b);
        AlikeStep(a.server, b.server, now, req, key, id);
        OtherServers(a, b, Exec(a, move).server, Exec(b, move).server, key);
    }
  }

  lemma Numbers(a: System, b: System, key: string, tid: nat)
    requires SameFlights(a, b, key)
    ensures tid in b.flights ==> tid in a.flights
    ensures OwnFlight(a, tid, key) ==> OwnFlight(b, tid, key) && SameFlight(a.flights[tid], b.flights[tid])
  {
  }

  lemma Servers(a: System, b: System)
    requires SysInv(a) && SysInv(b)
    ensures Inv(a.server) && Inv(b.server)
  {
  }

  lemma OtherServers(a: System, b: System, s: Server, u: Server, key: string)
    requires SameFlights(a, b, key)
    ensures SameFlights(a.(server := s), b.(server := u), key)
  {
    var a', b' := a.(server := s), b.(server := u);
    assert forall t :: OwnFlight(a', t, key) <==> OwnFlight(a, t, key);
    assert forall t :: OwnFlight(b', t, key) <==> OwnFlight(b, t, key);
  }

  /** Any other move changes nothing of it. */
  lemma OtherMove(a: System, b: System, move: Move, key: string, id: string)
    requires SysInv(a) && AlikeSystems(a, b, key, id) && !WorksOn(a, move, key, id)
    requires key !in a.server.licenses && move.Admin? ==> !LicenseStore.HasId(Exec(a, move).server.licenses, id)
    ensures AlikeSystems(Exec(a, move), b, key, id)
  {
    hide Statement, Serve, SameFlights, Inv, EventsOf, SameSeats;
    match move {
      case Begin(tid, req) =>
        if tid !in a.flights && Split(req) { FlightsApart(a, b, tid, Flight(req, Looking), a.server, key); }
      case Advance(tid, now) =>
        if tid in a.flights {
          var f := a.flights[tid];
          assert Faithful(a.server, f);
          var (s, p) := Statement(a.server, f.req, f.at, now);
          OtherStatement(a.server, b.server, f, now, key, id);
          FlightsApart(a, b, tid, f.(at := p), s, key);
        }
      case Admin(now, req) =>
        if !Split(req) {
          OtherAdmin(a.server, b.server, now, req, key, id);
          OtherServers(a, b, Exec(a, move).server, b.server, key);
        }
    }
  }

  lemma OtherStatement(a: Server, b: Server, f: Flight, now: Time, key: string, id: string)
    requires Inv(a) && Faithful(a, f) && f.req.key != key && Alike(a, b, key, id)
    ensures Alike(Statement(a, f.req, f.at, now).0, b, key, id)
  {
    hide Statement, Inv, EventsOf;
    if Same(a, b, key, id) {
      ForeignStatement(a, f, now, key);
    } else {
      AbsentStatement(a, f, now, key, id);
    }
  }

  lemma OtherAdmin(a: Server, b: Server, now: Time, req: Request, key: string, id: string)
    requires Inv(a) && Alike(a, b, key, id) && !Concerns(req, key, id)
    requires key !in a.licenses ==> !LicenseStore.HasId(Serve(a, now, req).0.licenses, id)
    ensures Alike(Serve(a, now, req).0, b, key, id)
  {
    hide Serve, Inv, EventsOf;
    if Same(a, b, key, id) {
      StillSame(a, b, now, req, key, id);
    } else {
      KeyStaysFree(a, now, req, key);
      AbsentEvents(a, now, req, key);
    }
  }

  // ---- runs ---------------------------------------------------------------------------------

  lemma Appended(sys: System, moves: seq<Move>, move: Move)
    ensures Reach(sys, moves + [move], |moves| + 1) == Exec(Reach(sys, moves, |moves|), move)
  {
    hide Exec;
    Saturation.ReachJoined(sys, moves, [move], |moves|);
  }

  lemma SameSelf(sys: System, key: string, id: string)
    requires Alike(sys.server, sys.server, key, id)
    ensures AlikeSystems(sys, sys, key, id)
  {
  }

  lemma OneMoreAlike(sys: System, moves: seq<Move>, n: nat, key: string, id: string)
    requires SysInv(sys) && n < |moves|
    requires var own := OwnMoves(sys, moves, n, key, id); AlikeSystems(Reach(sys, moves, n), Reach(sys, own, |own|), key, id)
    requires key !in Reach(sys, moves, n).server.licenses && moves[n].Admin? ==>
      if moves[n].req.Create? && moves[n].req.key == key then moves[n].req.id == id
      else !LicenseStore.HasId(Reach(sys, moves, n + 1).server.licenses, id)
    ensures var own := OwnMoves(sys, moves, n + 1, key, id); AlikeSystems(Reach(sys, moves, n + 1), Reach(sys, own, |own|), key, id)
  {
    hide Exec, AlikeSystems, SysInv;
    var own, a := OwnMoves(sys, moves, n, key, id), Reach(sys, moves, n);
    ReachKeepsInv(sys, moves, n);
    ReachKeepsInv(sys, own, |own|);
    if WorksOn(a, moves[n], key, id) {
      OwnMove(a, Reach(sys, own, |own|), moves[n], key, id);
      Appended(sys, own, moves[n]);
    } else {
      OtherMove(a, Reach(sys, own, |own|), moves[n], key, id);
    }
  }

  /** In every interleaved run only the moves that work on a license matter to it. */
  lemma {:induction false} InterleavedIndependent(sys: System, moves: seq<Move>, n: nat, key: string)
    requires SysInv(sys) && n <= |moves| && key in sys.server.licenses
    ensures key in Reach(sys, moves, n).server.licenses
    ensures var id := sys.server.licenses[key].id;
      var own := OwnMoves(sys, moves, n, key, id);
      AlikeSystems(Reach(sys, moves, n), Reach(sys, own, |own|), key, id)
  {
    hide Exec, AlikeSystems, SysInv;
    if n == 0 {
      StartSame(sys.server, key);
      SameSelf(sys, key, sys.server.licenses[key].id);
    } else {
      InterleavedIndependent(sys, moves, n - 1, key);
      ReachKeepsInv(sys, moves, n - 1);
      OneMoreAlike(sys, moves, n - 1, key, sys.server.licenses[key].id);
      ExecSurplus(Reach(sys, moves, n - 1), moves[n - 1], key);
    }
  }

  // ---- runs that make the license themselves ------------------------------------------------

  /** Move c is the first to create a license with the key. */
  ghost predicate MakesIt(moves: seq<Move>, c: nat, key: string) {
    && c < |moves| && moves[c].Admin? && moves[c].req.Create? && moves[c].req.key == key
    && forall j :: 0 <= j < c && moves[j].Admin? && moves[j].req.Create? ==> moves[j].req.key != key
  }

  lemma IdKept(sys: System, move: Move, id: string)
    requires SysInv(sys) && LicenseStore.HasId(sys.server.licenses, id)
    ensures LicenseStore.HasId(Exec(sys, move).server.licenses, id)
  {
    match move {
      case Advance(tid, now) =>
        if tid in sys.flights { StatementKeepsTables(sys.server, sys.flights[tid].req, sys.flights[tid].at, now); }
      case Admin(now, req) => IdStays(sys.server, now, req, id);
      case Begin(_, _) =>
    }
    hide Statement, Serve;
  }

  lemma {:induction false} IdKeptInUse(sys: System, moves: seq<Move>, m: nat, n: nat, id: string)
    requires SysInv(sys) && m <= n <= |moves| && LicenseStore.HasId(Reach(sys, moves, m).server.licenses, id)
    ensures LicenseStore.HasId(Reach(sys, moves, n).server.licenses, id)
    decreases n
  {
    hide Exec, SysInv;
    if m < n {
      IdKeptInUse(sys, moves, m, n - 1, id);
      ReachKeepsInv(sys, moves, n - 1);
      IdKept(Reach(sys, moves, n - 1), moves[n - 1], id);
    }
  }

  lemma Made(sys: System, move: Move, key: string)
    requires move.Admin? && move.req.Create? && move.req.key == key
    requires key in sys.server.licenses || !LicenseStore.HasId(sys.server.licenses, move.req.id)
    ensures key in Exec(sys, move).server.licenses
  {
  }

  lemma KeyKept(sys: System, move: Move, key: string)
    requires SysInv(sys) && key in sys.server.licenses
    ensures key in Exec(sys, move).server.licenses
  {
    ExecSurplus(sys, move, key);
  }

  /** The same for a license the run makes itself, if its id is still free when it is made. */
  lemma {:induction false} InterleavedFromCreation(sys: System, moves: seq<Move>, n: nat, c: nat, key: string)
    requires SysInv(sys) && n <= |moves| && MakesIt(moves, c, key) && Absent(sys.server, key, moves[c].req.id)
    requires !LicenseStore.HasId(Reach(sys, moves, c).server.licenses, moves[c].req.id)
    ensures c < n ==> key in Reach(sys, moves, n).server.licenses
    ensures var id := moves[c].req.id;
      var own := OwnMoves(sys, moves, n, key, id);
      AlikeSystems(Reach(sys, moves, n), Reach(sys, own, |own|), key, id)
  {
    hide Exec, AlikeSystems, SysInv, OwnMoves;
    var id := moves[c].req.id;
    if n == 0 {
      StartAlike(sys.server, key, id);
      SameSelf(sys, key, id);
      NoMoves(sys, moves, key, id);
    } else {
      InterleavedFromCreation(sys, moves, n - 1, c, key);
      ReachKeepsInv(sys, moves, n - 1);
      if n <= c && LicenseStore.HasId(Reach(sys, moves, n).server.licenses, id) { IdKeptInUse(sys, moves, n, c, id); }
      OneMoreAlike(sys, moves, n - 1, key, id);
      if n - 1 == c {
        Made(Reach(sys, moves, c), moves[c], key);
      } else if c < n - 1 {
        KeyKept(Reach(sys, moves, n - 1), moves[n - 1], key);
      }
    }
  }

  lemma NoMoves(sys: System, moves: seq<Move>, key: string, id: string)
    ensures OwnMoves(sys, moves, 0, key, id) == []
  {
  }
}
