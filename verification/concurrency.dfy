/** What interleaved requests keep: the exact bound on seats in the number of activations in flight,
    and no grant to a request that read its license after the revocation. */
module Concurrency {
  import opened Common
  import opened Models
  import opened Seats
  import opened Licensing
  import opened Interleaving

  /** Activations of a license that have been begun and not answered. */
  function FlightOn(sys: System, key: string): set<nat> {
    set t | t in sys.flights && sys.flights[t].req.Activate? && sys.flights[t].req.key == key && !sys.flights[t].at.Ended?
  }

  /** Requests on a license that counted a free seat and have not inserted yet. */
  function PassedOn(sys: System, key: string): set<nat> {
    set t | t in sys.flights && Split(sys.flights[t].req) && sys.flights[t].req.key == key && sys.flights[t].at.Passed?
  }

  /** Requests on a license that inserted a row and have not reported it yet. */
  function InsertedOn(sys: System, key: string): set<nat> {
    set t | t in sys.flights && Split(sys.flights[t].req) && sys.flights[t].req.key == key && sys.flights[t].at.Inserted?
  }

  /** Requests on a license that freed a row and have not reported it yet. */
  function FreedOn(sys: System, key: string): set<nat> {
    set t | t in sys.flights && Split(sys.flights[t].req) && sys.flights[t].req.key == key && sys.flights[t].at.Freed?
  }

  /** Only an insert gives a seat and only a release takes one, each on its own license. */
  lemma StatementHolders(s: Server, req: Request, at: Counter, now: Time, key: string)
    requires Inv(s) && Faithful(s, Flight(req, at)) && key in s.licenses
    ensures var (s', at') := Statement(s, req, at, now);
      HoldersOf(s', key) ==
        if req.key == key && at.Passed? then HoldersOf(s, key) + {req.device}
        else if req.key == key && at.Looked? && at'.Freed? then HoldersOf(s, key) - {req.device}
        else HoldersOf(s, key)
    ensures var at' := Statement(s, req, at, now).1;
      at.Looked? && at'.Freed? && req.key == key ==> req.device in HoldersOf(s, key)
  {
    if HasRead(at) {
      SameId(s.licenses, req.key, key);
      match at {
        case Passed(l, _) => UpsertHolders(s.devices, l.id, req.device, req.name, now, s.licenses[key].id);
        case Looked(l) => FreeHolders(s.devices, l.id, req.device, now, s.licenses[key].id);
        case Touching(_, _, row) => TouchIdKeepsWellFormed(s.devices, row, now);
        case _ =>
      }
    }
  }

  lemma AdminHolders(s: Server, now: Time, req: Request, key: string)
    requires Inv(s) && key in s.licenses && !Split(req)
    ensures HoldersOf(Serve(s, now, req).0, key) == HoldersOf(s, key)
    ensures Serve(s, now, req).0.events == s.events
  {
    ServeHolders(s, now, req, key);
  }

  /** How the requests at each stage change when one request moves on. */
  lemma MovedOn(sys: System, tid: nat, s': Server, at': Counter, key: string)
    requires tid in sys.flights && Split(sys.flights[tid].req)
    ensures var sys' := System(s', sys.flights[tid := sys.flights[tid].(at := at')]);
      var own := sys.flights[tid].req.key == key;
      && PassedOn(sys', key) == (if own && at'.Passed? then PassedOn(sys, key) + {tid} else PassedOn(sys, key) - {tid})
      && InsertedOn(sys', key) == (if own && at'.Inserted? then InsertedOn(sys, key) + {tid} else InsertedOn(sys, key) - {tid})
      && FreedOn(sys', key) == (if own && at'.Freed? then FreedOn(sys, key) + {tid} else FreedOn(sys, key) - {tid})
  {
  }

  // ---- the seat bound -----------------------------------------------------------------------

  /** Seats taken or promised stay below the limit by all but the activations in flight. */
  ghost predicate SeatBound(sys: System, key: string, inFlight: nat) {
    key in sys.server.licenses
    && |HoldersOf(sys.server, key)| + |PassedOn(sys, key)| <= sys.server.licenses[key].maxDevices - 1 + inFlight
  }

  lemma Shrunk<T>(s: set<T>, x: T)
    ensures |s - {x}| == |s| - if x in s then 1 else 0
    ensures |s + {x}| == |s| + if x in s then 0 else 1
  {
    if x in s { assert s + {x} == s; }
    if x !in s { assert s - {x} == s; }
  }

  lemma AdvanceKeepsBound(sys: System, tid: nat, now: Time, key: string, inFlight: nat)
    requires SysInv(sys) && SeatBound(sys, key, inFlight) && tid in sys.flights
    requires |FlightOn(Exec(sys, Advance(tid, now)), key)| <= inFlight
    ensures SeatBound(Exec(sys, Advance(tid, now)), key, inFlight)
  {
    var f := sys.flights[tid];
    var (s', at') := Statement(sys.server, f.req, f.at, now);
    StatementKeepsTables(sys.server, f.req, f.at, now);
    StatementHolders(sys.server, f.req, f.at, now, key);
    MovedOn(sys, tid, s', at', key);
    Shrunk(PassedOn(sys, key), tid);
    Shrunk(HoldersOf(sys.server, key), f.req.device);
    if f.req.key == key && at'.Passed? {
      CountedBelow(sys.server, f, now);
      ExecKeepsInv(sys, Advance(tid, now));
      PassedInFlight(Exec(sys, Advance(tid, now)), key);
    }
    hide Statement;
  }

  /** A request passes the check only when the seats it counts leave room. */
  lemma CountedBelow(s: Server, f: Flight, now: Time)
    requires Inv(s) && Faithful(s, f) && Statement(s, f.req, f.at, now).1.Passed?
    ensures f.at.Counting? && |HoldersOf(s, f.req.key)| <= s.licenses[f.req.key].maxDevices - 1
    ensures Statement(s, f.req, f.at, now).0 == s
  {
  }

  lemma PassedInFlight(sys: System, key: string)
    requires SysInv(sys)
    ensures |PassedOn(sys, key)| <= |FlightOn(sys, key)|
  {
    forall t | t in PassedOn(sys, key) ensures t in FlightOn(sys, key) {
      assert Faithful(sys.server, sys.flights[t]);
    }
    SubsetBound(PassedOn(sys, key), FlightOn(sys, key));
  }

  lemma ExecKeepsBound(sys: System, move: Move, key: string, inFlight: nat)
    requires SysInv(sys) && SeatBound(sys, key, inFlight) && |FlightOn(Exec(sys, move), key)| <= inFlight
    ensures SeatBound(Exec(sys, move), key, inFlight)
  {
    var sys' := Exec(sys, move);
    match move {
      case Begin(tid, req) => assert PassedOn(sys', key) == PassedOn(sys, key);
      case Advance(tid, now) => if tid in sys.flights { AdvanceKeepsBound(sys, tid, now, key, inFlight); }
      case Admin(now, req) =>
        if !Split(req) {
          AdminHolders(sys.server, now, req, key);
          ServeKeepsTerms(sys.server, now, req, key);
        }
        assert PassedOn(sys', key) == PassedOn(sys, key);
    }
  }

  /** With at most inFlight activations of a license under way at any time, its active seats plus
      the requests about to insert never exceed maxDevices - 1 + inFlight. */
  lemma {:induction false} InterleavedSeatBound(sys: System, moves: seq<Move>, n: nat, key: string, inFlight: nat)
    requires SysInv(sys) && SeatBound(sys, key, inFlight) && n <= |moves|
    requires forall m :: 0 <= m <= n ==> |FlightOn(Reach(sys, moves, m), key)| <= inFlight
    ensures SeatBound(Reach(sys, moves, n), key, inFlight)
  {
    hide Exec;
    if n > 0 {
      InterleavedSeatBound(sys, moves, n - 1, key, inFlight);
      ReachKeepsInv(sys, moves, n - 1);
      assert |FlightOn(Reach(sys, moves, n), key)| <= inFlight;
      ExecKeepsBound(Reach(sys, moves, n - 1), moves[n - 1], key, inFlight);
    }
  }

  /** Activations of a license taken one at a time never exceed its limit. */
  lemma OneAtATime(sys: System, moves: seq<Move>, n: nat, key: string)
    requires SysInv(sys) && key in sys.server.licenses && n <= |moves|
    requires PassedOn(sys, key) == {} && |HoldersOf(sys.server, key)| <= sys.server.licenses[key].maxDevices
    requires forall m :: 0 <= m <= n ==> |FlightOn(Reach(sys, moves, m), key)| <= 1
    ensures key in Reach(sys, moves, n).server.licenses
    ensures |HoldersOf(Reach(sys, moves, n).server, key)| <= Reach(sys, moves, n).server.licenses[key].maxDevices
  {
    var one: nat := 1;
    hide Exec;
    assert forall m :: 0 <= m <= n ==> |FlightOn(Reach(sys, moves, m), key)| <= one;
    InterleavedSeatBound(sys, moves, n, key, one);
  }

  // ---- revocation ---------------------------------------------------------------------------

  /** The request read its license while it was not revoked, and may insert, sign or have signed. */
  predicate MayGrant(f: Flight) {
    && (f.req.Activate? || f.req.Validate?)
    && match f.at
       case Looking => false
       case Looked(l) => l.revokedAt.None?
       case Ended(reply) => reply.Granted?
       case Freed(_) => false
       case _ => true
  }

  lemma RevokedStatement(s: Server, f: Flight, now: Time)
    requires Inv(s) && Faithful(s, f)
    requires f.at.Looking? && f.req.key in s.licenses ==> s.licenses[f.req.key].revokedAt.Some?
    requires MayGrant(Flight(f.req, Statement(s, f.req, f.at, now).1))
    ensures MayGrant(f)
  {
  }

  lemma ExecAfterRevoke(sys: System, move: Move, key: string, tid: nat)
    requires SysInv(sys) && key in sys.server.licenses && sys.server.licenses[key].revokedAt.Some?
    requires tid in Exec(sys, move).flights && MayGrant(Exec(sys, move).flights[tid]) && Exec(sys, move).flights[tid].req.key == key
    ensures tid in sys.flights && MayGrant(sys.flights[tid]) && sys.flights[tid].req == Exec(sys, move).flights[tid].req
  {
    match move {
      case Advance(t, now) =>
        if t in sys.flights && t == tid { RevokedStatement(sys.server, sys.flights[t], now); }
        hide Statement;
      case Begin(_, _) =>
      case Admin(_, _) =>
    }
  }

  lemma ExecKeepsRevoked(sys: System, move: Move, key: string)
    requires SysInv(sys) && key in sys.server.licenses && sys.server.licenses[key].revokedAt.Some?
    ensures key in Exec(sys, move).server.licenses && Exec(sys, move).server.licenses[key].revokedAt.Some?
  {
    match move {
      case Advance(tid, now) =>
        if tid in sys.flights { StatementKeepsTables(sys.server, sys.flights[tid].req, sys.flights[tid].at, now); }
      case Admin(now, req) => ServeKeepsTerms(sys.server, now, req, key);
      case Begin(_, _) =>
    }
  }

  /** Once a license is revoked, the requests that can still insert or sign for it are among those
      that had read it before: one whose license read follows the revocation never does. */
  lemma {:induction false} LateReadersNeverGrant(sys: System, moves: seq<Move>, n: nat, key: string, tid: nat)
    requires SysInv(sys) && n <= |moves| && key in sys.server.licenses && sys.server.licenses[key].revokedAt.Some?
    requires var late := Reach(sys, moves, n); tid in late.flights && MayGrant(late.flights[tid]) && late.flights[tid].req.key == key
    ensures tid in sys.flights && MayGrant(sys.flights[tid])
    ensures sys.flights[tid].req == Reach(sys, moves, n).flights[tid].req
  {
    hide Exec;
    if n > 0 {
      StaysRevoked(sys, moves, n - 1, key);
      ReachKeepsInv(sys, moves, n - 1);
      ExecAfterRevoke(Reach(sys, moves, n - 1), moves[n - 1], key, tid);
      LateReadersNeverGrant(sys, moves, n - 1, key, tid);
    }
  }

  lemma {:induction false} StaysRevoked(sys: System, moves: seq<Move>, n: nat, key: string)
    requires SysInv(sys) && n <= |moves| && key in sys.server.licenses && sys.server.licenses[key].revokedAt.Some?
    ensures key in Reach(sys, moves, n).server.licenses && Reach(sys, moves, n).server.licenses[key].revokedAt.Some?
  {
    hide Exec;
    if n > 0 {
      StaysRevoked(sys, moves, n - 1, key);
      ReachKeepsInv(sys, moves, n - 1);
      ExecKeepsRevoked(Reach(sys, moves, n - 1), moves[n - 1], key);
    }
  }
}
