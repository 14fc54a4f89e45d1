/** Requests broken into single SQL statements. The store runs one statement at a time on its only
    connection (store/store.go:38-40) and nothing spans check and insert (license/service.go:94-107),
    so a request in flight is a program counter and what it has read so far. */
module Interleaving {
  import opened Models
  import opened Seats
  import opened Licensing
  import opened SeatTheorems

  datatype Counter =
    | Looking                                        // about to read the license
    | Looked(l: License)                             // read it
    | Checked(l: License, asOf: Time)                // found it active on its own clock reading
    | Counting(l: License, asOf: Time)               // found no active row
    | Passed(l: License, asOf: Time)                 // counted fewer seats than the limit
    | Inserted(l: License, asOf: Time)               // inserted or revived its row
    | Touching(l: License, asOf: Time, row: nat)     // found its active row
    | Recounting(l: License, asOf: Time)             // about to count seats for the token
    | Freed(l: License)                              // freed its row
    | Ended(reply: Reply)

  datatype Flight = Flight(req: Request, at: Counter)

  datatype System = System(server: Server, flights: map<nat, Flight>)

  const EMPTY_SYSTEM := System(EMPTY_SERVER, map[])

  datatype Move =
    | Begin(tid: nat, req: Request)
    | Advance(tid: nat, now: Time)
    | Admin(now: Time, req: Request)

  predicate Split(req: Request) {
    req.Activate? || req.Validate? || req.Deactivate?
  }

  /** The next statement of a request. */
  function Statement(s: Server, req: Request, at: Counter, now: Time): (Server, Counter)
    requires Split(req)
  {
    match at
    case Looking =>
      if req.key in s.licenses then (s, Looked(s.licenses[req.key])) else (s, Ended(NotFound))
    case Looked(l) =>
      if req.Deactivate? then
        if req.device in Holders(s.devices, l.id) then (s.(devices := Free(s.devices, l.id, req.device, now)), Freed(l))
        else (s, Ended(NotFound))
      else if l.Status(now) != Active then (s, Ended(NotActive(l.Status(now))))
      else (s, Checked(l, now))
    case Checked(l, asOf) =>
      if req.device in Holders(s.devices, l.id) then (s, Touching(l, asOf, s.devices.rows[(l.id, req.device)].id))
      else if req.Activate? then (s, Counting(l, asOf))
      else (s, Ended(NotFound))
    case Counting(l, asOf) =>
      if |Holders(s.devices, l.id)| >= l.maxDevices then (s, Ended(DeviceLimit)) else (s, Passed(l, asOf))
    case Passed(l, asOf) =>
      (s.(devices := Upsert(s.devices, l.id, req.device, if req.Activate? then req.name else "", now)), Inserted(l, asOf))
    case Inserted(l, asOf) =>
      (Notify(s, Activation, l, req.device, now), Recounting(l, asOf))
    case Touching(l, asOf, row) =>
      (s.(devices := TouchId(s.devices, row, now)), Recounting(l, asOf))
    case Recounting(l, asOf) =>
      (s, Ended(Granted(Sign(l, req.device, |Holders(s.devices, l.id)|, asOf, req.Activate? && req.offline))))
    case Freed(l) =>
      (Notify(s, Deactivation, l, req.device, now), Ended(Done))
    case Ended(_) => (s, at)
  }

  function Exec(sys: System, move: Move): System {
    match move
    case Begin(tid, req) =>
      if tid in sys.flights || !Split(req) then sys else sys.(flights := sys.flights[tid := Flight(req, Looking)])
    case Advance(tid, now) =>
      if tid !in sys.flights || !Split(sys.flights[tid].req) then sys
      else
        var f := sys.flights[tid];
        var (s, at) := Statement(sys.server, f.req, f.at, now);
        System(s, sys.flights[tid := f.(at := at)])
    case Admin(now, req) =>
      if Split(req) then sys else sys.(server := Serve(sys.server, now, req).0)
  }

  function Reach(sys: System, moves: seq<Move>, n: nat): System
    requires n <= |moves|
  {
    if n == 0 then sys else Exec(Reach(sys, moves, n - 1), moves[n - 1])
  }

  // ---- one request alone is one atomic step -------------------------------------------------

  function Drive(s: Server, req: Request, at: Counter, now: Time, steps: nat): (Server, Counter)
    requires Split(req)
    decreases steps
  {
    if steps == 0 then (s, at)
    else
      var (s', at') := Statement(s, req, at, now);
      Drive(s', req, at', now, steps - 1)
  }

  lemma {:induction false} DriveEnded(s: Server, req: Request, reply: Reply, now: Time, steps: nat)
    requires Split(req)
    ensures Drive(s, req, Ended(reply), now, steps) == (s, Ended(reply))
  {
    if steps > 0 { DriveEnded(s, req, reply, now, steps - 1); }
  }

  lemma DriveOne(s: Server, req: Request, at: Counter, now: Time, steps: nat)
    requires Split(req) && steps > 0
    ensures var (s', at') := Statement(s, req, at, now);
      Drive(s, req, at, now, steps) == Drive(s', req, at', now, steps - 1)
  {
  }

  lemma DriveToken(s: Server, req: Request, l: License, now: Time, steps: nat)
    requires Split(req) && steps > 0
    ensures Drive(s, req, Recounting(l, now), now, steps)
         == (s, Ended(Granted(Sign(l, req.device, |Holders(s.devices, l.id)|, now, req.Activate? && req.offline))))
  {
    DriveOne(s, req, Recounting(l, now), now, steps);
    DriveEnded(s, req, Granted(Sign(l, req.device, |Holders(s.devices, l.id)|, now, req.Activate? && req.offline)), now, steps - 1);
  }

  lemma DriveTouch(s: Server, req: Request, l: License, now: Time, steps: nat)
    requires Split(req) && !req.Deactivate? && steps >= 3 && WellFormed(s.devices) && req.device in Holders(s.devices, l.id)
    ensures var s' := s.(devices := Touch(s.devices, (l.id, req.device), now));
      Drive(s, req, Checked(l, now), now, steps)
         == (s', Ended(Granted(Sign(l, req.device, |Holders(s'.devices, l.id)|, now, req.Activate? && req.offline))))
  {
    var k := (l.id, req.device);
    assert TouchId(s.devices, s.devices.rows[k].id, now) == Touch(s.devices, k, now) by { TouchIdIsTouch(s.devices, k, now); }
    hide Drive, Touch, TouchId;
    DriveOne(s, req, Checked(l, now), now, steps);
    DriveOne(s, req, Touching(l, now, s.devices.rows[k].id), now, steps - 1);
    DriveToken(s.(devices := Touch(s.devices, k, now)), req, l, now, steps - 2);
  }

  lemma DriveInsert(s: Server, req: Request, l: License, now: Time, steps: nat)
    requires req.Activate? && steps >= 5 && req.device !in Holders(s.devices, l.id) && |Holders(s.devices, l.id)| < l.maxDevices
    ensures var s' := Notify(s.(devices := Upsert(s.devices, l.id, req.device, req.name, now)), Activation, l, req.device, now);
      Drive(s, req, Checked(l, now), now, steps)
         == (s', Ended(Granted(Sign(l, req.device, |Holders(s'.devices, l.id)|, now, req.offline))))
  {
    DriveOne(s, req, Checked(l, now), now, steps);
    DriveOne(s, req, Counting(l, now), now, steps - 1);
    DriveOne(s, req, Passed(l, now), now, steps - 2);
    var u := s.(devices := Upsert(s.devices, l.id, req.device, req.name, now));
    DriveOne(u, req, Inserted(l, now), now, steps - 3);
    DriveToken(Notify(u, Activation, l, req.device, now), req, l, now, steps - 4);
  }

  lemma DriveRefused(s: Server, req: Request, l: License, now: Time, steps: nat)
    requires Split(req) && !req.Deactivate? && steps >= 2 && req.device !in Holders(s.devices, l.id)
    requires req.Activate? ==> |Holders(s.devices, l.id)| >= l.maxDevices
    ensures Drive(s, req, Checked(l, now), now, steps) == (s, Ended(if req.Activate? then DeviceLimit else NotFound))
  {
    DriveOne(s, req, Checked(l, now), now, steps);
    if req.Activate? {
      DriveOne(s, req, Counting(l, now), now, steps - 1);
      DriveEnded(s, req, DeviceLimit, now, steps - 2);
    } else {
      DriveEnded(s, req, NotFound, now, steps - 1);
    }
  }

  lemma DriveDeactivate(s: Server, req: Request, l: License, now: Time, steps: nat)
    requires req.Deactivate? && steps >= 2
    ensures Drive(s, req, Looked(l), now, steps) ==
      if req.device in Holders(s.devices, l.id) then
        (Notify(s.(devices := Free(s.devices, l.id, req.device, now)), Deactivation, l, req.device, now), Ended(Done))
      else (s, Ended(NotFound))
  {
    DriveOne(s, req, Looked(l), now, steps);
    if req.device in Holders(s.devices, l.id) {
      var u := s.(devices := Free(s.devices, l.id, req.device, now));
      DriveOne(u, req, Freed(l), now, steps - 1);
      DriveEnded(Notify(u, Deactivation, l, req.device, now), req, Done, now, steps - 2);
    } else {
      DriveEnded(s, req, NotFound, now, steps - 1);
    }
  }

  /** Seven statements run without interruption do exactly what the atomic request does. */
  lemma AloneIsAtomic(s: Server, req: Request, now: Time)
    requires Split(req) && Inv(s)
    ensures Drive(s, req, Looking, now, 7) == (Serve(s, now, req).0, Ended(Serve(s, now, req).1))
  {
    hide Drive;
    DriveOne(s, req, Looking, now, 7);
    if req.key !in s.licenses {
      DriveEnded(s, req, NotFound, now, 6);
    } else {
      var l := s.licenses[req.key];
      if req.Deactivate? {
        DriveDeactivate(s, req, l, now, 6);
      } else {
        DriveOne(s, req, Looked(l), now, 6);
        if l.Status(now) != Active {
          DriveEnded(s, req, NotActive(l.Status(now)), now, 5);
        } else if req.device in Holders(s.devices, l.id) {
          DriveTouch(s, req, l, now, 5);
        } else if req.Activate? && |Holders(s.devices, l.id)| < l.maxDevices {
          DriveInsert(s, req, l, now, 5);
        } else {
          DriveRefused(s, req, l, now, 5);
        }
      }
    }
  }

  // ---- what every statement keeps -----------------------------------------------------------

  predicate HasRead(at: Counter) {
    !at.Looking? && !at.Ended?
  }

  /** What a request has read about its license is still true of it, except perhaps its revocation. */
  ghost predicate Faithful(s: Server, f: Flight) {
    && Split(f.req)
    && (HasRead(f.at) ==>
         && f.at.l.key == f.req.key && f.req.key in s.licenses
         && s.licenses[f.req.key].SameTerms(f.at.l)
         && (f.at.l.revokedAt.Some? ==> s.licenses[f.req.key].revokedAt.Some?))
    && (HasRead(f.at) && !f.at.Looked? ==> (f.req.Deactivate? <==> f.at.Freed?))
    && (f.at.Counting? || f.at.Passed? || f.at.Inserted? ==> f.req.Activate?)
    && (HasRead(f.at) && !f.at.Looked? && !f.at.Freed? ==> f.at.l.revokedAt.None?)
    && (f.at.Touching? ==> var k := (f.at.l.id, f.req.device);
         k in s.devices.rows && s.devices.rows[k].id == f.at.row)
  }

  ghost predicate SysInv(sys: System) {
    && Inv(sys.server)
    && forall tid :: tid in sys.flights ==> Faithful(sys.server, sys.flights[tid])
  }

  lemma StatementKeepsTables(s: Server, req: Request, at: Counter, now: Time)
    requires Inv(s) && Faithful(s, Flight(req, at))
    ensures Inv(Statement(s, req, at, now).0) && Statement(s, req, at, now).0.licenses == s.licenses
  {
    match at {
      case Passed(l, _) =>
        UpsertKeepsWellFormed(s.devices, l.id, req.device, req.name, now);
        SeatsKeepInv(s, s.(devices := Upsert(s.devices, l.id, req.device, req.name, now)), req.key);
      case Touching(l, _, row) =>
        TouchIdKeepsWellFormed(s.devices, row, now);
        SeatsKeepInv(s, s.(devices := TouchId(s.devices, row, now)), req.key);
      case Looked(l) =>
        if req.Deactivate? && req.device in Holders(s.devices, l.id) { DeviceUpdatesKeepInv(s, now, req.key, req.device); }
      case _ =>
    }
  }

  lemma StatementKeepsRows(s: Server, req: Request, at: Counter, now: Time)
    requires Split(req)
    ensures Preserves(s.devices, Statement(s, req, at, now).0.devices)
  {
  }

  lemma StatementIsFaithful(s: Server, req: Request, at: Counter, now: Time)
    requires Inv(s) && Faithful(s, Flight(req, at))
    ensures Faithful(s, Flight(req, Statement(s, req, at, now).1))
  {
    hide Upsert, TouchId, Free, Licensing.Notify, Licensing.Sign;
  }

  lemma RowsKeepFaith(s: Server, s': Server, f: Flight)
    requires Faithful(s, f) && s'.licenses == s.licenses && Preserves(s.devices, s'.devices)
    ensures Faithful(s', f)
  {
  }

  lemma TouchIdKeepsWellFormed(t: Table, row: nat, now: Time)
    requires WellFormed(t)
    ensures WellFormed(TouchId(t, row, now))
    ensures forall l :: Holders(TouchId(t, row, now), l) == Holders(t, l)
  {
    var u := TouchId(t, row, now);
    assert forall k :: k in u.rows ==> u.rows[k].id == t.rows[k].id;
    forall l ensures Holders(u, l) == Holders(t, l) {
      assert forall d :: (l, d) in u.rows <==> (l, d) in t.rows;
    }
  }

  lemma ExecKeepsInv(sys: System, move: Move)
    requires SysInv(sys)
    ensures SysInv(Exec(sys, move))
  {
    var sys' := Exec(sys, move);
    match move {
      case Begin(tid, req) =>
      case Advance(tid, now) =>
        if tid in sys.flights {
          var f := sys.flights[tid];
          StatementKeepsTables(sys.server, f.req, f.at, now);
          StatementKeepsRows(sys.server, f.req, f.at, now);
          StatementIsFaithful(sys.server, f.req, f.at, now);
          forall t | t in sys'.flights ensures Faithful(sys'.server, sys'.flights[t]) {
            RowsKeepFaith(sys.server, sys'.server, sys'.flights[t]);
          }
        }
      case Admin(now, req) =>
        ServeKeepsInv(sys.server, now, req);
        forall tid | tid in sys'.flights ensures Faithful(sys'.server, sys'.flights[tid]) {
          if HasRead(sys.flights[tid].at) { ServeKeepsTerms(sys.server, now, req, sys.flights[tid].req.key); }
        }
    }
  }

  lemma StartInv()
    ensures SysInv(EMPTY_SYSTEM)
  {
    EmptyInv();
  }

  lemma {:induction false} ReachKeepsInv(sys: System, moves: seq<Move>, n: nat)
    requires SysInv(sys) && n <= |moves|
    ensures SysInv(Reach(sys, moves, n))
  {
    if n > 0 {
      ReachKeepsInv(sys, moves, n - 1);
      ExecKeepsInv(Reach(sys, moves, n - 1), moves[n - 1]);
    }
  }
}
