/** Tokens of interleaved runs. A request dates its token by its one clock reading, which follows its
    reading of the license; that gap is all that a revocation can miss. */
module InterleavedTokens {
  import opened Common
  import opened Models
  import opened Seats
  import opened Licensing
  import opened Interleaving
  import opened Concurrency
  import Saturation

  // ---- dates --------------------------------------------------------------------------------

  predicate Timed(move: Move) {
    move.Advance? || move.Admin?
  }

  /** The clock never runs backwards. */
  ghost predicate InOrder(moves: seq<Move>) {
    forall i, j :: 0 <= i < j < |moves| && Timed(moves[i]) && Timed(moves[j]) ==> moves[i].now <= moves[j].now
  }

  /** The clock reading a request goes by, once it has taken one. */
  function AsOf(f: Flight): Option<Time> {
    match f.at
    case Checked(_, asOf) => Some(asOf)
    case Counting(_, asOf) => Some(asOf)
    case Passed(_, asOf) => Some(asOf)
    case Inserted(_, asOf) => Some(asOf)
    case Touching(_, asOf, _) => Some(asOf)
    case Recounting(_, asOf) => Some(asOf)
    case Ended(reply) => if reply.Granted? then Some(reply.token.issuedAt) else None
    case _ => None
  }

  predicate HasToken(f: Flight) {
    f.at.Ended? && f.at.reply.Granted?
  }

  /** When a token of a request that read the clock at asOf is over. */
  function DeadlineOf(asOf: Time, offline: bool, expiry: Option<Time>): Time {
    if expiry.Some? then Min(expiry.value, asOf + Horizon(offline)) else asOf + Horizon(offline)
  }

  /** A token is for its request's license and device, and its deadline is the sooner of its license's
      expiry and its horizon. */
  predicate Proper(f: Flight) {
    HasToken(f) ==>
      && (f.req.Activate? || f.req.Validate?) && var t := f.at.reply.token;
      && t.licenseKey == f.req.key && t.deviceId == f.req.device
      && t.offline == (f.req.Activate? && f.req.offline)
      && t.validUntil == DeadlineOf(t.issuedAt, t.offline, t.licenseExp)
  }

  lemma StatementDates(s: Server, f: Flight, now: Time)
    requires Inv(s) && Faithful(s, f) && Proper(f)
    ensures var f' := f.(at := Statement(s, f.req, f.at, now).1);
      && Proper(f')
      && (AsOf(f').Some? ==> AsOf(f') == if AsOf(f).Some? then AsOf(f) else Some(now))
  {
    hide Holders, Free, Upsert, TouchId, Inv;
  }

  ghost predicate AllProper(sys: System) {
    forall t :: t in sys.flights ==> Proper(sys.flights[t])
  }

  ghost predicate DatedBy(sys: System, now: Time) {
    forall t :: t in sys.flights && AsOf(sys.flights[t]).Some? ==> AsOf(sys.flights[t]).value <= now
  }

  lemma ExecDates(sys: System, move: Move)
    requires SysInv(sys) && AllProper(sys)
    ensures AllProper(Exec(sys, move))
    ensures forall now :: DatedBy(sys, now) && (Timed(move) ==> move.now <= now) ==> DatedBy(Exec(sys, move), now)
  {
    if move.Advance? && move.tid in sys.flights {
      StatementDates(sys.server, sys.flights[move.tid], move.now);
    }
    hide Statement, Serve, Inv;
  }

  lemma {:induction false} ReachDates(sys: System, moves: seq<Move>, n: nat)
    requires SysInv(sys) && sys.flights == map[] && n <= |moves|
    ensures AllProper(Reach(sys, moves, n))
    ensures InOrder(moves) ==> forall j :: n <= j < |moves| && Timed(moves[j]) ==> DatedBy(Reach(sys, moves, n), moves[j].now)
  {
    hide Exec, SysInv;
    if n > 0 {
      ReachDates(sys, moves, n - 1);
      ReachKeepsInv(sys, moves, n - 1);
      ExecDates(Reach(sys, moves, n - 1), moves[n - 1]);
      if InOrder(moves) {
        forall j | n <= j < |moves| && Timed(moves[j]) ensures DatedBy(Reach(sys, moves, n), moves[j].now) {
          assert DatedBy(Reach(sys, moves, n - 1), moves[j].now);
        }
      }
    }
  }

  /** A request goes by one clock reading to its end. */
  lemma {:induction false} DateKept(sys: System, moves: seq<Move>, m: nat, n: nat, tid: nat)
    requires SysInv(sys) && sys.flights == map[] && m <= n <= |moves|
    requires tid in Reach(sys, moves, m).flights && AsOf(Reach(sys, moves, m).flights[tid]).Some?
    ensures tid in Reach(sys, moves, n).flights
    ensures AsOf(Reach(sys, moves, n).flights[tid]).Some? ==>
      AsOf(Reach(sys, moves, n).flights[tid]) == AsOf(Reach(sys, moves, m).flights[tid])
    ensures AsOf(Reach(sys, moves, n).flights[tid]).None? ==> Reach(sys, moves, n).flights[tid].at.Ended?
    decreases n
  {
    hide SysInv;
    if m < n {
      DateKept(sys, moves, m, n - 1, tid);
      ReachKeepsInv(sys, moves, n - 1);
      ReachDates(sys, moves, n - 1);
      DateStep(Reach(sys, moves, n - 1), moves[n - 1], tid);
    }
  }

  lemma DateStep(sys: System, move: Move, tid: nat)
    requires SysInv(sys) && AllProper(sys) && tid in sys.flights
    requires AsOf(sys.flights[tid]).Some? || sys.flights[tid].at.Ended?
    ensures tid in Exec(sys, move).flights
    ensures var f, f' := sys.flights[tid], Exec(sys, move).flights[tid];
      && (AsOf(f').Some? ==> AsOf(f') == AsOf(f))
      && (AsOf(f').None? ==> f'.at.Ended?)
  {
    if move.Advance? && move.tid == tid {
      StatementDates(sys.server, sys.flights[tid], move.now);
    }
    hide Serve, Inv, Holders, Free, Upsert, TouchId;
  }

  // ---- revocation ---------------------------------------------------------------------------

  lemma {:induction false} ReachSplit(sys: System, moves: seq<Move>, m: nat, n: nat)
    requires m <= n <= |moves|
    ensures Reach(sys, moves, n) == Reach(Reach(sys, moves, m), moves[m..], n - m)
    decreases n
  {
    hide Exec;
    if m < n {
      ReachSplit(sys, moves, m, n - 1);
      assert moves[m..][n - m - 1] == moves[n - 1];
    }
  }

  lemma RevokeMove(sys: System, move: Move, key: string)
    requires key in sys.server.licenses && move.Admin? && move.req == Revoke(sys.server.licenses[key].id)
    ensures var sys' := Exec(sys, move);
      sys'.flights == sys.flights && key in sys'.server.licenses && sys'.server.licenses[key].revokedAt.Some?
  {
  }

  /** A request that can still be granted after the revocation had read the license before it. */
  lemma CaughtByRevocation(sys: System, moves: seq<Move>, i: nat, n: nat, key: string, tid: nat)
    requires SysInv(sys) && i < n <= |moves|
    requires key in Reach(sys, moves, i).server.licenses && moves[i].Admin?
    requires moves[i].req == Revoke(Reach(sys, moves, i).server.licenses[key].id)
    requires tid in Reach(sys, moves, n).flights && MayGrant(Reach(sys, moves, n).flights[tid])
    requires Reach(sys, moves, n).flights[tid].req.key == key
    ensures tid in Reach(sys, moves, i).flights && MayGrant(Reach(sys, moves, i).flights[tid])
  {
    hide Exec, SysInv, MayGrant;
    ReachKeepsInv(sys, moves, i + 1);
    RevokeMove(Reach(sys, moves, i), moves[i], key);
    ReachSplit(sys, moves, i + 1, n);
    LateReadersNeverGrant(Reach(sys, moves, i + 1), moves[i + 1..], n - i - 1, key, tid);
  }

  /** The request stood, at move i, between its reading of the license and its reading of the clock. */
  predicate CaughtAt(sys: System, moves: seq<Move>, i: nat, tid: nat)
    requires i <= |moves|
  {
    tid in Reach(sys, moves, i).flights && Reach(sys, moves, i).flights[tid].at.Looked?
  }

  /** Of a license revoked by move i, only a request it caught reads the clock later. */
  lemma CaughtOrDated(sys: System, moves: seq<Move>, i: nat, n: nat, key: string, tid: nat)
    requires SysInv(sys) && sys.flights == map[] && InOrder(moves) && i < n <= |moves|
    requires key in Reach(sys, moves, i).server.licenses && moves[i].Admin?
    requires moves[i].req == Revoke(Reach(sys, moves, i).server.licenses[key].id)
    requires tid in Reach(sys, moves, n).flights && HasToken(Reach(sys, moves, n).flights[tid])
    requires Reach(sys, moves, n).flights[tid].at.reply.token.licenseKey == key
    ensures Proper(Reach(sys, moves, n).flights[tid])
    ensures CaughtAt(sys, moves, i, tid) || Reach(sys, moves, n).flights[tid].at.reply.token.issuedAt <= moves[i].now
  {
    hide Reach, SysInv, InOrder;
    ReachDates(sys, moves, n);
    ReachDates(sys, moves, i);
    CaughtByRevocation(sys, moves, i, n, key, tid);
    var g := Reach(sys, moves, i).flights[tid];
    if AsOf(g).Some? {
      DateKept(sys, moves, i, n, tid);
    }
  }

  /** Exactly which tokens of a license revoked at t, issued before or after, are live beyond t + 7
      days: those whose license lasts longer and which are offline with a longer horizon, or online and
      of a request that the revocation caught before it read the clock, later than t. */
  lemma InterleavedReach(sys: System, moves: seq<Move>, i: nat, n: nat, key: string, tid: nat)
    requires SysInv(sys) && sys.flights == map[] && InOrder(moves) && i < n <= |moves|
    requires key in Reach(sys, moves, i).server.licenses && moves[i].Admin?
    requires moves[i].req == Revoke(Reach(sys, moves, i).server.licenses[key].id)
    requires tid in Reach(sys, moves, n).flights && HasToken(Reach(sys, moves, n).flights[tid])
    requires Reach(sys, moves, n).flights[tid].at.reply.token.licenseKey == key
    ensures var token, limit := Reach(sys, moves, n).flights[tid].at.reply.token, moves[i].now + ONLINE_GRACE_PERIOD;
      token.validUntil > limit <==>
        && (token.licenseExp.Some? ==> token.licenseExp.value > limit)
        && (if token.offline then token.issuedAt + OFFLINE_HORIZON > limit
            else CaughtAt(sys, moves, i, tid) && token.issuedAt > moves[i].now)
  {
    hide Reach, SysInv, InOrder;
    CaughtOrDated(sys, moves, i, n, key, tid);
  }

  /** So an online token of a license revoked at t is over by t + 7 days, unless the revocation came
      between its request's reading of the license and its reading of the clock. */
  lemma InterleavedCutOff(sys: System, moves: seq<Move>, i: nat, n: nat, key: string, tid: nat)
    requires SysInv(sys) && sys.flights == map[] && InOrder(moves) && i < n <= |moves|
    requires key in Reach(sys, moves, i).server.licenses && moves[i].Admin?
    requires moves[i].req == Revoke(Reach(sys, moves, i).server.licenses[key].id)
    requires tid in Reach(sys, moves, n).flights && HasToken(Reach(sys, moves, n).flights[tid])
    requires var token := Reach(sys, moves, n).flights[tid].at.reply.token; token.licenseKey == key && !token.offline
    ensures var token := Reach(sys, moves, n).flights[tid].at.reply.token;
      token.validUntil <= moves[i].now + ONLINE_GRACE_PERIOD || CaughtAt(sys, moves, i, tid)
  {
    hide Reach, SysInv, InOrder;
    InterleavedReach(sys, moves, i, n, key, tid);
  }

  // ---- the exception is real ----------------------------------------------------------------

  function Repeat(tid: nat, now: Time, k: nat): seq<Move> {
    seq(k, _ => Advance(tid, now))
  }

  lemma FirstStep(sys: System, tid: nat, now: Time, k: nat)
    requires k > 0
    ensures Reach(sys, Repeat(tid, now, k), k) == Reach(Exec(sys, Advance(tid, now)), Repeat(tid, now, k - 1), k - 1)
  {
    hide Exec;
    var moves := Repeat(tid, now, k);
    assert Reach(sys, moves, 0) == sys;
    assert Reach(sys, moves, 1) == Exec(sys, Advance(tid, now));
    ReachSplit(sys, moves, 1, k);
    assert moves[1..] == Repeat(tid, now, k - 1);
  }

  /** Advancing one request alone runs its statements one after the other. */
  lemma {:induction false} Driven(sys: System, tid: nat, now: Time, k: nat)
    requires tid in sys.flights && Split(sys.flights[tid].req)
    ensures var f := sys.flights[tid];
      var (s', at') := Drive(sys.server, f.req, f.at, now, k);
      Reach(sys, Repeat(tid, now, k), k) == System(s', sys.flights[tid := f.(at := at')])
    decreases k
  {
    hide Statement;
    var f := sys.flights[tid];
    if k == 0 {
      assert sys.flights == sys.flights[tid := f];
    } else {
      var (s1, at1) := Statement(sys.server, f.req, f.at, now);
      var one := System(s1, sys.flights[tid := f.(at := at1)]);
      FirstStep(sys, tid, now, k);
      DriveOne(sys.server, f.req, f.at, now, k);
      Driven(one, tid, now, k - 1);
      hide Drive, Reach;
      var (s', at') := Drive(s1, f.req, at1, now, k - 1);
      assert one.flights[tid := f.(at := at')] == sys.flights[tid := f.(at := at')];
    }
  }

  lemma TouchDrive(s: Server, req: Request, l: License, now: Time)
    requires Inv(s) && (req.Activate? || req.Validate?) && l.Status(now) == Active && req.device in Holders(s.devices, l.id)
    ensures var at' := Drive(s, req, Looked(l), now, 4).1;
      at'.Ended? && at'.reply.Granted? && at'.reply.token.issuedAt == now
      && at'.reply.token.validUntil == DeadlineOf(now, req.Activate? && req.offline, l.expiresAt)
  {
    DriveOne(s, req, Looked(l), now, 4);
    hide Drive;
    DriveTouch(s, req, l, now, 3);
  }

  /** Revoke the license at t and let the request go on after the delay. */
  function CaughtGoesOn(id: string, tid: nat, t: Time, delay: nat): seq<Move> {
    [Admin(t, Revoke(id))] + Repeat(tid, t + delay, 4)
  }

  /** From any state in which an online request for a seated device stands there, the revocation and
      the request's next statements give it a token, as long as the license it read has not expired;
      and the token is live beyond the seven days exactly if there was a delay and the license lasts. */
  lemma CaughtRunsOn(sys: System, tid: nat, t: Time, delay: nat)
    requires SysInv(sys) && tid in sys.flights && sys.flights[tid].at.Looked?
    requires var f := sys.flights[tid];
      && (f.req.Validate? || (f.req.Activate? && !f.req.offline))
      && f.at.l.Status(t + delay) == Active && f.req.device in HoldersOf(sys.server, f.req.key)
    ensures var f := sys.flights[tid];
      var end := Reach(sys, CaughtGoesOn(f.at.l.id, tid, t, delay), 5);
      && tid in end.flights && HasToken(end.flights[tid]) && end.flights[tid].at.reply.token.issuedAt == t + delay
      && (end.flights[tid].at.reply.token.validUntil > t + ONLINE_GRACE_PERIOD <==>
            delay > 0 && (f.at.l.expiresAt.Some? ==> f.at.l.expiresAt.value > t + ONLINE_GRACE_PERIOD))
  {
    hide Exec, Drive, Reach, SysInv, Repeat;
    var l := sys.flights[tid].at.l;
    var one := Exec(sys, Admin(t, Revoke(l.id)));
    RevokedOnTheWay(sys, tid, t);
    GoesOn(sys, l.id, tid, t, delay);
    Driven(one, tid, t + delay, 4);
    TouchDrive(one.server, sys.flights[tid].req, l, t + delay);
  }

  lemma RevokedOnTheWay(sys: System, tid: nat, t: Time)
    requires SysInv(sys) && tid in sys.flights && sys.flights[tid].at.Looked?
    ensures var f := sys.flights[tid];
      var one := Exec(sys, Admin(t, Revoke(f.at.l.id)));
      && one.flights == sys.flights && one.server.devices == sys.server.devices && Inv(one.server)
      && Split(f.req) && (f.req.device in HoldersOf(sys.server, f.req.key) ==> f.req.device in Holders(sys.server.devices, f.at.l.id))
  {
    var f := sys.flights[tid];
    assert Faithful(sys.server, f);
    ServeKeepsInv(sys.server, t, Revoke(f.at.l.id));
    hide Inv, Holders;
  }

  lemma GoesOn(sys: System, id: string, tid: nat, t: Time, delay: nat)
    ensures Reach(sys, CaughtGoesOn(id, tid, t, delay), 5)
         == Reach(Exec(sys, Admin(t, Revoke(id))), Repeat(tid, t + delay, 4), 4)
  {
    hide Exec;
    var moves := CaughtGoesOn(id, tid, t, delay);
    assert Reach(sys, moves, 0) == sys;
    assert Reach(sys, moves, 1) == Exec(sys, moves[0]);
    assert moves[1..] == Repeat(tid, t + delay, 4);
    ReachSplit(sys, moves, 1, 5);
  }

  /** Read, then revoked: the state in which the request is caught. */
  function Caught(l: License, req: Request): System {
    System(Server(map[l.key := l.(revokedAt := Some(0))], EMPTY_TABLE, []), map[0 := Flight(req, Looked(l))])
  }

  lemma GetsCaught(l: License, req: Request, moves: seq<Move>)
    requires Saturation.Open(l) && req.Activate? && req.key == l.key
    requires |moves| >= 3 && moves[..3] == [Begin(0, req), Advance(0, 0), Admin(0, Revoke(l.id))]
    ensures Reach(Saturation.Start(l), moves, 3) == Caught(l, req)
  {
    var start := Saturation.Start(l);
    assert moves[0] == moves[..3][0] && moves[1] == moves[..3][1] && moves[2] == moves[..3][2];
    assert Reach(start, moves, 0) == start;
    var one, two := System(start.server, map[0 := Flight(req, Looking)]), System(start.server, map[0 := Flight(req, Looked(l))]);
    assert Reach(start, moves, 1) == one;
    assert Reach(start, moves, 2) == two;
    assert Exec(two, moves[2]).server.licenses == Caught(l, req).server.licenses;
  }

  lemma RunsThrough(l: License, req: Request, delay: Time)
    requires Saturation.Open(l) && l.maxDevices >= 1 && req.Activate? && req.key == l.key && !req.offline
    ensures var (s', at') := Drive(Caught(l, req).server, req, Looked(l), delay, 6);
      at'.Ended? && at'.reply.Granted? && at'.reply.token.licenseKey == l.key && !at'.reply.token.offline
      && at'.reply.token.validUntil == delay + ONLINE_GRACE_PERIOD
  {
    var s := Caught(l, req).server;
    assert Holders(s.devices, l.id) == {};
    DriveOne(s, req, Looked(l), delay, 6);
    hide Drive;
    DriveInsert(s, req, l, delay, 5);
  }

  function CaughtMoves(l: License, req: Request, delay: nat): seq<Move> {
    [Begin(0, req), Advance(0, 0), Admin(0, Revoke(l.id))] + Repeat(0, delay, 6)
  }

  lemma CaughtInOrder(l: License, req: Request, delay: nat)
    ensures InOrder(CaughtMoves(l, req, delay))
  {
  }

  lemma CaughtEnd(l: License, req: Request, delay: nat)
    requires Saturation.Open(l) && req.Activate? && req.key == l.key
    ensures var (s', at') := Drive(Caught(l, req).server, req, Looked(l), delay, 6);
      Reach(Saturation.Start(l), CaughtMoves(l, req, delay), 9) == System(s', map[0 := Flight(req, at')])
  {
    hide Drive, Exec, Reach;
    var moves := CaughtMoves(l, req, delay);
    assert moves[3..] == Repeat(0, delay, 6);
    assert moves[..3] == [Begin(0, req), Advance(0, 0), Admin(0, Revoke(l.id))];
    GetsCaught(l, req, moves);
    ReachSplit(Saturation.Start(l), moves, 3, 9);
    Driven(Caught(l, req), 0, delay, 6);
    var at' := Drive(Caught(l, req).server, req, Looked(l), delay, 6).1;
    assert Caught(l, req).flights[0 := Flight(req, at')] == map[0 := Flight(req, at')];
  }

  /** For every delay some run hands out, after a revocation at time 0, an online token that is live
      until seven days after the delay. */
  lemma CaughtTokenOutlives(l: License, delay: nat) returns (moves: seq<Move>)
    requires Saturation.Open(l) && l.maxDevices >= 1
    ensures SysInv(Saturation.Start(l)) && InOrder(moves) && |moves| > 3 && moves[2] == Admin(0, Revoke(l.id))
    ensures var end := Reach(Saturation.Start(l), moves, |moves|);
      && 0 in end.flights && HasToken(end.flights[0])
      && end.flights[0].at.reply.token.licenseKey == l.key && !end.flights[0].at.reply.token.offline
      && end.flights[0].at.reply.token.validUntil == delay + ONLINE_GRACE_PERIOD
  {
    var req := Activate(l.key, "", "", false);
    moves := CaughtMoves(l, req, delay);
    assert |moves| == 9 && moves[2] == Admin(0, Revoke(l.id));
    hide Reach, Drive, SysInv, Saturation.Start, InOrder, CaughtMoves;
    Saturation.NothingYet(l, 1);
    CaughtInOrder(l, req, delay);
    CaughtEnd(l, req, delay);
    RunsThrough(l, req, delay);
  }

  // ---- the window ---------------------------------------------------------------------------

  /** The requests that ended with a token of the license still unexpired at T. */
  function LiveFlights(sys: System, key: string, T: Time, offlineToo: bool): set<nat> {
    set t | t in sys.flights && HasToken(sys.flights[t]) && sys.flights[t].at.reply.token.licenseKey == key
            && T <= sys.flights[t].at.reply.token.validUntil && (offlineToo || !sys.flights[t].at.reply.token.offline)
  }

  function DeviceOf(sys: System, t: nat): string {
    if t in sys.flights && HasToken(sys.flights[t]) then sys.flights[t].at.reply.token.deviceId else ""
  }

  /** The devices that could run on those tokens. */
  function LiveOn(sys: System, key: string, T: Time, offlineToo: bool): set<string> {
    set t | t in LiveFlights(sys, key, T, offlineToo) :: DeviceOf(sys, t)
  }

  /** The move frees a seat of the license. */
  predicate Frees(sys: System, move: Move, key: string) {
    && move.Advance? && move.tid in sys.flights && sys.flights[move.tid].req.Deactivate?
    && sys.flights[move.tid].req.key == key && sys.flights[move.tid].at.Looked?
    && sys.flights[move.tid].req.device in HoldersOf(sys.server, key)
  }

  function FreedBy(sys: System, move: Move): string {
    if move.Advance? && move.tid in sys.flights && sys.flights[move.tid].req.Deactivate? then sys.flights[move.tid].req.device else ""
  }

  /** The moves that freed a seat since a given instant. */
  function FreesSince(sys: System, moves: seq<Move>, n: nat, key: string, from: Time): set<nat>
    requires n <= |moves|
  {
    set j: nat | j < n && Frees(Reach(sys, moves, j), moves[j], key) && from <= moves[j].now
  }

  function FreesEver(sys: System, moves: seq<Move>, n: nat, key: string): set<nat>
    requires n <= |moves|
  {
    set j: nat | j < n && Frees(Reach(sys, moves, j), moves[j], key)
  }

  /** The request has found or taken the seat it is going to sign for. */
  predicate Seated(f: Flight) {
    f.at.Inserted? || f.at.Touching? || f.at.Recounting? || HasToken(f)
  }

  /** The device holds its seat, or some move among the first n freed it at asOf or later. */
  ghost predicate HeldOrFreed(sys: System, moves: seq<Move>, n: nat, key: string, device: string, asOf: Time)
    requires n <= |moves|
  {
    || device in HoldersOf(Reach(sys, moves, n).server, key)
    || exists j: nat :: FreedAfter(sys, moves, n, j, key, device, asOf)
  }

  ghost predicate FreedAfter(sys: System, moves: seq<Move>, n: nat, j: nat, key: string, device: string, asOf: Time)
    requires n <= |moves|
  {
    && j < n && Frees(Reach(sys, moves, j), moves[j], key)
    && FreedBy(Reach(sys, moves, j), moves[j]) == device && asOf <= moves[j].now
  }

  /** Only such a move takes a seat away. */
  lemma OnlyFrees(sys: System, move: Move, key: string, device: string)
    requires SysInv(sys) && key in sys.server.licenses
    requires device in HoldersOf(sys.server, key) && device !in HoldersOf(Exec(sys, move).server, key)
    ensures Frees(sys, move, key) && FreedBy(sys, move) == device
  {
    match move {
      case Advance(tid, now) =>
        if tid in sys.flights {
          StatementHolders(sys.server, sys.flights[tid].req, sys.flights[tid].at, now, key);
          OnlyDeactivateFrees(sys.server, sys.flights[tid], now);
        }
      case Admin(now, req) => if !Split(req) { AdminHolders(sys.server, now, req, key); }
      case Begin(_, _) =>
    }
    hide Statement, Serve;
  }

  lemma OnlyDeactivateFrees(s: Server, f: Flight, now: Time)
    requires Faithful(s, f) && f.at.Looked? && Statement(s, f.req, f.at, now).1.Freed?
    ensures f.req.Deactivate?
  {
  }

  /** A request that reaches its seat finds its device in it. */
  lemma ReachesSeat(s: Server, f: Flight, now: Time)
    requires Inv(s) && Faithful(s, f) && !Seated(f)
    ensures var (s', at') := Statement(s, f.req, f.at, now);
      Seated(f.(at := at')) ==>
        AsOf(f.(at := at')).Some? && f.req.key in s.licenses && f.req.device in HoldersOf(s', f.req.key)
  {
    if f.at.Passed? {
      StatementHolders(s, f.req, f.at, now, f.req.key);
    }
  }

  /** Whoever has a seat or a token has it of a license that exists. */
  ghost predicate KnownKeys(sys: System) {
    forall t :: t in sys.flights && Seated(sys.flights[t]) && Split(sys.flights[t].req) ==> sys.flights[t].req.key in sys.server.licenses
  }

  lemma KnownStep(sys: System, move: Move)
    requires SysInv(sys) && KnownKeys(sys)
    ensures KnownKeys(Exec(sys, move))
  {
    match move {
      case Advance(tid, now) =>
        if tid in sys.flights {
          var f := sys.flights[tid];
          assert Faithful(sys.server, f);
          StatementKeepsTables(sys.server, f.req, f.at, now);
          if !Seated(f) { ReachesSeat(sys.server, f, now); }
        }
      case Admin(now, req) =>
        if !Split(req) {
          forall key | key in sys.server.licenses ensures key in Serve(sys.server, now, req).0.licenses {
            ServeKeepsTerms(sys.server, now, req, key);
          }
        }
      case Begin(_, _) =>
    }
    hide Statement, Serve, Inv;
  }

  lemma {:induction false} ReachKnown(sys: System, moves: seq<Move>, n: nat)
    requires SysInv(sys) && sys.flights == map[] && n <= |moves|
    ensures KnownKeys(Reach(sys, moves, n))
  {
    hide Exec, SysInv;
    if n > 0 {
      ReachKnown(sys, moves, n - 1);
      ReachKeepsInv(sys, moves, n - 1);
      KnownStep(Reach(sys, moves, n - 1), moves[n - 1]);
    }
  }

  lemma NewSeat(sys: System, move: Move, tid: nat)
    requires SysInv(sys) && tid in Exec(sys, move).flights && Seated(Exec(sys, move).flights[tid])
    requires tid in sys.flights ==> !Seated(sys.flights[tid])
    ensures var sys' := Exec(sys, move);
      var f := sys'.flights[tid];
      Split(f.req) && AsOf(f).Some? && f.req.device in HoldersOf(sys'.server, f.req.key)
  {
    if move.Advance? && move.tid == tid && tid in sys.flights {
      ReachesSeat(sys.server, sys.flights[tid], move.now);
      StatementKeepsTables(sys.server, sys.flights[tid].req, sys.flights[tid].at, move.now);
    }
    hide Statement, Serve, Inv, Holders;
  }

  lemma StillBehind(sys: System, moves: seq<Move>, n: nat, key: string, device: string, asOf: Time)
    requires SysInv(sys) && n < |moves| && key in Reach(sys, moves, n).server.licenses
    requires HeldOrFreed(sys, moves, n, key, device, asOf) && (Timed(moves[n]) ==> asOf <= moves[n].now)
    ensures HeldOrFreed(sys, moves, n + 1, key, device, asOf)
  {
    hide Exec, SysInv, Frees, FreedBy, HoldersOf;
    ReachKeepsInv(sys, moves, n);
    if j: nat :| FreedAfter(sys, moves, n, j, key, device, asOf) {
      assert FreedAfter(sys, moves, n + 1, j, key, device, asOf);
    } else if device !in HoldersOf(Reach(sys, moves, n + 1).server, key) {
      OnlyFrees(Reach(sys, moves, n), moves[n], key, device);
      FreesIsTimed(Reach(sys, moves, n), moves[n], key);
      assert FreedAfter(sys, moves, n + 1, n, key, device, asOf);
    }
  }

  lemma FreesIsTimed(sys: System, move: Move, key: string)
    requires Frees(sys, move, key)
    ensures Timed(move)
  {
  }

  lemma Unrolled(sys: System, moves: seq<Move>, n: nat)
    requires n <= |moves|
    ensures Reach(sys, moves, n) == if n == 0 then sys else Exec(Reach(sys, moves, n - 1), moves[n - 1])
  {
  }

  /** One move later, a request that had its seat is still behind it. */
  lemma SeatKept(sys: System, moves: seq<Move>, n: nat, key: string, tid: nat)
    requires SysInv(sys) && sys.flights == map[] && InOrder(moves) && n < |moves|
    requires tid in Reach(sys, moves, n).flights && Seated(Reach(sys, moves, n).flights[tid])
    requires tid in Reach(sys, moves, n + 1).flights && Seated(Reach(sys, moves, n + 1).flights[tid])
    requires var f := Reach(sys, moves, n).flights[tid];
      Split(f.req) && f.req.key == key && AsOf(f).Some? && HeldOrFreed(sys, moves, n, key, f.req.device, AsOf(f).value)
    ensures var f := Reach(sys, moves, n + 1).flights[tid];
      Split(f.req) && AsOf(f).Some? && HeldOrFreed(sys, moves, n + 1, key, f.req.device, AsOf(f).value)
  {
    hide Reach, SysInv, InOrder, HeldOrFreed, AllProper, Exec;
    var before, move := Reach(sys, moves, n), moves[n];
    ReachKeepsInv(sys, moves, n);
    ReachDates(sys, moves, n);
    ReachKnown(sys, moves, n);
    Unrolled(sys, moves, n + 1);
    SameRequest(before, move, tid);
    DateStep(before, move, tid);
    StillBehind(sys, moves, n, key, before.flights[tid].req.device, AsOf(before.flights[tid]).value);
  }

  /** Whoever signs or has signed for a seat has its device in the seat, or it was freed since. */
  lemma {:induction false} SeatBehind(sys: System, moves: seq<Move>, n: nat, key: string, tid: nat)
    requires SysInv(sys) && sys.flights == map[] && InOrder(moves) && n <= |moves|
    requires tid in Reach(sys, moves, n).flights && Seated(Reach(sys, moves, n).flights[tid])
    requires Split(Reach(sys, moves, n).flights[tid].req) && Reach(sys, moves, n).flights[tid].req.key == key
    ensures var f := Reach(sys, moves, n).flights[tid];
      AsOf(f).Some? && HeldOrFreed(sys, moves, n, key, f.req.device, AsOf(f).value)
  {
    hide Reach, SysInv, InOrder, HeldOrFreed, Exec, Seated, AsOf;
    Unrolled(sys, moves, n);
    if n > 0 {
      var before, move := Reach(sys, moves, n - 1), moves[n - 1];
      ReachKeepsInv(sys, moves, n - 1);
      if tid in before.flights && Seated(before.flights[tid]) {
        SameRequest(before, move, tid);
        SeatBehind(sys, moves, n - 1, key, tid);
        SeatKept(sys, moves, n - 1, key, tid);
      } else {
        NewSeat(before, move, tid);
        Held(sys, moves, n, key, Reach(sys, moves, n).flights[tid]);
      }
    }
  }

  lemma Held(sys: System, moves: seq<Move>, n: nat, key: string, f: Flight)
    requires n <= |moves| && Split(f.req) && AsOf(f).Some? && f.req.device in HoldersOf(Reach(sys, moves, n).server, key)
    ensures HeldOrFreed(sys, moves, n, key, f.req.device, AsOf(f).value)
  {
  }

  lemma SameRequest(sys: System, move: Move, tid: nat)
    requires tid in sys.flights
    ensures tid in Exec(sys, move).flights && Exec(sys, move).flights[tid].req == sys.flights[tid].req
  {
    hide Statement, Serve;
  }

  /** The devices whose seats these moves freed. */
  function FreedDevices(sys: System, moves: seq<Move>, frees: set<nat>): set<string> {
    set j | j in frees && j < |moves| :: FreedBy(Reach(sys, moves, j), moves[j])
  }

  lemma {:induction false} FreedBound(sys: System, moves: seq<Move>, frees: set<nat>)
    requires forall j :: j in frees ==> j < |moves|
    ensures |FreedDevices(sys, moves, frees)| <= |frees|
    decreases frees
  {
    hide Reach, FreedBy;
    if frees == {} {
      assert FreedDevices(sys, moves, frees) == {};
    } else {
      var j :| j in frees;
      FreedBound(sys, moves, frees - {j});
      assert FreedDevices(sys, moves, frees) == FreedDevices(sys, moves, frees - {j}) + {FreedBy(Reach(sys, moves, j), moves[j])};
    }
  }

  /** The freeing moves that a live token may have outlived: those of its horizon. */
  function FreesOutlived(sys: System, moves: seq<Move>, n: nat, key: string, T: Time, offlineToo: bool): set<nat>
    requires n <= |moves|
  {
    if offlineToo then FreesEver(sys, moves, n, key) else FreesSince(sys, moves, n, key, T - ONLINE_GRACE_PERIOD)
  }

  lemma LiveIsCovered(sys: System, moves: seq<Move>, n: nat, key: string, T: Time, offlineToo: bool, t: nat)
    requires SysInv(sys) && sys.flights == map[] && InOrder(moves) && n <= |moves|
    requires t in LiveFlights(Reach(sys, moves, n), key, T, offlineToo)
    ensures DeviceOf(Reach(sys, moves, n), t) in HoldersOf(Reach(sys, moves, n).server, key)
      + FreedDevices(sys, moves, FreesOutlived(sys, moves, n, key, T, offlineToo))
  {
    hide Reach, SysInv, InOrder, HoldersOf, FreedBy, Frees;
    ReachDates(sys, moves, n);
    SeatBehind(sys, moves, n, key, t);
    var f := Reach(sys, moves, n).flights[t];
    if j: nat :| FreedAfter(sys, moves, n, j, key, f.req.device, AsOf(f).value) {
      assert j in FreesOutlived(sys, moves, n, key, T, offlineToo);
    }
  }

  /** Live tokens at T are bounded by whatever bounds the seats, and the seats freed since. */
  lemma WindowOverSeats(sys: System, moves: seq<Move>, n: nat, key: string, inFlight: nat, T: Time, offlineToo: bool)
    requires SysInv(sys) && sys.flights == map[] && InOrder(moves) && n <= |moves|
    requires SeatBound(Reach(sys, moves, n), key, inFlight)
    ensures |LiveOn(Reach(sys, moves, n), key, T, offlineToo)|
      <= Reach(sys, moves, n).server.licenses[key].maxDevices - 1 + inFlight
         + |FreesOutlived(sys, moves, n, key, T, offlineToo)|
  {
    hide Reach, SysInv, InOrder, HoldersOf, LiveFlights, FreedDevices, DeviceOf, PassedOn;
    var end := Reach(sys, moves, n);
    var frees := FreesOutlived(sys, moves, n, key, T, offlineToo);
    forall d | d in LiveOn(end, key, T, offlineToo) ensures d in HoldersOf(end.server, key) + FreedDevices(sys, moves, frees) {
      var t :| t in LiveFlights(end, key, T, offlineToo) && d == DeviceOf(end, t);
      LiveIsCovered(sys, moves, n, key, T, offlineToo, t);
    }
    FreedBound(sys, moves, frees);
    SubsetBound(LiveOn(end, key, T, offlineToo), HoldersOf(end.server, key) + FreedDevices(sys, moves, frees));
  }

  /** With at most inFlight activations of the license under way at any time, the devices with a live
      online token at T number at most maxDevices - 1 + inFlight and the seats freed in the seven days
      before T; offline tokens included, and all the seats ever freed. */
  lemma InterleavedWindow(sys: System, moves: seq<Move>, n: nat, key: string, inFlight: nat, T: Time)
    requires SysInv(sys) && sys.flights == map[] && InOrder(moves) && n <= |moves| && SeatBound(sys, key, inFlight)
    requires forall m :: 0 <= m <= n ==> |FlightOn(Reach(sys, moves, m), key)| <= inFlight
    ensures key in Reach(sys, moves, n).server.licenses
    ensures var room := Reach(sys, moves, n).server.licenses[key].maxDevices - 1 + inFlight;
      && |LiveOn(Reach(sys, moves, n), key, T, false)| <= room + |FreesSince(sys, moves, n, key, T - ONLINE_GRACE_PERIOD)|
      && |LiveOn(Reach(sys, moves, n), key, T, true)| <= room + |FreesEver(sys, moves, n, key)|
  {
    hide Reach, SysInv, InOrder, LiveOn, FreesSince, FreesEver;
    InterleavedSeatBound(sys, moves, n, key, inFlight);
    WindowOverSeats(sys, moves, n, key, inFlight, T, false);
    WindowOverSeats(sys, moves, n, key, inFlight, T, true);
  }

  // ---- release ------------------------------------------------------------------------------

  /** No activation of the device on the license is under way. */
  ghost predicate NoActivation(sys: System, key: string, device: string) {
    forall t :: t in sys.flights && sys.flights[t].req.Activate? && sys.flights[t].req.key == key && sys.flights[t].req.device == device ==>
      sys.flights[t].at.Ended?
  }

  predicate SeatedFor(f: Flight, key: string, device: string) {
    Split(f.req) && f.req.key == key && f.req.device == device && Seated(f)
  }

  /** Whoever has found or taken the device's seat read the clock by then. */
  ghost predicate SeatsBefore(sys: System, key: string, device: string, last: Time) {
    forall t :: t in sys.flights && SeatedFor(sys.flights[t], key, device) ==>
      AsOf(sys.flights[t]).Some? && AsOf(sys.flights[t]).value <= last
  }

  /** Only an activation of the device gives it a seat. */
  lemma StaysOut(sys: System, move: Move, key: string, device: string)
    requires SysInv(sys) && key in sys.server.licenses && NoActivation(sys, key, device) && device !in HoldersOf(sys.server, key)
    ensures key in Exec(sys, move).server.licenses && device !in HoldersOf(Exec(sys, move).server, key)
  {
    match move {
      case Advance(tid, now) =>
        if tid in sys.flights {
          assert Faithful(sys.server, sys.flights[tid]);
          StatementHolders(sys.server, sys.flights[tid].req, sys.flights[tid].at, now, key);
          StatementKeepsTables(sys.server, sys.flights[tid].req, sys.flights[tid].at, now);
        }
      case Admin(now, req) =>
        if !Split(req) {
          AdminHolders(sys.server, now, req, key);
          ServeKeepsTerms(sys.server, now, req, key);
        }
      case Begin(_, _) =>
    }
    hide Statement, Serve, Inv;
  }

  lemma FreedIsOut(sys: System, move: Move, key: string)
    requires SysInv(sys) && key in sys.server.licenses && Frees(sys, move, key)
    ensures key in Exec(sys, move).server.licenses && FreedBy(sys, move) !in HoldersOf(Exec(sys, move).server, key)
  {
    var f := sys.flights[move.tid];
    assert Faithful(sys.server, f) && f.at.l.id == sys.server.licenses[key].id;
    assert Statement(sys.server, f.req, f.at, move.now).1.Freed?;
    StatementHolders(sys.server, f.req, f.at, move.now, key);
    StatementKeepsTables(sys.server, f.req, f.at, move.now);
    hide Statement, Inv, Faithful;
  }

  lemma BeforeStays(sys: System, move: Move, key: string, device: string, last: Time)
    requires SysInv(sys) && AllProper(sys) && SeatsBefore(sys, key, device, last)
    requires device !in HoldersOf(Exec(sys, move).server, key)
    ensures SeatsBefore(Exec(sys, move), key, device, last)
  {
    hide Exec, Inv, SysInv, AllProper;
    var sys' := Exec(sys, move);
    forall t | t in sys'.flights && SeatedFor(sys'.flights[t], key, device)
      ensures AsOf(sys'.flights[t]).Some? && AsOf(sys'.flights[t]).value <= last
    {
      if t in sys.flights && Seated(sys.flights[t]) {
        SameRequest(sys, move, t);
        DateStep(sys, move, t);
      } else {
        NewSeat(sys, move, t);
      }
    }
  }

  lemma {:induction false} OutSince(sys: System, moves: seq<Move>, i: nat, n: nat, key: string, device: string)
    requires SysInv(sys) && sys.flights == map[] && InOrder(moves) && i < n <= |moves|
    requires key in Reach(sys, moves, i).server.licenses && Frees(Reach(sys, moves, i), moves[i], key)
    requires device == FreedBy(Reach(sys, moves, i), moves[i])
    requires forall m :: i < m < n ==> NoActivation(Reach(sys, moves, m), key, device)
    ensures key in Reach(sys, moves, n).server.licenses && device !in HoldersOf(Reach(sys, moves, n).server, key)
    ensures Timed(moves[i]) && SeatsBefore(Reach(sys, moves, n), key, device, moves[i].now)
    decreases n
  {
    hide Reach, SysInv, InOrder, Exec, NoActivation, HoldersOf, Frees, FreedBy, AllProper, SeatsBefore;
    ReachKeepsInv(sys, moves, n - 1);
    ReachDates(sys, moves, n - 1);
    Unrolled(sys, moves, n);
    FreesIsTimed(Reach(sys, moves, i), moves[i], key);
    var before, move := Reach(sys, moves, n - 1), moves[n - 1];
    if n == i + 1 {
      FreedIsOut(before, move, key);
      DatedSeats(before, key, device, move.now);
    } else {
      OutSince(sys, moves, i, n - 1, key, device);
      StaysOut(before, move, key, device);
    }
    BeforeStays(before, move, key, device, moves[i].now);
  }

  lemma DatedSeats(sys: System, key: string, device: string, now: Time)
    requires DatedBy(sys, now)
    ensures SeatsBefore(sys, key, device, now)
  {
  }

  /** After a device's seat is freed at t, and unless an activation of it is under way later, none of
      its online tokens is live beyond t + 7 days, whatever validations were in flight. */
  lemma InterleavedReleaseCutOff(sys: System, moves: seq<Move>, i: nat, n: nat, key: string, tid: nat)
    requires SysInv(sys) && sys.flights == map[] && InOrder(moves) && i < n <= |moves|
    requires key in Reach(sys, moves, i).server.licenses && Frees(Reach(sys, moves, i), moves[i], key)
    requires forall m :: i < m < n ==> NoActivation(Reach(sys, moves, m), key, FreedBy(Reach(sys, moves, i), moves[i]))
    requires tid in Reach(sys, moves, n).flights && HasToken(Reach(sys, moves, n).flights[tid])
    requires var token := Reach(sys, moves, n).flights[tid].at.reply.token;
      token.licenseKey == key && token.deviceId == FreedBy(Reach(sys, moves, i), moves[i]) && !token.offline
    ensures Timed(moves[i]) && Reach(sys, moves, n).flights[tid].at.reply.token.validUntil <= moves[i].now + ONLINE_GRACE_PERIOD
  {
    hide Reach, SysInv, InOrder, NoActivation, HoldersOf, Frees, FreedBy;
    FreesIsTimed(Reach(sys, moves, i), moves[i], key);
    OutSince(sys, moves, i, n, key, FreedBy(Reach(sys, moves, i), moves[i]));
    ReachDates(sys, moves, n);
  }
}
