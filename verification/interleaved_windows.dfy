/** The interleaved bound on live tokens is exact: for every limit, every number of activations in flight
    and every number of freed seats some run has that many devices with a live online token. */
module InterleavedWindows {
  import opened Common
  import opened Models
  import opened Seats
  import opened Licensing
  import opened Interleaving
  import opened Concurrency
  import opened InterleavedTokens
  import InterleavedLedger
  import Saturation
  import Window

  function Start(l: License): System {
    Saturation.Start(l)
  }

  function Final(l: License, moves: seq<Move>): System {
    Reach(Start(l), moves, |moves|)
  }

  function Take(l: License, i: nat): Request {
    InterleavedLedger.Ask(l, Saturation.Dev(i))
  }

  // ---- runs with few activations in flight --------------------------------------------------

  /** Everything happens at time 0, at most inFlight activations at once, and frees seats are freed. */
  ghost predicate Trail(l: License, moves: seq<Move>, inFlight: nat, frees: nat) {
    && (forall i :: 0 <= i < |moves| && Timed(moves[i]) ==> moves[i].now == 0)
    && (forall m :: 0 <= m <= |moves| ==> |FlightOn(Reach(Start(l), moves, m), l.key)| <= inFlight)
    && |FreesSince(Start(l), moves, |moves|, l.key, 0)| == frees
  }

  lemma LongerReach(l: License, moves: seq<Move>, move: Move)
    ensures var longer := moves + [move];
      && Final(l, longer) == Exec(Final(l, moves), move)
      && forall m :: 0 <= m <= |moves| ==> Reach(Start(l), longer, m) == Reach(Start(l), moves, m)
  {
    hide Exec;
    var longer := moves + [move];
    forall m | 0 <= m <= |longer| ensures m <= |moves| ==> Reach(Start(l), longer, m) == Reach(Start(l), moves, m) {
      Saturation.ReachJoined(Start(l), moves, [move], m);
    }
    Saturation.ReachJoined(Start(l), moves, [move], |moves| + 1);
    assert Reach(Final(l, moves), [move], 0) == Final(l, moves);
  }

  lemma LongerFrees(l: License, moves: seq<Move>, move: Move)
    requires Timed(move) ==> move.now == 0
    ensures |FreesSince(Start(l), moves + [move], |moves| + 1, l.key, 0)|
         == |FreesSince(Start(l), moves, |moves|, l.key, 0)| + if Frees(Final(l, moves), move, l.key) then 1 else 0
  {
    hide Exec, Reach, Frees, Start;
    var longer, last := moves + [move], |moves|;
    LongerReach(l, moves, move);
    var before, after := FreesSince(Start(l), moves, last, l.key, 0), FreesSince(Start(l), longer, last + 1, l.key, 0);
    forall j: nat | j < last ensures j in after <==> j in before {
      assert longer[j] == moves[j];
      assert Reach(Start(l), longer, j) == Reach(Start(l), moves, j);
    }
    assert longer[last] == move && Reach(Start(l), longer, last) == Final(l, moves);
    if Frees(Final(l, moves), move, l.key) {
      FreesIsTimed(Final(l, moves), move, l.key);
      assert after == before + {last};
    } else {
      assert after == before;
    }
  }

  lemma TrailOne(l: License, moves: seq<Move>, move: Move, inFlight: nat, frees: nat) returns (longer: seq<Move>)
    requires Trail(l, moves, inFlight, frees) && (Timed(move) ==> move.now == 0)
    requires |FlightOn(Exec(Final(l, moves), move), l.key)| <= inFlight
    ensures Final(l, longer) == Exec(Final(l, moves), move)
    ensures Trail(l, longer, inFlight, frees + if Frees(Final(l, moves), move, l.key) then 1 else 0)
  {
    hide Exec, FlightOn, FreesSince, Frees;
    longer := moves + [move];
    LongerReach(l, moves, move);
    LongerFrees(l, moves, move);
    hide Reach;
  }

  /** Requests below b are known and those below a have ended. */
  ghost predicate Pending(sys: System, a: nat, b: nat) {
    forall t :: t in sys.flights ==> t < b && (t < a ==> sys.flights[t].at.Ended?)
  }

  lemma FewPending(sys: System, key: string, a: nat, b: nat)
    requires Pending(sys, a, b) && a <= b
    ensures |FlightOn(sys, key)| <= b - a
  {
    Saturation.RangeFacts(a, b);
    SubsetBound(FlightOn(sys, key), Saturation.Range(a, b));
  }

  lemma AdvancePends(sys: System, t: nat, a: nat, b: nat)
    requires Pending(sys, a, b) && t in sys.flights
    ensures var sys' := Exec(sys, Advance(t, 0));
      Pending(sys', a, b) && t in sys'.flights && sys'.flights[t].req == sys.flights[t].req
  {
    hide Holders, Upsert, Free, TouchId;
  }

  lemma RepeatLonger(sys: System, t: nat, n: nat)
    requires n > 0
    ensures Reach(sys, Repeat(t, 0, n), n) == Exec(Reach(sys, Repeat(t, 0, n - 1), n - 1), Advance(t, 0))
  {
    hide Exec;
    assert Repeat(t, 0, n) == Repeat(t, 0, n - 1) + [Advance(t, 0)];
    Saturation.ReachJoined(sys, Repeat(t, 0, n - 1), [Advance(t, 0)], n - 1);
  }

  /** Advancing one request that is not a release. */
  lemma {:induction false} TrailRepeat(l: License, moves: seq<Move>, t: nat, n: nat, a: nat, b: nat, inFlight: nat, frees: nat)
    returns (longer: seq<Move>)
    requires Trail(l, moves, inFlight, frees) && Pending(Final(l, moves), a, b) && a <= b && b - a <= inFlight
    requires t in Final(l, moves).flights && !Final(l, moves).flights[t].req.Deactivate?
    ensures Trail(l, longer, inFlight, frees) && Final(l, longer) == Reach(Final(l, moves), Repeat(t, 0, n), n)
    ensures Pending(Final(l, longer), a, b) && t in Final(l, longer).flights && !Final(l, longer).flights[t].req.Deactivate?
  {
    hide Exec, Trail, Final, Pending, Repeat;
    if n == 0 {
      longer := moves;
      assert Reach(Final(l, moves), Repeat(t, 0, 0), 0) == Final(l, moves);
    } else {
      longer := TrailRepeat(l, moves, t, n - 1, a, b, inFlight, frees);
      AdvancePends(Final(l, longer), t, a, b);
      FewPending(Exec(Final(l, longer), Advance(t, 0)), l.key, a, b);
      RepeatLonger(Final(l, moves), t, n);
      hide Reach, FlightOn;
      longer := TrailOne(l, longer, Advance(t, 0), inFlight, frees);
    }
  }

  // ---- the stages of the run ----------------------------------------------------------------

  /** Devices lo to hi - 1 hold the seats, devices 0 to hi - 1 have live tokens, the requests below a have
      ended, and requests a to b - 1 have passed the check for the next devices. */
  ghost predicate Stage(sys: System, l: License, lo: nat, hi: nat, a: nat, b: nat) {
    && lo <= hi && a <= b && Saturation.Open(l)
    && sys.server.licenses == map[l.key := l] && Inv(sys.server) && HoldersOf(sys.server, l.key) == Window.Between(lo, hi)
    && (forall t: nat :: t in sys.flights <==> t < b)
    && (forall t: nat :: t < a ==> sys.flights[t].at.Ended?)
    && (forall t: nat :: a <= t < b ==> sys.flights[t] == Flight(Take(l, hi + t - a), Passed(l, 0)))
    && LiveOn(sys, l.key, ONLINE_GRACE_PERIOD, false) == Window.Between(0, hi)
  }

  lemma StagePends(sys: System, l: License, lo: nat, hi: nat, a: nat, b: nat)
    requires Stage(sys, l, lo, hi, a, b)
    ensures Pending(sys, a, b)
  {
  }

  /** Only tokens count: a flight without one can be added or changed into another without one. */
  lemma SameLive(sys: System, t: nat, f: Flight, s: Server, key: string, T: Time)
    requires (t in sys.flights ==> !HasToken(sys.flights[t])) && !HasToken(f)
    ensures LiveOn(System(s, sys.flights[t := f]), key, T, false) == LiveOn(sys, key, T, false)
  {
    var sys' := System(s, sys.flights[t := f]);
    assert LiveFlights(sys', key, T, false) == LiveFlights(sys, key, T, false);
    assert forall u :: u in LiveFlights(sys, key, T, false) ==> DeviceOf(sys', u) == DeviceOf(sys, u);
  }

  lemma OneMoreLive(sys: System, t: nat, f: Flight, s: Server, key: string, T: Time)
    requires t in sys.flights && !HasToken(sys.flights[t]) && HasToken(f)
    requires f.at.reply.token.licenseKey == key && !f.at.reply.token.offline && T <= f.at.reply.token.validUntil
    ensures LiveOn(System(s, sys.flights[t := f]), key, T, false) == LiveOn(sys, key, T, false) + {f.at.reply.token.deviceId}
  {
    var sys' := System(s, sys.flights[t := f]);
    var old', new' := LiveFlights(sys, key, T, false), LiveFlights(sys', key, T, false);
    assert new' == old' + {t};
    assert forall u :: u in old' ==> DeviceOf(sys', u) == DeviceOf(sys, u);
    forall d ensures d in LiveOn(sys', key, T, false) <==> d in LiveOn(sys, key, T, false) + {f.at.reply.token.deviceId} {
      if d in LiveOn(sys, key, T, false) { var u :| u in old' && d == DeviceOf(sys, u); assert u in new'; }
      if d == f.at.reply.token.deviceId { assert t in new' && DeviceOf(sys', t) == d; }
    }
  }

  /** A device without a seat passes the check while one is left. */
  lemma JoinDrive(s: Server, l: License, lo: nat, hi: nat, i: nat)
    requires Saturation.Open(l) && s.licenses == map[l.key := l] && HoldersOf(s, l.key) == Window.Between(lo, hi)
    requires lo <= hi <= i && hi - lo < l.maxDevices
    ensures Drive(s, Take(l, i), Looking, 0, 4) == (s, Passed(l, 0))
  {
    var req := Take(l, i);
    Window.BetweenSize(lo, hi);
    assert forall j :: lo <= j < hi ==> |Saturation.Dev(j)| == j;
    assert Statement(s, req, Looking, 0) == (s, Looked(l));
    assert Statement(s, req, Looked(l), 0) == (s, Checked(l, 0));
    assert Statement(s, req, Checked(l, 0), 0) == (s, Counting(l, 0));
    assert Statement(s, req, Counting(l, 0), 0) == (s, Passed(l, 0));
    hide Statement, Holders;
    DriveOne(s, req, Looking, 0, 4);
    DriveOne(s, req, Looked(l), 0, 3);
    DriveOne(s, req, Checked(l, 0), 0, 2);
    DriveOne(s, req, Counting(l, 0), 0, 1);
    DriveEnd(s, req, Passed(l, 0));
  }

  lemma DriveEnd(s: Server, req: Request, at: Counter)
    requires Split(req)
    ensures Drive(s, req, at, 0, 0) == (s, at)
  {
  }

  /** A report and a count for the token leave the seats alone. */
  lemma SignStatements(s: Server, l: License, i: nat)
    requires Saturation.Open(l) && s.licenses == map[l.key := l] && Inv(s)
    ensures var (s', at) := Statement(s, Take(l, i), Inserted(l, 0), 0);
      var (s'', at') := Statement(s', Take(l, i), at, 0);
      && at == Recounting(l, 0) && s'' == s' && Inv(s') && s'.licenses == s.licenses && HoldersOf(s', l.key) == HoldersOf(s, l.key)
      && GetsToken(at', l, i)
  {
  }

  predicate GetsToken(at: Counter, l: License, i: nat) {
    && at.Ended? && at.reply.Granted?
    && var t := at.reply.token;
    && t.licenseKey == l.key && t.deviceId == Saturation.Dev(i) && !t.offline && t.validUntil == ONLINE_GRACE_PERIOD
  }

  /** From the check it inserts, reports and gets its token. */
  lemma FinishDrive(s: Server, l: License, i: nat)
    requires Saturation.Open(l) && s.licenses == map[l.key := l] && Inv(s)
    ensures var (s', at') := Drive(s, Take(l, i), Passed(l, 0), 0, 3);
      && Inv(s') && s'.licenses == s.licenses && HoldersOf(s', l.key) == HoldersOf(s, l.key) + {Saturation.Dev(i)}
      && GetsToken(at', l, i)
  {
    hide Statement, Inv, HoldersOf, GetsToken, Drive;
    var req := Take(l, i);
    InterleavedLedger.InsertStatement(s, l, Saturation.Dev(i));
    var s1 := Statement(s, req, Passed(l, 0), 0).0;
    SignStatements(s1, l, i);
    var s2 := Statement(s1, req, Inserted(l, 0), 0).0;
    var at' := Statement(s2, req, Recounting(l, 0), 0).1;
    DriveOne(s, req, Passed(l, 0), 0, 3);
    DriveOne(s1, req, Inserted(l, 0), 0, 2);
    DriveOne(s2, req, Recounting(l, 0), 0, 1);
    DriveEnd(s2, req, at');
  }

  /** One more request on its way to the check. */
  lemma Join(l: License, moves: seq<Move>, lo: nat, hi: nat, a: nat, b: nat, inFlight: nat, frees: nat) returns (longer: seq<Move>)
    requires Trail(l, moves, inFlight, frees) && Stage(Final(l, moves), l, lo, hi, a, b)
    requires hi - lo < l.maxDevices && b + 1 - a <= inFlight
    ensures Trail(l, longer, inFlight, frees) && Stage(Final(l, longer), l, lo, hi, a, b + 1)
  {
    hide Trail, Final, Drive, Reach, Take, Repeat, Frees;
    var sys := Final(l, moves);
    var req := Take(l, hi + b - a);
    TakeSplits(l, hi + b - a);
    var begun := Exec(sys, Begin(b, req));
    BegunPends(sys, l, lo, hi, a, b, req);
    FewPending(begun, l.key, a, b + 1);
    longer := TrailOne(l, moves, Begin(b, req), inFlight, frees);
    longer := TrailRepeat(l, longer, b, 4, a, b + 1, inFlight, frees);
    Driven(begun, b, 0, 4);
    JoinDrive(sys.server, l, lo, hi, hi + b - a);
    JoinedStage(sys, l, lo, hi, a, b);
  }

  lemma TakeSplits(l: License, i: nat)
    ensures Split(Take(l, i)) && !Take(l, i).Deactivate?
  {
  }

  lemma BegunPends(sys: System, l: License, lo: nat, hi: nat, a: nat, b: nat, req: Request)
    requires Stage(sys, l, lo, hi, a, b) && Split(req)
    ensures var begun := Exec(sys, Begin(b, req));
      && begun == sys.(flights := sys.flights[b := Flight(req, Looking)]) && Pending(begun, a, b + 1)
      && !Frees(sys, Begin(b, req), l.key)
  {
    hide LiveOn, Inv, HoldersOf;
  }

  lemma JoinedStage(sys: System, l: License, lo: nat, hi: nat, a: nat, b: nat)
    requires Stage(sys, l, lo, hi, a, b)
    ensures var f, g := Flight(Take(l, hi + b - a), Looking), Flight(Take(l, hi + b - a), Passed(l, 0));
      Stage(System(sys.server, sys.flights[b := f][b := g]), l, lo, hi, a, b + 1)
  {
    var f, g := Flight(Take(l, hi + b - a), Looking), Flight(Take(l, hi + b - a), Passed(l, 0));
    SameLive(sys, b, g, sys.server, l.key, ONLINE_GRACE_PERIOD);
    hide LiveOn, Inv, HoldersOf, Take;
    assert sys.flights[b := f][b := g] == sys.flights[b := g];
  }

  /** The first request that passed the check goes on to its token. */
  lemma Finish(l: License, moves: seq<Move>, lo: nat, hi: nat, a: nat, b: nat, inFlight: nat, frees: nat) returns (longer: seq<Move>)
    requires Trail(l, moves, inFlight, frees) && Stage(Final(l, moves), l, lo, hi, a, b) && a < b && b - a <= inFlight
    ensures Trail(l, longer, inFlight, frees) && Stage(Final(l, longer), l, lo, hi + 1, a + 1, b)
  {
    hide Trail, Final, Drive, Reach, Take, Repeat, LiveOn, HoldersOf, Inv;
    var sys := Final(l, moves);
    StagePends(sys, l, lo, hi, a, b);
    TakeSplits(l, hi);
    longer := TrailRepeat(l, moves, a, 3, a, b, inFlight, frees);
    Driven(sys, a, 0, 3);
    FinishDrive(sys.server, l, hi);
    var (s', at') := Drive(sys.server, Take(l, hi), Passed(l, 0), 0, 3);
    FinishedStage(sys, l, lo, hi, a, b, s', at');
  }

  lemma FinishedStage(sys: System, l: License, lo: nat, hi: nat, a: nat, b: nat, s': Server, at': Counter)
    requires Stage(sys, l, lo, hi, a, b) && a < b
    requires Inv(s') && s'.licenses == sys.server.licenses && HoldersOf(s', l.key) == HoldersOf(sys.server, l.key) + {Saturation.Dev(hi)}
    requires GetsToken(at', l, hi)
    ensures Stage(System(s', sys.flights[a := sys.flights[a].(at := at')]), l, lo, hi + 1, a + 1, b)
  {
    hide LiveOn, Inv, HoldersOf, Take, Window.Between, Saturation.Dev;
    OneMoreLive(sys, a, sys.flights[a].(at := at'), s', l.key, ONLINE_GRACE_PERIOD);
    Window.BetweenSize(lo, hi);
    Window.BetweenSize(0, hi);
    var sys' := System(s', sys.flights[a := sys.flights[a].(at := at')]);
    forall t: nat | a + 1 <= t < b ensures sys'.flights[t] == Flight(Take(l, (hi + 1) + t - (a + 1)), Passed(l, 0)) {
      assert (hi + 1) + t - (a + 1) == hi + t - a;
    }
  }

  /** The device that holds the only seat gives it back. */
  lemma Leave(l: License, moves: seq<Move>, lo: nat, a: nat, inFlight: nat, frees: nat) returns (longer: seq<Move>)
    requires Trail(l, moves, inFlight, frees) && Stage(Final(l, moves), l, lo, lo + 1, a, a) && inFlight >= 1
    ensures Trail(l, longer, inFlight, frees + 1) && Stage(Final(l, longer), l, lo + 1, lo + 1, a + 1, a + 1)
  {
    hide Trail, Final, Reach, Statement, Frees, LiveOn, HoldersOf, Inv, Exec, Stage, Pending;
    var sys, req := Final(l, moves), Deactivate(l.key, Saturation.Dev(lo));
    BegunPends(sys, l, lo, lo + 1, a, a, req);
    var s1 := Exec(sys, Begin(a, req));
    FewPending(s1, l.key, a, a + 1);
    longer := TrailOne(l, moves, Begin(a, req), inFlight, frees);
    LeaveSteps(sys, l, lo, a);
    AdvancePends(s1, a, a, a + 1);
    var s2 := Exec(s1, Advance(a, 0));
    FewPending(s2, l.key, a, a + 1);
    longer := TrailOne(l, longer, Advance(a, 0), inFlight, frees);
    AdvancePends(s2, a, a, a + 1);
    var s3 := Exec(s2, Advance(a, 0));
    FewPending(s3, l.key, a, a + 1);
    longer := TrailOne(l, longer, Advance(a, 0), inFlight, frees);
    AdvancePends(s3, a, a, a + 1);
    FewPending(Exec(s3, Advance(a, 0)), l.key, a, a + 1);
    longer := TrailOne(l, longer, Advance(a, 0), inFlight, frees + 1);
  }

  /** The four moves of the release. */
  lemma LeaveSteps(sys: System, l: License, lo: nat, a: nat)
    requires Stage(sys, l, lo, lo + 1, a, a)
    ensures var s1 := Exec(sys, Begin(a, Deactivate(l.key, Saturation.Dev(lo))));
      var s2 := Exec(s1, Advance(a, 0));
      var s3 := Exec(s2, Advance(a, 0));
      && a in s1.flights && a in s2.flights && a in s3.flights
      && !Frees(s1, Advance(a, 0), l.key) && Frees(s2, Advance(a, 0), l.key) && !Frees(s3, Advance(a, 0), l.key)
      && Stage(Exec(s3, Advance(a, 0)), l, lo + 1, lo + 1, a + 1, a + 1)
  {
    var req := Deactivate(l.key, Saturation.Dev(lo));
    var free := ReleaseStatements(sys.server, l, lo);
    var done := Notify(free, Deactivation, l, req.device, 0);
    hide Statement, Inv, HoldersOf, LiveOn, Window.Between;
    var s1 := sys.(flights := sys.flights[a := Flight(req, Looking)]);
    assert Exec(sys, Begin(a, req)) == s1;
    var s2 := sys.(flights := s1.flights[a := Flight(req, Looked(l))]);
    assert Exec(s1, Advance(a, 0)) == s2;
    var s3 := System(free, s2.flights[a := Flight(req, Freed(l))]);
    assert Exec(s2, Advance(a, 0)) == s3;
    var s4 := System(done, s3.flights[a := Flight(req, Ended(Done))]);
    assert Exec(s3, Advance(a, 0)) == s4;
    LeftStage(sys, l, lo, a, req, done);
    assert s4.flights == sys.flights[a := Flight(req, Ended(Done))];
    hide Stage;
  }

  lemma LeftStage(sys: System, l: License, lo: nat, a: nat, req: Request, done: Server)
    requires Stage(sys, l, lo, lo + 1, a, a)
    requires Inv(done) && done.licenses == sys.server.licenses && HoldersOf(done, l.key) == Window.Between(lo + 1, lo + 1)
    ensures Stage(System(done, sys.flights[a := Flight(req, Ended(Done))]), l, lo + 1, lo + 1, a + 1, a + 1)
  {
    hide Inv, HoldersOf, LiveOn, Window.Between, Take;
    SameLive(sys, a, Flight(req, Ended(Done)), done, l.key, ONLINE_GRACE_PERIOD);
  }

  lemma ReleaseStatements(s: Server, l: License, lo: nat) returns (free: Server)
    requires s.licenses == map[l.key := l] && Inv(s) && HoldersOf(s, l.key) == Window.Between(lo, lo + 1)
    ensures var req := Deactivate(l.key, Saturation.Dev(lo));
      var done := Notify(free, Deactivation, l, req.device, 0);
      && Statement(s, req, Looking, 0) == (s, Looked(l)) && Statement(s, req, Looked(l), 0) == (free, Freed(l))
      && Statement(free, req, Freed(l), 0) == (done, Ended(Done)) && req.device in HoldersOf(s, l.key)
      && Inv(done) && done.licenses == s.licenses && HoldersOf(done, l.key) == Window.Between(lo + 1, lo + 1)
  {
    var req := Deactivate(l.key, Saturation.Dev(lo));
    assert req.device in Window.Between(lo, lo + 1);
    free := Statement(s, req, Looked(l), 0).0;
    var f := Flight(req, Looked(l));
    assert Faithful(s, f);
    StatementKeepsTables(s, req, Looked(l), 0);
    StatementHolders(s, req, Looked(l), 0, l.key);
    Window.BetweenSize(lo, lo);
    hide Inv;
  }

  // ---- the run ------------------------------------------------------------------------------

  lemma StartStage(l: License, inFlight: nat)
    requires Saturation.Open(l)
    ensures Trail(l, [], inFlight, 0) && Stage(Final(l, []), l, 0, 0, 0, 0)
  {
    assert Reach(Start(l), [], 0) == Start(l);
    assert FlightOn(Start(l), l.key) == {};
    assert FreesSince(Start(l), [], 0, l.key, 0) == {};
  }

  /** frees devices come and go. */
  lemma {:induction false} ComeAndGo(l: License, inFlight: nat, frees: nat) returns (moves: seq<Move>, a: nat)
    requires Saturation.Open(l) && l.maxDevices >= 1 && inFlight >= 1
    ensures Trail(l, moves, inFlight, frees) && Stage(Final(l, moves), l, frees, frees, a, a)
  {
    hide Trail, Stage;
    if frees == 0 {
      moves, a := [], 0;
      StartStage(l, inFlight);
    } else {
      moves, a := ComeAndGo(l, inFlight, frees - 1);
      moves := Join(l, moves, frees - 1, frees - 1, a, a, inFlight, frees - 1);
      moves := Finish(l, moves, frees - 1, frees - 1, a, a + 1, inFlight, frees - 1);
      moves := Leave(l, moves, frees - 1, a + 1, inFlight, frees - 1);
      a := a + 2;
    }
  }

  /** Then seats devices stay. */
  lemma {:induction false} StayOn(l: License, inFlight: nat, frees: nat, seats: nat) returns (moves: seq<Move>, a: nat)
    requires Saturation.Open(l) && seats < l.maxDevices && inFlight >= 1
    ensures Trail(l, moves, inFlight, frees) && Stage(Final(l, moves), l, frees, frees + seats, a, a)
    decreases seats
  {
    hide Trail, Stage;
    if seats == 0 {
      moves, a := ComeAndGo(l, inFlight, frees);
    } else {
      moves, a := StayOn(l, inFlight, frees, seats - 1);
      moves := Join(l, moves, frees, frees + seats - 1, a, a, inFlight, frees);
      moves := Finish(l, moves, frees, frees + seats - 1, a, a + 1, inFlight, frees);
      a := a + 1;
    }
  }

  /** Then n more pass the check together, and the first p of them go on to their tokens. */
  lemma {:induction false} Together(l: License, inFlight: nat, frees: nat, n: nat, p: nat) returns (moves: seq<Move>, a: nat)
    requires Saturation.Open(l) && l.maxDevices >= 1 && inFlight >= 1 && p <= n <= inFlight
    ensures Trail(l, moves, inFlight, frees)
    ensures Stage(Final(l, moves), l, frees, frees + (l.maxDevices - 1) + p, a + p, a + n)
    decreases n + p
  {
    hide Trail, Stage;
    if p > 0 {
      moves, a := Together(l, inFlight, frees, n, p - 1);
      moves := Finish(l, moves, frees, frees + (l.maxDevices - 1) + p - 1, a + p - 1, a + n, inFlight, frees);
    } else if n > 0 {
      moves, a := Together(l, inFlight, frees, n - 1, 0);
      moves := Join(l, moves, frees, frees + (l.maxDevices - 1), a, a + n - 1, inFlight, frees);
    } else {
      moves, a := StayOn(l, inFlight, frees, l.maxDevices - 1);
    }
  }

  lemma TrailInOrder(l: License, moves: seq<Move>, inFlight: nat, frees: nat)
    requires Trail(l, moves, inFlight, frees)
    ensures InOrder(moves)
  {
  }

  /** For every limit, every number of activations in flight and every number of freed seats the bound
      of the interleaved window is reached. */
  lemma InterleavedWindowIsReached(l: License, inFlight: nat, frees: nat) returns (moves: seq<Move>)
    requires Saturation.Open(l) && l.maxDevices >= 1 && inFlight >= 1
    ensures SysInv(Start(l)) && SeatBound(Start(l), l.key, inFlight) && Start(l).flights == map[] && InOrder(moves)
    ensures forall m :: 0 <= m <= |moves| ==> |FlightOn(Reach(Start(l), moves, m), l.key)| <= inFlight
    ensures |FreesSince(Start(l), moves, |moves|, l.key, 0)| == frees
    ensures |LiveOn(Reach(Start(l), moves, |moves|), l.key, ONLINE_GRACE_PERIOD, false)| == l.maxDevices - 1 + inFlight + frees
  {
    hide SysInv, SeatBound, Reach, InOrder, FlightOn, FreesSince, LiveOn, Inv, HoldersOf;
    var a: nat;
    moves, a := Together(l, inFlight, frees, inFlight, inFlight);
    Window.BetweenSize(0, frees + (l.maxDevices - 1) + inFlight);
    TrailInOrder(l, moves, inFlight, frees);
    Saturation.NothingYet(l, inFlight);
  }
}
