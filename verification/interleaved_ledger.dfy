/** The event ledger when requests interleave. It is off by exactly the redundant inserts, those of a
    device that already holds its seat, and by nothing else. */
module InterleavedLedger {
  import opened Models
  import opened Licensing
  import opened SeatTheorems
  import opened Interleaving
  import opened Concurrency
  import Saturation

  /** Inserts of a license, reported or not, beyond its active seats and its releases, reported or not. */
  function Surplus(sys: System, key: string): int {
    Count(sys.server.events, Activation, key) + |InsertedOn(sys, key)|
      - |HoldersOf(sys.server, key)| - Count(sys.server.events, Deactivation, key) - |FreedOn(sys, key)|
  }

  /** The move runs the insert of a request whose device has meanwhile got a seat. */
  predicate Redundant(sys: System, move: Move, key: string) {
    && move.Advance? && move.tid in sys.flights
    && Split(sys.flights[move.tid].req) && sys.flights[move.tid].at.Passed?
    && sys.flights[move.tid].req.key == key && sys.flights[move.tid].req.device in HoldersOf(sys.server, key)
  }

  function RedundantInserts(sys: System, moves: seq<Move>, n: nat, key: string): nat
    requires n <= |moves|
  {
    if n == 0 then 0
    else RedundantInserts(sys, moves, n - 1, key) + if Redundant(Reach(sys, moves, n - 1), moves[n - 1], key) then 1 else 0
  }

  lemma StatementEvents(s: Server, f: Flight, now: Time, key: string)
    requires Inv(s) && Faithful(s, f)
    ensures var s' := Statement(s, f.req, f.at, now).0;
      && Count(s'.events, Activation, key) == Count(s.events, Activation, key) + (if f.at.Inserted? && f.req.key == key then 1 else 0)
      && Count(s'.events, Deactivation, key) == Count(s.events, Deactivation, key) + (if f.at.Freed? && f.req.key == key then 1 else 0)
  {
    if f.at.Inserted? || f.at.Freed? {
      var e := Event(if f.at.Inserted? then Activation else Deactivation, f.at.l.key, f.at.l.product, f.at.l.customer, f.req.device, now);
      OneMore(s.events, e, Activation, key, "");
      OneMore(s.events, e, Deactivation, key, "");
    }
  }

  lemma NextCounter(s: Server, f: Flight, now: Time)
    requires Inv(s) && Faithful(s, f)
    ensures var at' := Statement(s, f.req, f.at, now).1;
      && (at'.Inserted? <==> f.at.Passed?) && (at'.Freed? ==> f.at.Looked?)
  {
  }

  lemma AdvanceSurplus(sys: System, tid: nat, now: Time, key: string)
    requires SysInv(sys) && key in sys.server.licenses && tid in sys.flights
    ensures Surplus(Exec(sys, Advance(tid, now)), key)
         == Surplus(sys, key) + if Redundant(sys, Advance(tid, now), key) then 1 else 0
  {
    hide Statement, Count, HoldersOf, Inv;
    var f := sys.flights[tid];
    var (s', at') := Statement(sys.server, f.req, f.at, now);
    StatementKeepsTables(sys.server, f.req, f.at, now);
    StatementHolders(sys.server, f.req, f.at, now, key);
    StatementEvents(sys.server, f, now, key);
    NextCounter(sys.server, f, now);
    MovedOn(sys, tid, s', at', key);
    Shrunk(InsertedOn(sys, key), tid);
    Shrunk(FreedOn(sys, key), tid);
    Shrunk(HoldersOf(sys.server, key), f.req.device);
  }

  lemma ExecSurplus(sys: System, move: Move, key: string)
    requires SysInv(sys) && key in sys.server.licenses
    ensures key in Exec(sys, move).server.licenses
    ensures Surplus(Exec(sys, move), key) == Surplus(sys, key) + if Redundant(sys, move, key) then 1 else 0
  {
    var sys' := Exec(sys, move);
    match move {
      case Begin(tid, req) =>
        assert InsertedOn(sys', key) == InsertedOn(sys, key) && FreedOn(sys', key) == FreedOn(sys, key);
      case Advance(tid, now) =>
        if tid in sys.flights {
          StatementKeepsTables(sys.server, sys.flights[tid].req, sys.flights[tid].at, now);
          AdvanceSurplus(sys, tid, now, key);
        }
      case Admin(now, req) =>
        if !Split(req) {
          AdminHolders(sys.server, now, req, key);
          ServeKeepsTerms(sys.server, now, req, key);
        }
        assert InsertedOn(sys', key) == InsertedOn(sys, key) && FreedOn(sys', key) == FreedOn(sys, key);
    }
  }

  /** In every interleaved run the surplus grows by the redundant inserts exactly. */
  lemma {:induction false} LedgerExact(sys: System, moves: seq<Move>, n: nat, key: string)
    requires SysInv(sys) && key in sys.server.licenses && n <= |moves|
    ensures key in Reach(sys, moves, n).server.licenses
    ensures Surplus(Reach(sys, moves, n), key) == Surplus(sys, key) + RedundantInserts(sys, moves, n, key)
  {
    hide Exec, Redundant, Surplus;
    if n > 0 {
      LedgerExact(sys, moves, n - 1, key);
      ReachKeepsInv(sys, moves, n - 1);
      ExecSurplus(Reach(sys, moves, n - 1), moves[n - 1], key);
    }
  }

  /** So from balanced books successful inserts number at least the active seats plus the successful
      releases, and they number exactly that many if and only if no insert was redundant. */
  lemma LedgerCovers(sys: System, moves: seq<Move>, n: nat, key: string)
    requires SysInv(sys) && key in sys.server.licenses && Surplus(sys, key) == 0 && n <= |moves|
    ensures Surplus(Reach(sys, moves, n), key) >= 0
    ensures Surplus(Reach(sys, moves, n), key) == 0 <==>
      forall i :: 0 <= i < n ==> !Redundant(Reach(sys, moves, i), moves[i], key)
  {
    hide Surplus, Reach, Redundant, RedundantInserts;
    LedgerExact(sys, moves, n, key);
    NoneRedundant(sys, moves, n, key);
  }

  lemma {:induction false} NoneRedundant(sys: System, moves: seq<Move>, n: nat, key: string)
    requires n <= |moves|
    ensures RedundantInserts(sys, moves, n, key) == 0 <==>
      forall i :: 0 <= i < n ==> !Redundant(Reach(sys, moves, i), moves[i], key)
  {
    hide Exec, Redundant;
    if n > 0 { NoneRedundant(sys, moves, n - 1, key); }
  }

  // ---- when no insert is redundant ----------------------------------------------------------

  /** No two activations of the license in flight name the same device. */
  ghost predicate NoTwins(sys: System, key: string) {
    forall p, q :: p in FlightOn(sys, key) && q in FlightOn(sys, key) && p != q ==>
      sys.flights[p].req.device != sys.flights[q].req.device
  }

  /** A request that found its device without a seat and has not inserted yet still finds it so. */
  ghost predicate Unseated(sys: System, key: string) {
    forall t :: t in sys.flights && Split(sys.flights[t].req) && sys.flights[t].req.key == key && (sys.flights[t].at.Counting? || sys.flights[t].at.Passed?) ==>
      sys.flights[t].req.device !in HoldersOf(sys.server, key)
  }

  lemma FindsUnseated(s: Server, f: Flight, now: Time)
    requires Inv(s) && Faithful(s, f)
    ensures var at' := Statement(s, f.req, f.at, now).1;
      at'.Counting? || at'.Passed? ==>
        f.req.Activate? && (f.at.Counting? || (f.at.Checked? && f.req.device !in HoldersOf(s, f.req.key)))
  {
  }

  lemma AdvanceUnseated(sys: System, tid: nat, now: Time, key: string)
    requires SysInv(sys) && key in sys.server.licenses && tid in sys.flights && NoTwins(sys, key) && Unseated(sys, key)
    ensures Unseated(Exec(sys, Advance(tid, now)), key)
  {
    var f, sys' := sys.flights[tid], Exec(sys, Advance(tid, now));
    StatementHolders(sys.server, f.req, f.at, now, key);
    FindsUnseated(sys.server, f, now);
    NextCounter(sys.server, f, now);
    hide Statement;
    forall t | t in sys'.flights && Split(sys'.flights[t].req) && sys'.flights[t].req.key == key
               && (sys'.flights[t].at.Counting? || sys'.flights[t].at.Passed?)
      ensures sys'.flights[t].req.device !in HoldersOf(sys'.server, key)
    {
      assert Faithful(sys.server, sys.flights[t]);
      if t != tid && f.at.Passed? && f.req.key == key {
        assert t in FlightOn(sys, key) && tid in FlightOn(sys, key);
      }
    }
  }

  lemma ExecUnseated(sys: System, move: Move, key: string)
    requires SysInv(sys) && key in sys.server.licenses && NoTwins(sys, key) && Unseated(sys, key)
    ensures Unseated(Exec(sys, move), key)
  {
    match move {
      case Begin(tid, req) =>
      case Advance(tid, now) => if tid in sys.flights { AdvanceUnseated(sys, tid, now, key); }
      case Admin(now, req) => if !Split(req) { AdminHolders(sys.server, now, req, key); }
    }
  }

  lemma NotRedundant(sys: System, move: Move, key: string)
    requires Unseated(sys, key)
    ensures !Redundant(sys, move, key)
  {
  }

  /** As long as no two activations of one device overlap, the books balance at every step. */
  lemma {:induction false} BalancedWithoutTwins(sys: System, moves: seq<Move>, n: nat, key: string)
    requires SysInv(sys) && key in sys.server.licenses && Unseated(sys, key) && n <= |moves|
    requires forall m :: 0 <= m < n ==> NoTwins(Reach(sys, moves, m), key)
    ensures key in Reach(sys, moves, n).server.licenses && Unseated(Reach(sys, moves, n), key)
    ensures Surplus(Reach(sys, moves, n), key) == Surplus(sys, key)
  {
    hide Exec, Surplus, NoTwins, Unseated, Redundant;
    if n > 0 {
      BalancedWithoutTwins(sys, moves, n - 1, key);
      ReachKeepsInv(sys, moves, n - 1);
      ExecSurplus(Reach(sys, moves, n - 1), moves[n - 1], key);
      NotRedundant(Reach(sys, moves, n - 1), moves[n - 1], key);
      ExecUnseated(Reach(sys, moves, n - 1), moves[n - 1], key);
    }
  }

  // ---- runs with redundant inserts ----------------------------------------------------------

  function Ask(l: License, d: string): Request {
    Activate(l.key, d, "", false)
  }

  /** k activations of one device all passed the check, and the first p of them have inserted. */
  ghost predicate Crowd(sys: System, l: License, d: string, p: nat, k: nat) {
    && p <= k && sys.server.licenses == map[l.key := l] && Inv(sys.server) && sys.server.events == []
    && HoldersOf(sys.server, l.key) == (if p == 0 then {} else {d})
    && (forall t: nat :: t in sys.flights <==> t < k)
    && (forall t: nat :: t < k ==> sys.flights[t] == Flight(Ask(l, d), if t < p then Inserted(l, 0) else Passed(l, 0)))
  }

  /** The same with request k on its way to the check. */
  ghost predicate Coming(sys: System, l: License, d: string, k: nat, at: Counter) {
    && k in sys.flights && sys.flights[k] == Flight(Ask(l, d), at)
    && Crowd(sys.(flights := sys.flights - {k}), l, d, 0, k)
  }

  lemma ComesCloser(sys: System, l: License, d: string, k: nat, at: Counter)
    requires Coming(sys, l, d, k, at) && Saturation.Open(l) && l.maxDevices >= 1
    requires at in {Looking, Looked(l), Checked(l, 0), Counting(l, 0)}
    ensures Coming(Exec(sys, Advance(k, 0)), l, d, k, Saturation.NextTo(l, at))
  {
    assert Statement(sys.server, Ask(l, d), at, 0) == (sys.server, Saturation.NextTo(l, at));
    var end := Exec(sys, Advance(k, 0));
    hide Statement;
    assert end.flights - {k} == sys.flights - {k};
  }

  lemma HasCome(sys: System, l: License, d: string, k: nat)
    requires Coming(sys, l, d, k, Passed(l, 0))
    ensures Crowd(sys, l, d, 0, k + 1)
  {
    var rest := sys.flights - {k};
    forall t: nat ensures t in sys.flights <==> t < k + 1 {
      assert t in rest <==> t < k;
    }
    forall t: nat | t < k ensures sys.flights[t] == Flight(Ask(l, d), Passed(l, 0)) {
      assert t in rest && rest[t] == sys.flights[t];
    }
  }

  lemma OneMoreMove(sys: System, moves: seq<Move>, move: Move) returns (longer: seq<Move>)
    ensures Reach(sys, longer, |longer|) == Exec(Reach(sys, moves, |moves|), move)
  {
    longer := moves + [move];
    Saturation.ReachJoined(sys, moves, [move], |moves|);
  }

  lemma NobodyYet(l: License, d: string)
    ensures Crowd(Reach(Saturation.Start(l), [], 0), l, d, 0, 0)
  {
  }

  /** From the start of the request to the check in four statements. */
  lemma ComesThrough(start: System, before: seq<Move>, l: License, d: string, k: nat) returns (moves: seq<Move>)
    requires Coming(Reach(start, before, |before|), l, d, k, Looking) && Saturation.Open(l) && l.maxDevices >= 1
    ensures Crowd(Reach(start, moves, |moves|), l, d, 0, k + 1)
  {
    hide Coming, Crowd, Exec, Reach;
    moves := before;
    var at := Looking;
    for i := 0 to 4
      invariant at == [Looking, Looked(l), Checked(l, 0), Counting(l, 0), Passed(l, 0)][i]
      invariant Coming(Reach(start, moves, |moves|), l, d, k, at)
    {
      ComesCloser(Reach(start, moves, |moves|), l, d, k, at);
      moves := OneMoreMove(start, moves, Advance(k, 0));
      at := Saturation.NextTo(l, at);
    }
    HasCome(Reach(start, moves, |moves|), l, d, k);
  }

  lemma {:induction false} Gathers(l: License, d: string, k: nat) returns (moves: seq<Move>)
    requires Saturation.Open(l) && l.maxDevices >= 1
    ensures Crowd(Reach(Saturation.Start(l), moves, |moves|), l, d, 0, k)
  {
    hide Coming, Crowd, Exec, Reach, Saturation.Start;
    if k == 0 {
      moves := [];
      NobodyYet(l, d);
    } else {
      var start := Saturation.Start(l);
      moves := Gathers(l, d, k - 1);
      Begins(Reach(start, moves, |moves|), l, d, k - 1);
      moves := OneMoreMove(start, moves, Begin(k - 1, Ask(l, d)));
      moves := ComesThrough(start, moves, l, d, k - 1);
    }
  }

  lemma Begins(sys: System, l: License, d: string, k: nat)
    requires Crowd(sys, l, d, 0, k)
    ensures Coming(Exec(sys, Begin(k, Ask(l, d))), l, d, k, Looking)
  {
    var end := Exec(sys, Begin(k, Ask(l, d)));
    assert end.flights - {k} == sys.flights;
  }

  lemma InsertStatement(s: Server, l: License, d: string)
    requires s.licenses == map[l.key := l] && Inv(s) && Saturation.Open(l)
    ensures var (s', at') := Statement(s, Ask(l, d), Passed(l, 0), 0);
      && Inv(s') && s'.licenses == s.licenses && s'.events == s.events
      && at' == Inserted(l, 0) && HoldersOf(s', l.key) == HoldersOf(s, l.key) + {d}
  {
    var f := Flight(Ask(l, d), Passed(l, 0));
    assert Faithful(s, f);
    StatementKeepsTables(s, f.req, f.at, 0);
    StatementHolders(s, f.req, f.at, 0, l.key);
  }

  lemma InsertsNext(sys: System, l: License, d: string, p: nat, k: nat)
    requires Crowd(sys, l, d, p, k) && p < k && Saturation.Open(l)
    ensures Crowd(Exec(sys, Advance(p, 0)), l, d, p + 1, k)
  {
    hide Statement, Inv, HoldersOf;
    InsertStatement(sys.server, l, d);
  }

  lemma {:induction false} AllInsert(l: License, d: string, p: nat, k: nat) returns (moves: seq<Move>)
    requires Saturation.Open(l) && l.maxDevices >= 1 && p <= k
    ensures Crowd(Reach(Saturation.Start(l), moves, |moves|), l, d, p, k)
    decreases p
  {
    hide Crowd, Exec, Reach, Saturation.Start;
    if p == 0 {
      moves := Gathers(l, d, k);
    } else {
      moves := AllInsert(l, d, p - 1, k);
      InsertsNext(Reach(Saturation.Start(l), moves, |moves|), l, d, p - 1, k);
      moves := OneMoreMove(Saturation.Start(l), moves, Advance(p - 1, 0));
    }
  }

  lemma CrowdSurplus(sys: System, l: License, d: string, k: nat)
    requires Crowd(sys, l, d, k, k) && k >= 1
    ensures |InsertedOn(sys, l.key)| == k && Surplus(sys, l.key) == k - 1
  {
    Saturation.RangeFacts(0, k);
    assert InsertedOn(sys, l.key) == Saturation.Range(0, k);
    assert FreedOn(sys, l.key) == {};
  }

  lemma StartBalanced(l: License)
    ensures SysInv(Saturation.Start(l)) && Surplus(Saturation.Start(l), l.key) == 0 && Unseated(Saturation.Start(l), l.key)
  {
    assert Saturation.Start(l).server.licenses.Keys == {l.key};
  }

  /** Overlapping activations of one device do unbalance the books: for every k some run makes k
      successful inserts for one seat, so k - 1 of them redundant. */
  lemma OneSeatManyInserts(l: License, d: string, k: nat) returns (moves: seq<Move>)
    requires Saturation.Open(l) && l.maxDevices >= 1 && k >= 1
    ensures var start := Saturation.Start(l);
      var end := Reach(start, moves, |moves|);
      && SysInv(start) && Surplus(start, l.key) == 0
      && HoldersOf(end.server, l.key) == {d} && |InsertedOn(end, l.key)| == k
      && Surplus(end, l.key) == k - 1 && RedundantInserts(start, moves, |moves|, l.key) == k - 1
  {
    moves := AllInsert(l, d, k, k);
    StartBalanced(l);
    CrowdSurplus(Reach(Saturation.Start(l), moves, |moves|), l, d, k);
    LedgerExact(Saturation.Start(l), moves, |moves|, l.key);
    hide Surplus, Reach, RedundantInserts, SysInv;
  }
}
