/** The device rows of interleaved runs: every statement stamps its own clock reading, rows are never
    deleted, and which stamps are still in order. */
module InterleavedRows {
  import opened Common
  import opened Models
  import opened Seats
  import opened Licensing
  import opened SeatTheorems
  import opened Interleaving
  import opened InterleavedTokens

  /** No stamp lies in the future, and activation comes before last contact and release. */
  ghost predicate StampedLoosely(t: Table, now: Time) {
    forall k :: k in t.rows ==>
      var d := t.rows[k];
      && d.activatedAt <= d.lastSeenAt <= now
      && (d.deactivatedAt.Some? ==> d.activatedAt <= d.deactivatedAt.value <= now)
  }

  /** A statement that writes stamps the reading of its own moment, not the one the request goes by. */
  lemma StatementStampsNow(s: Server, f: Flight, now: Time)
    requires Inv(s) && Faithful(s, f) && HasRead(f.at)
    ensures var (s', at') := Statement(s, f.req, f.at, now);
      var k := (f.at.l.id, f.req.device);
      && (f.at.Passed? ==> k in s'.devices.rows && var d := s'.devices.rows[k];
           d.activatedAt == d.lastSeenAt == now && d.deactivatedAt.None? && d.name == f.req.name)
      && (f.at.Touching? ==> k in s'.devices.rows && s'.devices.rows[k] == s.devices.rows[k].(lastSeenAt := now))
      && (at'.Freed? ==> k in s'.devices.rows && s'.devices.rows[k] == s.devices.rows[k].(deactivatedAt := Some(now)))
      && (f.at.Inserted? || f.at.Freed? ==> |s'.events| == |s.events| + 1 && s'.events[|s.events|].at == now)
  {
    if f.at.Touching? { TouchIdIsTouch(s.devices, (f.at.l.id, f.req.device), now); }
    hide TouchId;
  }

  lemma StatementKeepsStamps(s: Server, f: Flight, before: Time, now: Time)
    requires Split(f.req) && StampedLoosely(s.devices, before) && before <= now
    ensures StampedLoosely(Statement(s, f.req, f.at, now).0.devices, now)
  {
    hide Inv;
  }

  lemma MoveKeepsStamps(sys: System, move: Move, before: Time)
    requires StampedLoosely(sys.server.devices, before) && (Timed(move) ==> before <= move.now)
    ensures StampedLoosely(Exec(sys, move).server.devices, if Timed(move) then move.now else before)
  {
    if move.Advance? && move.tid in sys.flights && Split(sys.flights[move.tid].req) {
      StatementKeepsStamps(sys.server, sys.flights[move.tid], before, move.now);
    }
    hide Statement, HoldersOf;
  }

  /** In every interleaved run on an ordered clock, activation comes before last contact and release,
      and no stamp lies after the latest move. */
  lemma {:induction false} InterleavedStamps(sys: System, moves: seq<Move>, n: nat, start: Time, now: Time)
    requires n <= |moves| && InOrder(moves) && StampedLoosely(sys.server.devices, start) && start <= now
    requires forall i :: 0 <= i < |moves| && Timed(moves[i]) ==> start <= moves[i].now
    requires forall i :: 0 <= i < n && Timed(moves[i]) ==> moves[i].now <= now
    ensures StampedLoosely(Reach(sys, moves, n).server.devices, now)
  {
    hide Exec, StampedLoosely;
    if n > 0 {
      var move := moves[n - 1];
      var before := if Timed(move) then move.now else now;
      InterleavedStamps(sys, moves, n - 1, start, before);
      MoveKeepsStamps(Reach(sys, moves, n - 1), move, before);
      Later(Reach(sys, moves, n).server.devices, before, now);
    } else {
      Later(sys.server.devices, start, now);
    }
  }

  lemma Later(t: Table, before: Time, now: Time)
    requires StampedLoosely(t, before) && before <= now
    ensures StampedLoosely(t, now)
  {
  }

  // ---- last contact and release -------------------------------------------------------------

  /** Activation, last contact, release, in this order. */
  ghost predicate OrderedRows(t: Table) {
    forall k :: k in t.rows ==>
      var d := t.rows[k];
      d.activatedAt <= d.lastSeenAt && (d.deactivatedAt.Some? ==> d.lastSeenAt <= d.deactivatedAt.value)
  }

  /** The move touches a row that was freed earlier, after its request found the device in its seat. */
  predicate LateTouch(sys: System, move: Move) {
    && move.Advance? && move.tid in sys.flights && Split(sys.flights[move.tid].req) && sys.flights[move.tid].at.Touching?
    && var k := (sys.flights[move.tid].at.l.id, sys.flights[move.tid].req.device);
    && k in sys.server.devices.rows && sys.server.devices.rows[k].deactivatedAt.Some?
    && sys.server.devices.rows[k].deactivatedAt.value < move.now
  }

  lemma TouchOrder(sys: System, move: Move)
    requires SysInv(sys) && move.Advance? && move.tid in sys.flights && sys.flights[move.tid].at.Touching?
    requires OrderedRows(sys.server.devices) && StampedLoosely(sys.server.devices, move.now)
    ensures OrderedRows(Exec(sys, move).server.devices) <==> !LateTouch(sys, move)
  {
    var f := sys.flights[move.tid];
    assert Faithful(sys.server, f);
    var k := (f.at.l.id, f.req.device);
    TouchIdIsTouch(sys.server.devices, k, move.now);
    var t := Exec(sys, move).server.devices;
    assert t == Touch(sys.server.devices, k, move.now);
    assert t.rows[k].lastSeenAt == move.now;
    hide TouchId, Statement, Inv, SysInv;
  }

  lemma OtherOrder(sys: System, move: Move)
    requires SysInv(sys) && OrderedRows(sys.server.devices) && (Timed(move) ==> StampedLoosely(sys.server.devices, move.now))
    requires !(move.Advance? && move.tid in sys.flights && sys.flights[move.tid].at.Touching?)
    ensures OrderedRows(Exec(sys, move).server.devices)
  {
    hide TouchId, Inv;
    if move.Advance? && move.tid in sys.flights {
      assert Split(sys.flights[move.tid].req);
    }
  }

  /** In atomic runs last contact never comes after release. In interleaved ones that holds of every
      state of a run exactly if no move touches a row that was freed earlier. */
  lemma {:induction false} OrderedUnlessLate(sys: System, moves: seq<Move>, n: nat, start: Time)
    requires SysInv(sys) && n <= |moves| && InOrder(moves) && OrderedRows(sys.server.devices) && StampedLoosely(sys.server.devices, start)
    requires forall i :: 0 <= i < |moves| && Timed(moves[i]) ==> start <= moves[i].now
    ensures (forall m :: 0 <= m <= n ==> OrderedRows(Reach(sys, moves, m).server.devices)) <==>
      (forall i :: 0 <= i < n ==> !LateTouch(Reach(sys, moves, i), moves[i]))
  {
    hide Exec, SysInv, OrderedRows, LateTouch, InOrder, StampedLoosely;
    if n == 0 {
      assert Reach(sys, moves, 0) == sys;
    } else {
      OrderedUnlessLate(sys, moves, n - 1, start);
      if OrderedRows(Reach(sys, moves, n - 1).server.devices) { OrderStep(sys, moves, n - 1, start); }
      hide Reach;
    }
  }

  lemma OrderStep(sys: System, moves: seq<Move>, n: nat, start: Time)
    requires SysInv(sys) && n < |moves| && InOrder(moves) && StampedLoosely(sys.server.devices, start)
    requires forall i :: 0 <= i < |moves| && Timed(moves[i]) ==> start <= moves[i].now
    requires OrderedRows(Reach(sys, moves, n).server.devices)
    ensures OrderedRows(Reach(sys, moves, n + 1).server.devices) <==> !LateTouch(Reach(sys, moves, n), moves[n])
  {
    hide Exec, SysInv, OrderedRows, StampedLoosely;
    var before, move := Reach(sys, moves, n), moves[n];
    ReachKeepsInv(sys, moves, n);
    if Timed(move) { InterleavedStamps(sys, moves, n, start, move.now); }
    if move.Advance? && move.tid in before.flights && before.flights[move.tid].at.Touching? {
      TouchOrder(before, move);
    } else {
      OtherOrder(before, move);
    }
  }

  /** And late touches occur: a request that found its device in its seat touches the row after another
      one has freed it. */
  lemma TouchAfterRelease(sys: System, p: nat, q: nat, now: Time, later: Time)
    requires SysInv(sys) && p in sys.flights && sys.flights[p].at.Touching? && q in sys.flights && now < later
    requires sys.flights[q].req.Deactivate? && sys.flights[q].at.Looked? && sys.flights[q].at.l.id == sys.flights[p].at.l.id
    requires sys.flights[q].req.device == sys.flights[p].req.device
    requires sys.flights[p].req.device in Holders(sys.server.devices, sys.flights[p].at.l.id)
    ensures LateTouch(Exec(sys, Advance(q, now)), Advance(p, later))
  {
    assert Faithful(sys.server, sys.flights[p]) && Faithful(sys.server, sys.flights[q]);
  }

  lemma MoveKeepsRows(sys: System, move: Move)
    requires SysInv(sys)
    ensures Preserves(sys.server.devices, Exec(sys, move).server.devices)
  {
    match move {
      case Advance(tid, now) =>
        if tid in sys.flights && Split(sys.flights[tid].req) {
          StatementKeepsRows(sys.server, sys.flights[tid].req, sys.flights[tid].at, now);
        }
      case Admin(now, req) => if !Split(req) { ServeRows(sys.server, now, req); }
      case Begin(_, _) =>
    }
    hide Statement, Serve, Inv;
  }

  /** Rows are never deleted and keep their ids in interleaved runs too. */
  lemma {:induction false} InterleavedRowsPersist(sys: System, moves: seq<Move>, m: nat, n: nat)
    requires SysInv(sys) && m <= n <= |moves|
    ensures Preserves(Reach(sys, moves, m).server.devices, Reach(sys, moves, n).server.devices)
    decreases n
  {
    hide Exec, SysInv;
    if m < n {
      InterleavedRowsPersist(sys, moves, m, n - 1);
      ReachKeepsInv(sys, moves, n - 1);
      MoveKeepsRows(Reach(sys, moves, n - 1), moves[n - 1]);
    }
  }
}
