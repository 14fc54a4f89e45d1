/** The window of live tokens is exact: for every limit and every number of releases some run has
    limit plus releases devices with a live online token, seven days after all of it. */
module Window {
  import opened Models
  import opened Seats
  import opened Licensing
  import opened SeatTheorems
  import opened TokenTheorems
  import Saturation

  function Empty(l: License): Server {
    Server(map[l.key := l], EMPTY_TABLE, [])
  }

  /** The devices with a live token, and the releases, of a run seen from seven days after time 0. */
  function Alive(l: License, run: Run): set<string> {
    LiveDevices(Empty(l), run, |run|, l.key, ONLINE_GRACE_PERIOD, false)
  }

  function Gone(l: License, run: Run): set<nat> {
    ReleasesSince(Empty(l), run, |run|, l.key, 0)
  }

  function Final(l: License, run: Run): Server {
    After(Empty(l), run, |run|)
  }

  /** Devices from lo to hi - 1. */
  function Between(lo: nat, hi: nat): set<string> {
    set i | lo <= i < hi :: Saturation.Dev(i)
  }

  ghost predicate Seated(s: Server, l: License, lo: nat, hi: nat) {
    s.licenses == map[l.key := l] && Inv(s) && HoldersOf(s, l.key) == Between(lo, hi)
  }

  /** k devices came and went, m more hold a seat, all at time 0. */
  ghost predicate Filled(l: License, run: Run, k: nat, m: nat) {
    && Saturation.Open(l) && (forall i :: 0 <= i < |run| ==> run[i].now == 0)
    && Seated(Final(l, run), l, k, k + m)
    && Alive(l, run) == Between(0, k + m) && |Gone(l, run)| == k
  }

  lemma Steps(l: License, run: Run, req: Request)
    ensures var longer := run + [Step(0, req)];
      && Final(l, longer) == Serve(Final(l, run), 0, req).0
      && ReplyAt(Empty(l), longer, |run|) == Serve(Final(l, run), 0, req).1
      && forall i :: 0 <= i < |run| ==> ReplyAt(Empty(l), longer, i) == ReplyAt(Empty(l), run, i)
  {
    hide Serve;
    var longer := run + [Step(0, req)];
    forall i | 0 <= i <= |run| ensures After(Empty(l), longer, i) == After(Empty(l), run, i) {
      assert longer[..i] == run[..i];
      SamePrefix(Empty(l), longer, run, i);
    }
  }

  lemma GrantGrows(l: License, run: Run, req: Request, token: Token)
    requires Serve(Final(l, run), 0, req).1 == Granted(token)
    requires token.licenseKey == l.key && !token.offline && ONLINE_GRACE_PERIOD <= token.validUntil && !req.Deactivate?
    ensures var longer := run + [Step(0, req)];
      Alive(l, longer) == Alive(l, run) + {token.deviceId} && Gone(l, longer) == Gone(l, run)
  {
    hide Serve, After;
    Steps(l, run, req);
    var longer, s, T := run + [Step(0, req)], Empty(l), ONLINE_GRACE_PERIOD;
    var before, after := LiveGrants(s, run, |run|, l.key, T, false), LiveGrants(s, longer, |longer|, l.key, T, false);
    assert after == before + {|run|};
    assert forall i :: i in before ==> GrantedTo(s, longer, i) == GrantedTo(s, run, i);
    forall d ensures d in Alive(l, longer) <==> d in Alive(l, run) + {token.deviceId} {
      if d in Alive(l, run) { var i :| i in before && d == GrantedTo(s, run, i); assert i in after; }
      if d == token.deviceId { assert |run| in after && GrantedTo(s, longer, |run|) == d; }
    }
  }

  lemma ReleaseGrows(l: License, run: Run, device: string)
    requires Serve(Final(l, run), 0, Deactivate(l.key, device)).1 == Done
    ensures var longer := run + [Step(0, Deactivate(l.key, device))];
      Alive(l, longer) == Alive(l, run) && Gone(l, longer) == Gone(l, run) + {|run|}
  {
    hide Serve, After;
    Steps(l, run, Deactivate(l.key, device));
    var longer, s, T := run + [Step(0, Deactivate(l.key, device))], Empty(l), ONLINE_GRACE_PERIOD;
    var before, after := LiveGrants(s, run, |run|, l.key, T, false), LiveGrants(s, longer, |longer|, l.key, T, false);
    assert after == before;
    assert forall i :: i in before ==> GrantedTo(s, longer, i) == GrantedTo(s, run, i);
  }

  lemma {:induction false} BetweenSize(lo: nat, hi: nat)
    requires lo <= hi
    ensures |Between(lo, hi)| == hi - lo
    ensures Saturation.Dev(hi) !in Between(lo, hi) && Between(lo, hi + 1) == Between(lo, hi) + {Saturation.Dev(hi)}
  {
    assert forall i :: lo <= i < hi ==> |Saturation.Dev(i)| == i;
    if lo < hi { BetweenSize(lo, hi - 1); }
  }

  lemma TakeServer(s: Server, l: License, lo: nat, hi: nat)
    requires Seated(s, l, lo, hi) && Saturation.Open(l) && lo <= hi && hi - lo < l.maxDevices
    ensures var (s', reply) := Serve(s, 0, Activate(l.key, Saturation.Dev(hi), "", false));
      && Seated(s', l, lo, hi + 1) && reply.Granted?
      && reply.token.licenseKey == l.key && reply.token.deviceId == Saturation.Dev(hi)
      && !reply.token.offline && reply.token.validUntil == ONLINE_GRACE_PERIOD
  {
    var d := Saturation.Dev(hi);
    BetweenSize(lo, hi);
    ActivateReply(s, 0, l.key, d, "", false);
    ActivateHolders(s, 0, l.key, d, "", false, l.key);
    ActivateSigns(s, 0, l.key, d, "", false);
    ServeKeepsInv(s, 0, Activate(l.key, d, "", false));
    hide DoActivate, Inv;
  }

  /** The next device is activated. */
  lemma TakeOne(l: License, run: Run, k: nat, m: nat) returns (longer: Run)
    requires Filled(l, run, k, m) && m < l.maxDevices
    ensures Filled(l, longer, k, m + 1)
  {
    hide After, Serve, Seated, Alive, Gone;
    var s, req := Final(l, run), Activate(l.key, Saturation.Dev(k + m), "", false);
    longer := run + [Step(0, req)];
    BetweenSize(0, k + m);
    TakeServer(s, l, k, k + m);
    Steps(l, run, req);
    GrantGrows(l, run, req, Serve(s, 0, req).1.token);
  }

  lemma LeaveServer(s: Server, l: License, k: nat)
    requires Seated(s, l, k, k + 1)
    ensures var (s', reply) := Serve(s, 0, Deactivate(l.key, Saturation.Dev(k)));
      Seated(s', l, k + 1, k + 1) && reply == Done
  {
    var d := Saturation.Dev(k);
    BetweenSize(k, k);
    assert d in Between(k, k + 1);
    DeactivateHolders(s, 0, l.key, d, l.key);
    ServeKeepsInv(s, 0, Deactivate(l.key, d));
    hide Inv;
  }

  /** The only seat is released. */
  lemma LeaveOne(l: License, run: Run, k: nat) returns (longer: Run)
    requires Filled(l, run, k, 1)
    ensures Filled(l, longer, k + 1, 0)
  {
    hide After, Serve, Seated, Alive, Gone;
    var s, req := Final(l, run), Deactivate(l.key, Saturation.Dev(k));
    longer := run + [Step(0, req)];
    LeaveServer(s, l, k);
    Steps(l, run, req);
    ReleaseGrows(l, run, Saturation.Dev(k));
    FreshRelease(l, run);
  }

  lemma FreshRelease(l: License, run: Run)
    ensures |run| !in Gone(l, run)
  {
  }

  lemma StartFilled(l: License)
    requires Saturation.Open(l)
    ensures Filled(l, [], 0, 0)
  {
  }

  lemma {:induction false} FillWindow(l: License, k: nat, m: nat) returns (run: Run)
    requires Saturation.Open(l) && l.maxDevices >= 1 && m <= l.maxDevices
    ensures Filled(l, run, k, m)
    decreases k, m
  {
    hide Filled;
    if m > 0 {
      run := FillWindow(l, k, m - 1);
      run := TakeOne(l, run, k, m - 1);
    } else if k > 0 {
      run := FillWindow(l, k - 1, 0);
      run := TakeOne(l, run, k - 1, 0);
      run := LeaveOne(l, run, k - 1);
    } else {
      run := [];
      StartFilled(l);
    }
  }

  lemma EmptyBooksFor(l: License)
    ensures Inv(Empty(l)) && WithinLimit(Empty(l))
  {
  }

  /** For every limit and every number of releases the bound of the seven-day window is reached. */
  lemma WindowIsReached(l: License, releases: nat) returns (run: Run)
    requires Saturation.Open(l) && l.maxDevices >= 1
    ensures Inv(Empty(l)) && WithinLimit(Empty(l)) && Ordered(run) && l.key in After(Empty(l), run, |run|).licenses
    ensures |ReleasesSince(Empty(l), run, |run|, l.key, 0)| == releases
    ensures |LiveDevices(Empty(l), run, |run|, l.key, ONLINE_GRACE_PERIOD, false)| == l.maxDevices + releases
  {
    hide After, LiveDevices, ReleasesSince, Inv, WithinLimit;
    run := FillWindow(l, releases, l.maxDevices);
    BetweenSize(0, releases + l.maxDevices);
    EmptyBooksFor(l);
  }
}
