/** Seats go to whoever asks first, none is ever wasted, and a license's status only moves forward. */
module Allocation {
  import opened Common
  import opened Models
  import opened Licensing

  /** The devices asking to be activated on a license, in the order they ask. */
  function Asks(run: Run, n: nat, key: string): seq<string>
    requires n <= |run|
  {
    if n == 0 then [] else Asked(Asks(run, n - 1, key), run[n - 1].req, key)
  }

  function Asked(asks: seq<string>, req: Request, key: string): seq<string> {
    if req.Activate? && req.key == key then asks + [req.device] else asks
  }

  /** First occurrences only, in order. */
  function Distinct(s: seq<string>): seq<string> {
    if s == [] then []
    else
      var p, x := Distinct(s[..|s| - 1]), s[|s| - 1];
      if x in p then p else p + [x]
  }

  function FirstFew(s: seq<string>, max: int): seq<string> {
    s[..Min(|s|, Max(0, max))]
  }

  lemma {:induction false} DistinctFacts(s: seq<string>)
    ensures NoRepeats(Distinct(s))
    ensures Elements(Distinct(s)) == Elements(s)
  {
    if s != [] {
      DistinctFacts(s[..|s| - 1]);
      var p, x := Distinct(s[..|s| - 1]), s[|s| - 1];
      assert s == s[..|s| - 1] + [x];
      assert Elements(s) == Elements(s[..|s| - 1]) + {x};
      assert Elements(p + [x]) == Elements(p) + {x};
      assert x in p <==> x in Elements(p);
      if x in p { assert Elements(p) == Elements(p) + {x}; }
    }
  }

  lemma {:induction false} SizeOfNoRepeats(s: seq<string>)
    requires NoRepeats(s)
    ensures |Elements(s)| == |s|
  {
    if s != [] {
      var p, x := s[..|s| - 1], s[|s| - 1];
      SizeOfNoRepeats(p);
      assert s == p + [x];
      assert x !in p;
      assert Elements(s) == Elements(p) + {x};
    } else {
      assert Elements(s) == {};
    }
  }

  /** One more distinct device either fits or is left out. */
  lemma OneMoreDevice(p: seq<string>, x: string, max: int)
    requires NoRepeats(p + [x])
    ensures x !in Elements(FirstFew(p, max))
    ensures |Elements(FirstFew(p, max))| == Min(|p|, Max(0, max))
    ensures Elements(FirstFew(p + [x], max)) == Elements(FirstFew(p, max)) + if |p| < max then {x} else {}
  {
    var f := FirstFew(p, max);
    assert forall i :: 0 <= i < |f| ==> f[i] == (p + [x])[i];
    assert NoRepeats(f);
    SizeOfNoRepeats(f);
    forall i | 0 <= i < |f| ensures f[i] != x {
      assert f[i] == (p + [x])[i] && x == (p + [x])[|p|];
    }
    if |p| < max {
      assert FirstFew(p + [x], max) == p + [x] && f == p;
      assert Elements(p + [x]) == Elements(p) + {x};
    } else {
      assert FirstFew(p + [x], max) == f;
    }
  }

  /** The license stays active through the first n requests and nobody gives a seat back. */
  ghost predicate Undisturbed(s: Server, run: Run, n: nat, key: string)
    requires n <= |run| && key in s.licenses
  {
    && s.licenses[key].revokedAt.None?
    && forall i :: 0 <= i < n ==>
         && s.licenses[key].Status(run[i].now) == Active
         && run[i].req != Revoke(s.licenses[key].id)
         && !(run[i].req.Deactivate? && run[i].req.key == key)
  }

  lemma {:induction false} LicenseUndisturbed(s: Server, run: Run, n: nat, key: string)
    requires n <= |run| && key in s.licenses && Undisturbed(s, run, n, key)
    ensures key in After(s, run, n).licenses && After(s, run, n).licenses[key] == s.licenses[key]
  {
    if n > 0 { LicenseUndisturbed(s, run, n - 1, key); }
  }

  /** The devices that should hold the seats once these have asked. */
  function Served(asks: seq<string>, max: int): set<string> {
    Elements(FirstFew(Distinct(asks), max))
  }

  /** A device that asked before and got nothing finds every seat taken. */
  lemma AlreadyAsked(p: seq<string>, x: string, max: int)
    requires NoRepeats(p) && x in p && x !in Elements(FirstFew(p, max))
    ensures |Elements(FirstFew(p, max))| >= max
  {
    var f := FirstFew(p, max);
    assert NoRepeats(f);
    SizeOfNoRepeats(f);
    assert |p| <= max ==> f == p;
  }

  /** Asking once more is served exactly when a seat is left. */
  lemma AskOnce(asks: seq<string>, x: string, max: int)
    ensures Served(asks + [x], max) ==
      if x in Served(asks, max) || |Served(asks, max)| >= max then Served(asks, max) else Served(asks, max) + {x}
  {
    var p := Distinct(asks);
    assert (asks + [x])[..|asks|] == asks;
    DistinctFacts(asks);
    DistinctFacts(asks + [x]);
    if x in p {
      if x !in Served(asks, max) { AlreadyAsked(p, x, max); }
    } else {
      OneMoreDevice(p, x, max);
    }
  }

  /** One request of an undisturbed run. */
  lemma AllocateStep(s: Server, now: Time, req: Request, key: string, asks: seq<string>)
    requires Inv(s) && key in s.licenses && s.licenses[key].Status(now) == Active
    requires !(req.Deactivate? && req.key == key)
    requires HoldersOf(s, key) == Served(asks, s.licenses[key].maxDevices)
    ensures HoldersOf(Serve(s, now, req).0, key)
      == Served(Asked(asks, req, key), s.licenses[key].maxDevices)
  {
    ServeHolders(s, now, req, key);
    if req.Activate? && req.key == key {
      ActivateReply(s, now, key, req.device, req.name, req.offline);
      AskOnce(asks, req.device, s.licenses[key].maxDevices);
      if req.device in HoldersOf(s, key) { AddMember(HoldersOf(s, key), req.device); }
    }
  }

  /** From an empty license that stays active and sees no release, the seats are held by exactly
      the first maxDevices distinct devices that asked. */
  lemma {:induction false} FirstComeFirstServed(s: Server, run: Run, n: nat, key: string)
    requires Inv(s) && key in s.licenses && HoldersOf(s, key) == {} && n <= |run| && Undisturbed(s, run, n, key)
    ensures HoldersOf(After(s, run, n), key) == Served(Asks(run, n, key), s.licenses[key].maxDevices)
  {
    hide Serve;
    if n > 0 {
      FirstComeFirstServed(s, run, n - 1, key);
      LicenseUndisturbed(s, run, n - 1, key);
      AfterKeepsInv(s, run, n - 1);
      AllocateStep(After(s, run, n - 1), run[n - 1].now, run[n - 1].req, key, Asks(run, n - 1, key));
    }
  }

  /** No seat is wasted: their number is the smaller of the limit and the distinct devices asking. */
  lemma NeverWasteful(s: Server, run: Run, n: nat, key: string)
    requires Inv(s) && key in s.licenses && HoldersOf(s, key) == {} && n <= |run| && Undisturbed(s, run, n, key)
    ensures |HoldersOf(After(s, run, n), key)| == Min(Max(0, s.licenses[key].maxDevices), |Elements(Asks(run, n, key))|)
  {
    FirstComeFirstServed(s, run, n, key);
    var d := Distinct(Asks(run, n, key));
    DistinctFacts(Asks(run, n, key));
    SizeOfNoRepeats(d);
    assert NoRepeats(FirstFew(d, s.licenses[key].maxDevices));
    SizeOfNoRepeats(FirstFew(d, s.licenses[key].maxDevices));
  }

  // ---- status -------------------------------------------------------------------------------

  /** Looked at later in a run and later on the clock, a license is never less expired or revoked. */
  lemma StatusOnlyAdvances(s: Server, run: Run, m: nat, n: nat, key: string, t: Time, u: Time)
    requires m <= n <= |run| && key in After(s, run, m).licenses && t <= u
    ensures key in After(s, run, n).licenses
    ensures After(s, run, m).licenses[key].Status(t).Rank() <= After(s, run, n).licenses[key].Status(u).Rank()
  {
    hide Serve;
    AfterKeepsTerms(s, run, m, n, key);
  }

  /** Once a license is seen expired or revoked, no later request for it is granted. */
  lemma NoGrantAfterInactive(s: Server, run: Run, m: nat, i: nat, key: string, t: Time)
    requires Inv(s) && m <= i < |run| && key in After(s, run, m).licenses
    requires After(s, run, m).licenses[key].Status(t) != Active && t <= run[i].now
    requires (run[i].req.Activate? || run[i].req.Validate?) && run[i].req.key == key
    ensures ReplyAt(s, run, i).NotActive?
  {
    StatusOnlyAdvances(s, run, m, i, key, t, run[i].now);
  }

  /** Revoking answers Done exactly once; after that the recorded instant never changes. */
  lemma RevokedOnce(s: Server, run: Run, i: nat, n: nat, key: string)
    requires Inv(s) && i < n <= |run| && key in After(s, run, i).licenses
    requires run[i].req == Revoke(After(s, run, i).licenses[key].id) && ReplyAt(s, run, i) == Done
    ensures key in After(s, run, n).licenses && After(s, run, n).licenses[key].revokedAt == Some(run[i].now)
    ensures n < |run| && run[n].req == run[i].req ==> ReplyAt(s, run, n) == NotFound
  {
    hide Serve, Inv;
    AfterKeepsInv(s, run, i);
    RevokeByKey(After(s, run, i), run[i].now, key);
    AfterKeepsTerms(s, run, i + 1, n, key);
    AfterKeepsTerms(s, run, i, n, key);
    AfterKeepsInv(s, run, n);
    if n < |run| { RevokeByKey(After(s, run, n), run[n].now, key); }
  }

  lemma RevokeByKey(s: Server, now: Time, key: string)
    requires Inv(s) && key in s.licenses
    ensures var (s', reply) := Serve(s, now, Revoke(s.licenses[key].id));
      && key in s'.licenses && (reply == Done <==> s.licenses[key].revokedAt.None?) && (reply == Done || reply == NotFound)
      && (reply == Done ==> s'.licenses[key].revokedAt == Some(now))
  {
    RevokeReply(s, now, s.licenses[key].id);
    hide DoRevoke;
  }
}
