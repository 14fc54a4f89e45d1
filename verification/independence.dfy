/** Licenses do not influence each other: deleting every request about other licenses from a run
    leaves a license's rows (up to row ids), events, tokens and replies as they were. */
module Independence {
  import opened Common
  import opened Models
  import opened Seats
  import LicenseStore
  import opened Licensing
  import opened SeatTheorems

  /** Whether a request is about the license with this key and id. */
  predicate Concerns(req: Request, key: string, id: string) {
    match req
    case Activate(k, _, _, _) => k == key
    case Validate(k, _) => k == key
    case Deactivate(k, _) => k == key
    case Revoke(i) => i == id
    case Create(_, k, _, _, _, _) => k == key
  }

  /** The requests about one license among the first n. */
  function Only(run: Run, n: nat, key: string, id: string): Run
    requires n <= |run|
  {
    if n == 0 then []
    else if Concerns(run[n - 1].req, key, id) then Only(run, n - 1, key, id) + [run[n - 1]]
    else Only(run, n - 1, key, id)
  }

  /** The replies to those requests; tokens are in them. */
  function Replies(s: Server, run: Run, n: nat, key: string, id: string): seq<Reply>
    requires n <= |run|
  {
    if n == 0 then []
    else if Concerns(run[n - 1].req, key, id) then Replies(s, run, n - 1, key, id) + [ReplyAt(s, run, n - 1)]
    else Replies(s, run, n - 1, key, id)
  }

  function EventsOf(events: seq<Event>, key: string): seq<Event> {
    if events == [] then []
    else
      var e := events[|events| - 1];
      if e.licenseKey == key then EventsOf(events[..|events| - 1], key) + [e] else EventsOf(events[..|events| - 1], key)
  }

  /** Two tables agree on a license, row ids aside. */
  ghost predicate SameSeats(a: Table, b: Table, id: string) {
    && (forall d :: (id, d) in a.rows <==> (id, d) in b.rows)
    && (forall d :: (id, d) in a.rows ==> a.rows[(id, d)].(id := 0) == b.rows[(id, d)].(id := 0))
  }

  /** Two servers agree on everything about a license. */
  ghost predicate Same(a: Server, b: Server, key: string, id: string) {
    && key in a.licenses && key in b.licenses && a.licenses[key] == b.licenses[key] && a.licenses[key].id == id
    && SameSeats(a.devices, b.devices, id)
    && EventsOf(a.events, key) == EventsOf(b.events, key)
  }

  lemma SameHolders(a: Table, b: Table, id: string)
    requires SameSeats(a, b, id)
    ensures Holders(a, id) == Holders(b, id)
  {
    forall d ensures d in Holders(a, id) <==> d in Holders(b, id) {
      if (id, d) in a.rows {
        assert a.rows[(id, d)].(id := 0).deactivatedAt == b.rows[(id, d)].(id := 0).deactivatedAt;
      }
    }
  }

  // ---- the same statement on both sides -----------------------------------------------------

  lemma SameAfterUpdate(a: Table, b: Table, id: string, d: string, p: Device, q: Device)
    requires SameSeats(a, b, id) && p.(id := 0) == q.(id := 0)
    ensures SameSeats(a.(rows := a.rows[(id, d) := p]), b.(rows := b.rows[(id, d) := q]), id)
  {
  }

  lemma SameAfterUpsert(a: Table, b: Table, id: string, d: string, name: string, now: Time)
    requires SameSeats(a, b, id) && WellFormed(a) && WellFormed(b)
    ensures SameSeats(Upsert(a, id, d, name, now), Upsert(b, id, d, name, now), id)
  {
    var p, q := Upsert(a, id, d, name, now).rows[(id, d)], Upsert(b, id, d, name, now).rows[(id, d)];
    SameAfterUpdate(a, b, id, d, p, q);
  }

  lemma SameAfterTouchAndFree(a: Table, b: Table, id: string, d: string, now: Time)
    requires SameSeats(a, b, id) && d in Holders(a, id) && d in Holders(b, id)
    ensures SameSeats(Touch(a, (id, d), now), Touch(b, (id, d), now), id)
    ensures SameSeats(Free(a, id, d, now), Free(b, id, d, now), id)
  {
    var p, q := a.rows[(id, d)], b.rows[(id, d)];
    assert p.(id := 0) == q.(id := 0);
    assert p.(lastSeenAt := now, id := 0) == q.(lastSeenAt := now, id := 0);
    SameAfterUpdate(a, b, id, d, p.(lastSeenAt := now), q.(lastSeenAt := now));
    SameAfterUpdate(a, b, id, d, p.(deactivatedAt := Some(now)), q.(deactivatedAt := Some(now)));
  }

  lemma SameEvent(a: seq<Event>, e: Event, key: string)
    ensures EventsOf(a + [e], key) == if e.licenseKey == key then EventsOf(a, key) + [e] else EventsOf(a, key)
  {
    assert (a + [e])[..|a|] == a;
  }

  lemma AdmitSame(a: Server, b: Server, l: License, d: string, name: string, now: Time)
    requires Inv(a) && Inv(b) && Same(a, b, l.key, l.id) && a.licenses[l.key] == l
    ensures Admit(a, l, d, name, now).1 == Admit(b, l, d, name, now).1
    ensures Same(Admit(a, l, d, name, now).0, Admit(b, l, d, name, now).0, l.key, l.id)
  {
    SameHolders(a.devices, b.devices, l.id);
    if d in Holders(a.devices, l.id) {
      SameAfterTouchAndFree(a.devices, b.devices, l.id, d, now);
    } else {
      SameAfterUpsert(a.devices, b.devices, l.id, d, name, now);
      var e := Event(Activation, l.key, l.product, l.customer, d, now);
      SameEvent(a.events, e, l.key);
      SameEvent(b.events, e, l.key);
    }
  }

  lemma ActivateSame(a: Server, b: Server, now: Time, key: string, d: string, name: string, offline: bool, id: string)
    requires Inv(a) && Inv(b) && Same(a, b, key, id)
    ensures DoActivate(a, now, key, d, name, offline).1 == DoActivate(b, now, key, d, name, offline).1
    ensures Same(DoActivate(a, now, key, d, name, offline).0, DoActivate(b, now, key, d, name, offline).0, key, id)
  {
    var l := a.licenses[key];
    AdmitSame(a, b, l, d, name, now);
    SameHolders(Admit(a, l, d, name, now).0.devices, Admit(b, l, d, name, now).0.devices, id);
  }

  lemma ValidateSame(a: Server, b: Server, now: Time, key: string, d: string, id: string)
    requires Inv(a) && Inv(b) && Same(a, b, key, id)
    ensures DoValidate(a, now, key, d).1 == DoValidate(b, now, key, d).1
    ensures Same(DoValidate(a, now, key, d).0, DoValidate(b, now, key, d).0, key, id)
  {
    SameHolders(a.devices, b.devices, id);
    if d in Holders(a.devices, id) {
      SameAfterTouchAndFree(a.devices, b.devices, id, d, now);
      SameHolders(Touch(a.devices, (id, d), now), Touch(b.devices, (id, d), now), id);
    }
  }

  lemma DeactivateSame(a: Server, b: Server, now: Time, key: string, d: string, id: string)
    requires Inv(a) && Inv(b) && Same(a, b, key, id)
    ensures DoDeactivate(a, now, key, d).1 == DoDeactivate(b, now, key, d).1
    ensures Same(DoDeactivate(a, now, key, d).0, DoDeactivate(b, now, key, d).0, key, id)
  {
    var l := a.licenses[key];
    SameHolders(a.devices, b.devices, id);
    if d in Holders(a.devices, id) {
      SameAfterTouchAndFree(a.devices, b.devices, id, d, now);
      var e := Event(Deactivation, l.key, l.product, l.customer, d, now);
      SameEvent(a.events, e, key);
      SameEvent(b.events, e, key);
    }
  }

  lemma RevokeSame(a: Server, b: Server, now: Time, key: string, id: string)
    requires Inv(a) && Inv(b) && Same(a, b, key, id)
    ensures DoRevoke(a, now, id).1 == DoRevoke(b, now, id).1
    ensures Same(DoRevoke(a, now, id).0, DoRevoke(b, now, id).0, key, id)
  {
    OneRevocable(a.licenses, key);
    OneRevocable(b.licenses, key);
  }

  lemma OneRevocable(m: LicenseStore.Licenses, key: string)
    requires LicenseStore.WellFormed(m) && key in m
    ensures LicenseStore.Revocable(m, m[key].id) <==> m[key].revokedAt.None?
  {
  }

  /** A request about the license acts and answers alike on servers that agree about it. */
  lemma OwnStep(a: Server, b: Server, now: Time, req: Request, key: string, id: string)
    requires Inv(a) && Inv(b) && Same(a, b, key, id) && Concerns(req, key, id)
    ensures Serve(a, now, req).1 == Serve(b, now, req).1
    ensures Same(Serve(a, now, req).0, Serve(b, now, req).0, key, id)
  {
    match req {
      case Activate(_, d, name, offline) => ActivateSame(a, b, now, key, d, name, offline, id);
      case Validate(_, d) => ValidateSame(a, b, now, key, d, id);
      case Deactivate(_, d) => DeactivateSame(a, b, now, key, d, id);
      case Revoke(_) => RevokeSame(a, b, now, key, id);
      case Create(_, _, _, _, _, _) =>
    }
  }

  // ---- a request about another license ------------------------------------------------------

  lemma ForeignSeats(t: Table, now: Time, l: string, d: string, name: string, id: string)
    requires l != id
    ensures SameSeats(Upsert(t, l, d, name, now), t, id)
    ensures d in Holders(t, l) ==> SameSeats(Touch(t, (l, d), now), t, id) && SameSeats(Free(t, l, d, now), t, id)
  {
  }

  lemma ForeignTable(a: Server, now: Time, req: Request, key: string)
    requires Inv(a) && key in a.licenses && !Concerns(req, key, a.licenses[key].id)
    ensures SameSeats(Serve(a, now, req).0.devices, a.devices, a.licenses[key].id)
  {
    hide Serve;
    ServeStatement(a, now, req);
    if (req.Activate? || req.Validate? || req.Deactivate?) && req.key in a.licenses {
      SameId(a.licenses, req.key, key);
      ForeignSeats(a.devices, now, a.licenses[req.key].id, req.device, if req.Activate? then req.name else "", a.licenses[key].id);
    }
  }

  lemma ForeignEvents(a: Server, now: Time, req: Request, key: string)
    requires Inv(a) && key in a.licenses && !Concerns(req, key, a.licenses[key].id)
    ensures EventsOf(Serve(a, now, req).0.events, key) == EventsOf(a.events, key)
  {
    hide Serve;
    ServeEvents(a, now, req);
    if NewEvents(a, now, req) != [] {
      SameEvent(a.events, NewEvents(a, now, req)[0], key);
    } else {
      assert a.events + [] == a.events;
    }
  }

  lemma ForeignLicense(a: Server, now: Time, req: Request, key: string)
    requires Inv(a) && key in a.licenses && !Concerns(req, key, a.licenses[key].id)
    ensures key in Serve(a, now, req).0.licenses && Serve(a, now, req).0.licenses[key] == a.licenses[key]
  {
    hide Inv, Holders, Upsert, Touch, Free;
  }

  lemma ForeignStep(a: Server, now: Time, req: Request, key: string)
    requires Inv(a) && key in a.licenses && !Concerns(req, key, a.licenses[key].id)
    ensures Same(Serve(a, now, req).0, a, key, a.licenses[key].id)
  {
    hide Serve, Inv, Concerns;
    ForeignLicense(a, now, req, key);
    ForeignTable(a, now, req, key);
    ForeignEvents(a, now, req, key);
  }

  // ---- runs ---------------------------------------------------------------------------------

  lemma {:induction false} RepliesPrefix(s: Server, p: Run, q: Run, n: nat, key: string, id: string)
    requires n <= |p| && n <= |q| && p[..n] == q[..n]
    ensures Replies(s, p, n, key, id) == Replies(s, q, n, key, id)
  {
    if n > 0 {
      assert p[n - 1] == p[..n][n - 1] == q[..n][n - 1] == q[n - 1];
      assert p[..n - 1] == p[..n][..n - 1] == q[..n][..n - 1] == q[..n - 1];
      RepliesPrefix(s, p, q, n - 1, key, id);
      SamePrefix(s, p, q, n - 1);
    }
  }

  /** One more request at the end of a run. */
  lemma Extended(s: Server, run: Run, step: Step, key: string, id: string)
    requires Concerns(step.req, key, id)
    ensures var longer := run + [step];
      && After(s, longer, |longer|) == Serve(After(s, run, |run|), step.now, step.req).0
      && Replies(s, longer, |longer|, key, id)
           == Replies(s, run, |run|, key, id) + [Serve(After(s, run, |run|), step.now, step.req).1]
  {
    hide Serve;
    var longer := run + [step];
    assert longer[..|run|] == run[..|run|];
    SamePrefix(s, longer, run, |run|);
    RepliesPrefix(s, longer, run, |run|, key, id);
  }

  lemma {:induction false} IndependentUpTo(s: Server, run: Run, n: nat, key: string, id: string)
    requires Inv(s) && key in s.licenses && s.licenses[key].id == id && n <= |run|
    ensures var own := Only(run, n, key, id);
      && Same(After(s, run, n), After(s, own, |own|), key, id)
      && Replies(s, run, n, key, id) == Replies(s, own, |own|, key, id)
  {
    hide Serve, Same, Inv, Concerns;
    StartSame(s, key);
    if n > 0 {
      IndependentUpTo(s, run, n - 1, key, id);
      var own, step := Only(run, n - 1, key, id), run[n - 1];
      AfterKeepsInv(s, run, n - 1);
      AfterKeepsInv(s, own, |own|);
      if Concerns(step.req, key, id) {
        OwnStep(After(s, run, n - 1), After(s, own, |own|), step.now, step.req, key, id);
        Extended(s, own, step, key, id);
      } else {
        StillSame(After(s, run, n - 1), After(s, own, |own|), step.now, step.req, key, id);
      }
    }
  }

  lemma StartSame(s: Server, key: string)
    requires key in s.licenses
    ensures Same(s, s, key, s.licenses[key].id)
  {
  }

  lemma StillSame(a: Server, b: Server, now: Time, req: Request, key: string, id: string)
    requires Inv(a) && Same(a, b, key, id) && !Concerns(req, key, id)
    ensures Same(Serve(a, now, req).0, b, key, id)
  {
    ForeignStep(a, now, req, key);
    hide Serve, Inv, Concerns, EventsOf;
  }

  /** For any run over many licenses: only its own requests matter to a license. */
  lemma Independent(s: Server, run: Run, key: string)
    requires Inv(s) && key in s.licenses
    ensures var id := s.licenses[key].id;
      var own := Only(run, |run|, key, id);
      && Same(After(s, run, |run|), After(s, own, |own|), key, id)
      && Replies(s, run, |run|, key, id) == Replies(s, own, |own|, key, id)
  {
    IndependentUpTo(s, run, |run|, key, s.licenses[key].id);
  }

  // ---- runs that make the license themselves ------------------------------------------------

  /** Neither the key nor the id is in use. */
  ghost predicate Absent(s: Server, key: string, id: string) {
    key !in s.licenses && !LicenseStore.HasId(s.licenses, id)
  }

  /** Servers that agree about the license, or on there being none. */
  ghost predicate Alike(a: Server, b: Server, key: string, id: string) {
    || Same(a, b, key, id)
    || (Absent(a, key, id) && Absent(b, key, id) && EventsOf(a.events, key) == EventsOf(b.events, key))
  }

  /** Request c is the first to create a license with the key. */
  ghost predicate Makes(run: Run, c: nat, key: string) {
    && c < |run| && run[c].req.Create? && run[c].req.key == key
    && forall j :: 0 <= j < c && run[j].req.Create? ==> run[j].req.key != key
  }

  /** When it comes to creating the license, its id is still free: the guard of the insert. */
  predicate IdFree(s: Server, run: Run, c: nat)
    requires c < |run| && run[c].req.Create?
  {
    !LicenseStore.HasId(After(s, run, c).licenses, run[c].req.id)
  }

  lemma AbsentEvents(a: Server, now: Time, req: Request, key: string)
    requires Inv(a) && key !in a.licenses
    ensures EventsOf(Serve(a, now, req).0.events, key) == EventsOf(a.events, key)
  {
    ServeEvents(a, now, req);
    if NewEvents(a, now, req) != [] {
      assert req.key in a.licenses;
      SameEvent(a.events, NewEvents(a, now, req)[0], key);
    } else {
      assert a.events + [] == a.events;
    }
    hide Serve;
  }

  /** Ids are never given up. */
  lemma IdStays(a: Server, now: Time, req: Request, id: string)
    requires LicenseStore.HasId(a.licenses, id)
    ensures LicenseStore.HasId(Serve(a, now, req).0.licenses, id)
  {
    var k :| k in a.licenses && a.licenses[k].id == id;
    ServeKeepsTerms(a, now, req, k);
    hide Serve;
  }

  lemma {:induction false} IdStaysInUse(s: Server, run: Run, m: nat, n: nat, id: string)
    requires m <= n <= |run| && LicenseStore.HasId(After(s, run, m).licenses, id)
    ensures LicenseStore.HasId(After(s, run, n).licenses, id)
    decreases n
  {
    hide Serve;
    if m < n {
      IdStaysInUse(s, run, m, n - 1, id);
      IdStays(After(s, run, n - 1), run[n - 1].now, run[n - 1].req, id);
    }
  }

  lemma KeyStaysFree(a: Server, now: Time, req: Request, key: string)
    requires key !in a.licenses && !(req.Create? && req.key == key)
    ensures key !in Serve(a, now, req).0.licenses
  {
    hide Holders, Upsert, Touch, Free;
  }

  /** Requests about a license that does not exist find nothing. */
  lemma AbsentReply(a: Server, now: Time, req: Request, key: string, id: string)
    requires Absent(a, key, id) && Concerns(req, key, id) && !req.Create?
    ensures Serve(a, now, req).1 == NotFound && Absent(Serve(a, now, req).0, key, id)
  {
    if req.Revoke? {
      var m, m' := a.licenses, Serve(a, now, req).0.licenses;
      forall k | k in m' ensures m'[k].id != id {
        assert k in m && m'[k].id == m[k].id;
      }
    }
  }

  /** The creation succeeds on both sides and leaves the same license without rows. */
  lemma BirthStep(a: Server, b: Server, now: Time, req: Request, key: string, id: string)
    requires Inv(a) && Inv(b) && Absent(a, key, id) && Absent(b, key, id)
    requires EventsOf(a.events, key) == EventsOf(b.events, key)
    requires req.Create? && req.key == key && req.id == id
    ensures Serve(a, now, req).1 == Serve(b, now, req).1 == Done
    ensures Same(Serve(a, now, req).0, Serve(b, now, req).0, key, id)
  {
    NoRows(a, key, id);
    NoRows(b, key, id);
  }

  lemma NoRows(a: Server, key: string, id: string)
    requires Inv(a) && Absent(a, key, id)
    ensures forall d :: (id, d) !in a.devices.rows
  {
    forall k | k in a.devices.rows ensures k.0 != id {
      assert LicenseStore.HasId(a.licenses, k.0);
    }
    forall d ensures (id, d) !in a.devices.rows {
      var k := (id, d);
    }
  }

  /** One request before the license is made, if its id is still free afterwards. */
  lemma EarlyStep(a: Server, b: Server, now: Time, req: Request, key: string, id: string)
    requires Inv(a) && Inv(b) && Absent(a, key, id) && Absent(b, key, id) && EventsOf(a.events, key) == EventsOf(b.events, key)
    requires !(req.Create? && req.key == key) && !LicenseStore.HasId(Serve(a, now, req).0.licenses, id)
    ensures Absent(Serve(a, now, req).0, key, id)
    ensures EventsOf(Serve(a, now, req).0.events, key) == EventsOf(a.events, key)
    ensures Concerns(req, key, id) ==>
      && Serve(a, now, req).1 == Serve(b, now, req).1 && Absent(Serve(b, now, req).0, key, id)
      && EventsOf(Serve(b, now, req).0.events, key) == EventsOf(b.events, key)
  {
    hide Serve, Inv, EventsOf;
    KeyStaysFree(a, now, req, key);
    AbsentEvents(a, now, req, key);
    AbsentEvents(b, now, req, key);
    if Concerns(req, key, id) {
      AbsentReply(a, now, req, key, id);
      AbsentReply(b, now, req, key, id);
    }
  }

  /** One request of the run, with the requests about the license run on both sides. */
  lemma AlikeStep(a: Server, b: Server, now: Time, req: Request, key: string, id: string)
    requires Inv(a) && Inv(b) && Alike(a, b, key, id)
    requires key !in a.licenses ==>
      if req.Create? && req.key == key then req.id == id else !LicenseStore.HasId(Serve(a, now, req).0.licenses, id)
    ensures Concerns(req, key, id) ==>
      Serve(a, now, req).1 == Serve(b, now, req).1 && Alike(Serve(a, now, req).0, Serve(b, now, req).0, key, id)
    ensures !Concerns(req, key, id) ==> Alike(Serve(a, now, req).0, b, key, id)
    ensures key in Serve(a, now, req).0.licenses <==> key in a.licenses || (req.Create? && req.key == key)
  {
    hide Serve, Inv, EventsOf;
    if key in a.licenses {
      ServeKeepsTerms(a, now, req, key);
      if Concerns(req, key, id) { OwnStep(a, b, now, req, key, id); } else { StillSame(a, b, now, req, key, id); }
    } else if req.Create? && req.key == key {
      BirthStep(a, b, now, req, key, id);
    } else {
      EarlyStep(a, b, now, req, key, id);
    }
  }

  lemma {:induction false} AlikeUpTo(s: Server, run: Run, n: nat, c: nat, key: string)
    requires Inv(s) && n <= |run| && Makes(run, c, key) && Absent(s, key, run[c].req.id) && IdFree(s, run, c)
    ensures var id := run[c].req.id;
      var own := Only(run, n, key, id);
      && Alike(After(s, run, n), After(s, own, |own|), key, id)
      && Replies(s, run, n, key, id) == Replies(s, own, |own|, key, id)
      && (key in After(s, run, n).licenses <==> c < n)
  {
    hide Serve, Alike, Absent;
    var id := run[c].req.id;
    if n == 0 {
      StartAlike(s, key, id);
    } else {
      AlikeUpTo(s, run, n - 1, c, key);
      var own, step := Only(run, n - 1, key, id), run[n - 1];
      AfterKeepsInv(s, run, n - 1);
      AfterKeepsInv(s, own, |own|);
      if n <= c && LicenseStore.HasId(After(s, run, n).licenses, id) { IdStaysInUse(s, run, n, c, id); }
      AlikeStep(After(s, run, n - 1), After(s, own, |own|), step.now, step.req, key, id);
      if Concerns(step.req, key, id) { Extended(s, own, step, key, id); }
    }
  }

  lemma StartAlike(s: Server, key: string, id: string)
    requires Absent(s, key, id)
    ensures Alike(s, s, key, id) && key !in s.licenses
  {
  }

  // ---- the reply to the creation ------------------------------------------------------------

  lemma {:induction false} KeyFreeBefore(s: Server, run: Run, n: nat, c: nat, key: string)
    requires n <= c && Makes(run, c, key) && key !in s.licenses
    ensures key !in After(s, run, n).licenses
  {
    hide Serve;
    if n > 0 {
      KeyFreeBefore(s, run, n - 1, c, key);
      KeyStaysFree(After(s, run, n - 1), run[n - 1].now, run[n - 1].req, key);
    }
  }

  /** The license's own requests do not make it before it is made. */
  lemma {:induction false} OwnAbsent(s: Server, run: Run, n: nat, c: nat, key: string)
    requires n <= c && Makes(run, c, key) && Absent(s, key, run[c].req.id)
    ensures var own := Only(run, n, key, run[c].req.id); Absent(After(s, own, |own|), key, run[c].req.id)
  {
    hide Serve, Absent;
    if n > 0 {
      OwnAbsent(s, run, n - 1, c, key);
      var id, step := run[c].req.id, run[n - 1];
      var own := Only(run, n - 1, key, id);
      if Concerns(step.req, key, id) {
        AbsentReply(After(s, own, |own|), step.now, step.req, key, id);
        Extended(s, own, step, key, id);
      }
    }
  }

  /** Where the reply to request m stands among the replies. */
  lemma {:induction false} ReplyStands(s: Server, run: Run, m: nat, n: nat, key: string, id: string)
    requires m < n <= |run| && Concerns(run[m].req, key, id)
    ensures var k := |Only(run, m, key, id)|;
      && k < |Replies(s, run, n, key, id)| == |Only(run, n, key, id)|
      && Replies(s, run, n, key, id)[k] == ReplyAt(s, run, m)
      && Only(run, n, key, id)[k] == run[m] && Only(run, n, key, id)[..k] == Only(run, m, key, id)
    decreases n
  {
    hide ReplyAt;
    SameLength(s, run, n - 1, key, id);
    if m < n - 1 {
      ReplyStands(s, run, m, n - 1, key, id);
    }
  }

  lemma {:induction false} SameLength(s: Server, run: Run, n: nat, key: string, id: string)
    requires n <= |run|
    ensures |Replies(s, run, n, key, id)| == |Only(run, n, key, id)|
  {
    if n > 0 { SameLength(s, run, n - 1, key, id); }
  }

  lemma {:induction false} OnlyConcerned(run: Run, n: nat, key: string, id: string)
    requires n <= |run|
    ensures forall i :: 0 <= i < |Only(run, n, key, id)| ==> Concerns(Only(run, n, key, id)[i].req, key, id)
  {
    if n > 0 { OnlyConcerned(run, n - 1, key, id); }
  }

  lemma {:induction false} OnlyTwice(own: Run, n: nat, key: string, id: string)
    requires n <= |own| && forall i :: 0 <= i < n ==> Concerns(own[i].req, key, id)
    ensures Only(own, n, key, id) == own[..n]
  {
    if n > 0 {
      OnlyTwice(own, n - 1, key, id);
      assert own[..n] == own[..n - 1] + [own[n - 1]];
    }
  }

  /** The reply to request m when only the license's own requests are run. */
  lemma OwnReplyStands(s: Server, run: Run, m: nat, key: string, id: string)
    requires m < |run| && Concerns(run[m].req, key, id)
    ensures var own, before := Only(run, |run|, key, id), Only(run, m, key, id);
      && |before| < |Replies(s, own, |own|, key, id)|
      && Replies(s, own, |own|, key, id)[|before|] == Serve(After(s, before, |before|), run[m].now, run[m].req).1
  {
    hide Serve, Concerns;
    var own, before := Only(run, |run|, key, id), Only(run, m, key, id);
    ReplyStands(s, run, m, |run|, key, id);
    OnlyConcerned(run, |run|, key, id);
    OnlyTwice(own, |before|, key, id);
    ReplyStands(s, own, |before|, |own|, key, id);
    assert before[..|before|] == own[..|before|];
    SamePrefix(s, own, before, |before|);
  }

  /** Once another license has taken the id, the creation is refused because of it: alone it succeeds. */
  lemma RivalMatters(s: Server, run: Run, c: nat, key: string)
    requires Inv(s) && Makes(run, c, key) && Absent(s, key, run[c].req.id) && !IdFree(s, run, c)
    ensures var id := run[c].req.id;
      var own, k := Only(run, |run|, key, id), |Only(run, c, key, id)|;
      && k < |Replies(s, run, |run|, key, id)| && Replies(s, run, |run|, key, id)[k] == IdExists
      && k < |Replies(s, own, |own|, key, id)| && Replies(s, own, |own|, key, id)[k] == Done
  {
    var id := run[c].req.id;
    KeyFreeBefore(s, run, c, c, key);
    OwnAbsent(s, run, c, c, key);
    assert ReplyAt(s, run, c) == IdExists;
    var before := Only(run, c, key, id);
    assert Serve(After(s, before, |before|), run[c].now, run[c].req).1 == Done;
    hide Serve, After, Only, Replies;
    ReplyStands(s, run, c, |run|, key, id);
    OwnReplyStands(s, run, c, key, id);
  }

  /** For a license the run makes itself: from the start of the run on only its own requests matter to
      it, exactly if its id is still free when it is made. */
  lemma IndependentFromCreation(s: Server, run: Run, c: nat, key: string)
    requires Inv(s) && Makes(run, c, key) && Absent(s, key, run[c].req.id)
    ensures var id := run[c].req.id;
      var own := Only(run, |run|, key, id);
      IdFree(s, run, c) <==>
        && Same(After(s, run, |run|), After(s, own, |own|), key, id)
        && Replies(s, run, |run|, key, id) == Replies(s, own, |own|, key, id)
  {
    hide After, Replies, Only, IdFree;
    if IdFree(s, run, c) {
      AlikeUpTo(s, run, |run|, c, key);
    } else {
      RivalMatters(s, run, c, key);
    }
  }
}
