/** What every run of atomic requests keeps: the seat limit, the event ledger, the history of the
    device rows, first-come allocation, and the progress of a license's status. */
module SeatTheorems {
  import opened Common
  import opened Models
  import opened Seats
  import LicenseStore
  import opened Licensing

  // ---- the seat limit -----------------------------------------------------------------------

  ghost predicate WithinLimit(s: Server) {
    forall key :: key in s.licenses ==> |HoldersOf(s, key)| <= Max(0, s.licenses[key].maxDevices)
  }

  /** A license whose id is new owns no device row. */
  lemma NewLicenseHasNoSeats(s: Server, l: License)
    requires Inv(s) && DoCreate(s, l).1.Done?
    ensures HoldersOf(DoCreate(s, l).0, l.key) == {}
    ensures forall d :: (l.id, d) !in s.devices.rows
  {
    forall k | k in s.devices.rows ensures k.0 != l.id {
      assert LicenseStore.HasId(s.licenses, k.0);
    }
    forall d ensures (l.id, d) !in s.devices.rows {
      var k := (l.id, d);
    }
  }

  /** A key that was not there before belongs to the license this request created. */
  lemma NewKey(s: Server, now: Time, req: Request, key: string)
    requires Inv(s) && key in Serve(s, now, req).0.licenses && key !in s.licenses
    ensures req.Create? && req.key == key && Serve(s, now, req).1.Done?
    ensures HoldersOf(Serve(s, now, req).0, key) == {} && Serve(s, now, req).0.events == s.events
    ensures forall d :: (Serve(s, now, req).0.licenses[key].id, d) !in Serve(s, now, req).0.devices.rows
  {
    match req {
      case Create(id, k, product, customer, maxDevices, expiresAt) =>
        NewLicenseHasNoSeats(s, License(id, k, product, customer, maxDevices, expiresAt, None, now));
      case Activate(_, _, _, _) =>
      case Validate(_, _) =>
      case Deactivate(_, _) =>
      case Revoke(_) =>
    }
  }

  lemma MovedWithinLimit(s: Server, now: Time, req: Request, key: string)
    requires Inv(s) && key in s.licenses && |HoldersOf(s, key)| <= Max(0, s.licenses[key].maxDevices)
    ensures |HoldersOf(Serve(s, now, req).0, key)| <= Max(0, s.licenses[key].maxDevices)
  {
    ServeHolders(s, now, req, key);
    var h := HoldersOf(s, key);
    if req.Activate? && req.key == key && Serve(s, now, req).1.Granted? {
      ActivateReply(s, now, key, req.device, req.name, req.offline);
      if req.device in h { AddMember(h, req.device); }
    } else if req.Deactivate? && req.key == key {
      SubsetBound(h - {req.device}, h);
    }
  }

  lemma ServeKeepsLimit(s: Server, now: Time, req: Request)
    requires Inv(s) && WithinLimit(s)
    ensures WithinLimit(Serve(s, now, req).0)
  {
    var s' := Serve(s, now, req).0;
    forall key | key in s'.licenses ensures |HoldersOf(s', key)| <= Max(0, s'.licenses[key].maxDevices) {
      if key in s.licenses {
        MovedWithinLimit(s, now, req, key);
        ServeKeepsTerms(s, now, req, key);
      } else {
        NewKey(s, now, req, key);
      }
    }
  }

  /** No license ever has more active devices than its limit. */
  lemma {:induction false} SeatLimit(s: Server, run: Run, n: nat)
    requires Inv(s) && WithinLimit(s) && n <= |run|
    ensures WithinLimit(After(s, run, n))
  {
    hide Serve;
    if n > 0 {
      SeatLimit(s, run, n - 1);
      AfterKeepsInv(s, run, n - 1);
      ServeKeepsLimit(After(s, run, n - 1), run[n - 1].now, run[n - 1].req);
    }
  }

  // ---- the event ledger ---------------------------------------------------------------------

  function Count(events: seq<Event>, kind: EventKind, key: string): nat {
    if events == [] then 0
    else
      var e := events[|events| - 1];
      Count(events[..|events| - 1], kind, key) + if e.kind == kind && e.licenseKey == key then 1 else 0
  }

  /** The kinds of the events of one device on one license, in order. */
  function History(events: seq<Event>, key: string, device: string): seq<EventKind> {
    if events == [] then []
    else
      var e := events[|events| - 1];
      History(events[..|events| - 1], key, device) + if e.licenseKey == key && e.deviceId == device then [e.kind] else []
  }

  lemma OneMore(events: seq<Event>, e: Event, kind: EventKind, key: string, device: string)
    ensures Count(events + [e], kind, key) == Count(events, kind, key) + if e.kind == kind && e.licenseKey == key then 1 else 0
    ensures History(events + [e], key, device)
      == History(events, key, device) + if e.licenseKey == key && e.deviceId == device then [e.kind] else []
  {
    assert (events + [e])[..|events|] == events;
  }

  /** The events one request adds: one activation when a device takes a seat it did not have, one
      deactivation when it gives it back. */
  function NewEvents(s: Server, now: Time, req: Request): seq<Event> {
    if req.Activate? && Serve(s, now, req).1.Granted? && req.device !in HoldersOf(s, req.key) then
      [Event(Activation, req.key, s.licenses[req.key].product, s.licenses[req.key].customer, req.device, now)]
    else if req.Deactivate? && Serve(s, now, req).1.Done? then
      [Event(Deactivation, req.key, s.licenses[req.key].product, s.licenses[req.key].customer, req.device, now)]
    else []
  }

  lemma ServeEvents(s: Server, now: Time, req: Request)
    requires Inv(s)
    ensures Serve(s, now, req).0.events == s.events + NewEvents(s, now, req)
  {
  }

  /** Starts with an activation and alternates from then on. */
  ghost predicate Alternates(h: seq<EventKind>) {
    forall i :: 0 <= i < |h| ==> h[i] == if i % 2 == 0 then Activation else Deactivation
  }

  /** The events of one device alternate, and it holds a seat exactly after an odd number of them. */
  ghost predicate InStep(s: Server, key: string, d: string) {
    var h := History(s.events, key, d);
    Alternates(h) && (|h| % 2 == 1 <==> d in HoldersOf(s, key))
  }

  /** Activations minus deactivations of a license are its active seats. */
  ghost predicate Balanced(s: Server, key: string) {
    Count(s.events, Activation, key) - Count(s.events, Deactivation, key) == |HoldersOf(s, key)|
  }

  /** The event fits the seats before and after it. */
  ghost predicate Fits(s: Server, s': Server, e: Event, key: string) {
    if e.licenseKey != key then HoldersOf(s', key) == HoldersOf(s, key)
    else if e.kind == Activation then
      e.deviceId !in HoldersOf(s, key) && HoldersOf(s', key) == HoldersOf(s, key) + {e.deviceId}
    else
      e.deviceId in HoldersOf(s, key) && HoldersOf(s', key) == HoldersOf(s, key) - {e.deviceId}
  }

  lemma AppendBalanced(s: Server, s': Server, e: Event, key: string)
    requires Balanced(s, key) && s'.events == s.events + [e] && Fits(s, s', e, key)
    ensures Balanced(s', key)
  {
    OneMore(s.events, e, Activation, key, e.deviceId);
    OneMore(s.events, e, Deactivation, key, e.deviceId);
  }

  lemma AppendInStep(s: Server, s': Server, e: Event, key: string, d: string)
    requires InStep(s, key, d) && s'.events == s.events + [e] && Fits(s, s', e, key)
    ensures InStep(s', key, d)
  {
    OneMore(s.events, e, Activation, key, d);
  }

  /** Either nothing is recorded and no seat of the license moves, or one event records the move. */
  lemma OneEventPerMove(s: Server, now: Time, req: Request, key: string)
    requires Inv(s)
    ensures var s' := Serve(s, now, req).0;
      || (s'.events == s.events && HoldersOf(s', key) == HoldersOf(s, key))
      || exists e :: s'.events == s.events + [e] && Fits(s, s', e, key)
  {
    var (s', reply) := Serve(s, now, req);
    ServeEvents(s, now, req);
    if key in s.licenses {
      ServeHolders(s, now, req, key);
      if NewEvents(s, now, req) == [] && req.Activate? && req.key == key && reply.Granted? { AddMember(HoldersOf(s, key), req.device); }
    } else if key in s'.licenses {
      NewKey(s, now, req, key);
    }
    if NewEvents(s, now, req) != [] {
      assert Fits(s, s', NewEvents(s, now, req)[0], key);
    }
  }

  /** In every run, activations minus deactivations of a license are its active seats, and the
      events of each of its devices alternate, starting with an activation. */
  lemma {:induction false} Ledger(s: Server, run: Run, n: nat, key: string)
    requires Inv(s) && Balanced(s, key) && (forall d :: InStep(s, key, d)) && n <= |run|
    ensures Balanced(After(s, run, n), key)
    ensures forall d :: InStep(After(s, run, n), key, d)
  {
    hide Serve;
    if n > 0 {
      Ledger(s, run, n - 1, key);
      AfterKeepsInv(s, run, n - 1);
      StepLedger(After(s, run, n - 1), run[n - 1].now, run[n - 1].req, key);
    }
  }

  lemma StepLedger(s: Server, now: Time, req: Request, key: string)
    requires Inv(s) && Balanced(s, key) && forall d :: InStep(s, key, d)
    ensures Balanced(Serve(s, now, req).0, key)
    ensures forall d :: InStep(Serve(s, now, req).0, key, d)
  {
    var s' := Serve(s, now, req).0;
    OneEventPerMove(s, now, req, key);
    if e :| s'.events == s.events + [e] && Fits(s, s', e, key) {
      AppendBalanced(s, s', e, key);
      forall d ensures InStep(s', key, d) { AppendInStep(s, s', e, key, d); }
    } else {
      forall d ensures InStep(s', key, d) { assert InStep(s, key, d); }
    }
  }

  lemma EmptyBooks(key: string)
    ensures Inv(EMPTY_SERVER) && WithinLimit(EMPTY_SERVER)
    ensures Balanced(EMPTY_SERVER, key) && forall d :: InStep(EMPTY_SERVER, key, d)
  {
  }

  // ---- the history of the device rows -------------------------------------------------------

  /** No stamp lies in the future, and activation comes before both last contact and release. */
  ghost predicate Stamped(t: Table, now: Time) {
    forall k :: k in t.rows ==>
      var d := t.rows[k];
      && d.activatedAt <= d.lastSeenAt <= now
      && (d.deactivatedAt.Some? ==> d.lastSeenAt <= d.deactivatedAt.value <= now)
  }

  /** No row disappears or changes its id. */
  ghost predicate Preserves(t: Table, t': Table) {
    forall k :: k in t.rows ==> k in t'.rows && t'.rows[k].id == t.rows[k].id
  }

  lemma ServeRows(s: Server, now: Time, req: Request)
    requires Inv(s)
    ensures Preserves(s.devices, Serve(s, now, req).0.devices)
  {
    hide Serve;
    ServeStatement(s, now, req);
  }

  lemma StatementStamps(t: Table, before: Time, now: Time, l: string, d: string, name: string)
    requires Stamped(t, before) && before <= now
    ensures Stamped(t, now) && Stamped(Upsert(t, l, d, name, now), now)
    ensures d in Holders(t, l) ==> Stamped(Touch(t, (l, d), now), now) && Stamped(Free(t, l, d, now), now)
  {
  }

  lemma ServeStamps(s: Server, before: Time, now: Time, req: Request)
    requires Inv(s) && Stamped(s.devices, before) && before <= now
    ensures Stamped(Serve(s, now, req).0.devices, now)
  {
    hide Serve;
    ServeStatement(s, now, req);
    if (req.Activate? || req.Validate? || req.Deactivate?) && req.key in s.licenses {
      StatementStamps(s.devices, before, now, s.licenses[req.key].id, req.device, if req.Activate? then req.name else "");
    } else {
      StatementStamps(s.devices, before, now, "", "", "");
    }
  }

  /** Rows are never deleted and keep their ids through any number of releases and revivals. */
  lemma {:induction false} RowsPersist(s: Server, run: Run, m: nat, n: nat)
    requires Inv(s) && m <= n <= |run|
    ensures Preserves(After(s, run, m).devices, After(s, run, n).devices)
    decreases n
  {
    hide Serve;
    if m < n {
      RowsPersist(s, run, m, n - 1);
      AfterKeepsInv(s, run, n - 1);
      ServeRows(After(s, run, n - 1), run[n - 1].now, run[n - 1].req);
    }
  }

  /** On an ordered clock every row is stamped in order. */
  lemma {:induction false} StampsInOrder(s: Server, run: Run, n: nat, start: Time)
    requires Inv(s) && Stamped(s.devices, start) && Ordered(run) && 0 < n <= |run| && start <= run[0].now
    ensures Stamped(After(s, run, n).devices, run[n - 1].now)
  {
    hide Serve;
    AfterKeepsInv(s, run, n - 1);
    if n > 1 {
      StampsInOrder(s, run, n - 1, start);
      ServeStamps(After(s, run, n - 1), run[n - 2].now, run[n - 1].now, run[n - 1].req);
    } else {
      ServeStamps(s, start, run[0].now, run[0].req);
    }
  }

  /** A device is listed on a license exactly when it was ever activated there. */
  ghost predicate Listed(s: Server, key: string, d: string) {
    History(s.events, key, d) != [] <==> key in s.licenses && (s.licenses[key].id, d) in s.devices.rows
  }

  /** A row appears only with the activation event of its device. */
  lemma RowsAppear(s: Server, now: Time, req: Request, k: SeatKey)
    requires Inv(s)
    ensures k in Serve(s, now, req).0.devices.rows <==>
      k in s.devices.rows
      || (req.Activate? && NewEvents(s, now, req) != [] && k == (s.licenses[req.key].id, req.device))
  {
    ServeStatement(s, now, req);
  }

  /** An event of this very device comes with its row. */
  lemma OwnEventListed(s: Server, now: Time, req: Request, key: string, d: string)
    requires Inv(s) && Listed(s, key, d) && NewEvents(s, now, req) != [] && req.key == key && req.device == d
    ensures Listed(Serve(s, now, req).0, key, d)
  {
    ServeEvents(s, now, req);
    OneMore(s.events, NewEvents(s, now, req)[0], Activation, key, d);
    ServeKeepsTerms(s, now, req, key);
    RowsAppear(s, now, req, (s.licenses[key].id, d));
    if req.Deactivate? { assert d in HoldersOf(s, key); }
    hide Serve;
  }

  lemma ForeignEventListed(s: Server, now: Time, req: Request, key: string, d: string)
    requires Inv(s) && Listed(s, key, d) && NewEvents(s, now, req) != [] && !(req.key == key && req.device == d)
    ensures Listed(Serve(s, now, req).0, key, d)
  {
    ServeEvents(s, now, req);
    OneMore(s.events, NewEvents(s, now, req)[0], Activation, key, d);
    if key in s.licenses {
      ServeKeepsTerms(s, now, req, key);
      RowsAppear(s, now, req, (s.licenses[key].id, d));
      SameId(s.licenses, req.key, key);
    } else if key in Serve(s, now, req).0.licenses {
      NewKey(s, now, req, key);
    }
    hide Serve;
  }

  lemma RecordedListed(s: Server, now: Time, req: Request, key: string, d: string)
    requires Inv(s) && Listed(s, key, d) && NewEvents(s, now, req) != []
    ensures Listed(Serve(s, now, req).0, key, d)
  {
    hide Serve, Listed;
    if req.key == key && req.device == d {
      OwnEventListed(s, now, req, key, d);
    } else {
      ForeignEventListed(s, now, req, key, d);
    }
  }

  lemma QuietListed(s: Server, now: Time, req: Request, key: string, d: string)
    requires Inv(s) && Listed(s, key, d) && NewEvents(s, now, req) == []
    ensures Listed(Serve(s, now, req).0, key, d)
  {
    ServeEvents(s, now, req);
    if key in s.licenses {
      ServeKeepsTerms(s, now, req, key);
      RowsAppear(s, now, req, (s.licenses[key].id, d));
    } else if key in Serve(s, now, req).0.licenses {
      NewKey(s, now, req, key);
    }
  }

  lemma ServeListed(s: Server, now: Time, req: Request, key: string, d: string)
    requires Inv(s) && Listed(s, key, d)
    ensures Listed(Serve(s, now, req).0, key, d)
  {
    if NewEvents(s, now, req) == [] { QuietListed(s, now, req, key, d); } else { RecordedListed(s, now, req, key, d); }
  }

  lemma {:induction false} EverActivatedIsListed(s: Server, run: Run, n: nat, key: string, d: string)
    requires Inv(s) && Listed(s, key, d) && n <= |run|
    ensures Listed(After(s, run, n), key, d)
  {
    hide Serve;
    if n > 0 {
      EverActivatedIsListed(s, run, n - 1, key, d);
      AfterKeepsInv(s, run, n - 1);
      ServeListed(After(s, run, n - 1), run[n - 1].now, run[n - 1].req, key, d);
    }
  }
}
