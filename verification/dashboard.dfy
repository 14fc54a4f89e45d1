/** The dashboard's licensing pages (web/admin.go) as steps of the same server, and what the create
    form's clamp gives every state reachable from an empty server. */
module Dashboard {
  import opened Common
  import opened Models
  import LicenseStore
  import opened Licensing
  import opened SeatTheorems
  import opened Interleaving
  import opened Concurrency
  import opened InterleavedLedger
  import opened InterleavedTokens
  import Allocation

  /** The create form as parsed: a number of devices if the field holds one, and the midnight that
      starts the expiry day if the field holds a date. */
  datatype Form = Form(product: string, customer: string, devices: Option<int>, day: Option<Time>)

  /** The pasted offline request is None when it does not decode; a missing device id is empty. */
  datatype Page =
    | CreateLicense(productExists: bool, id: string, key: string, form: Form)
    | RevokeLicense(id: string)
    | DeactivateDevice(id: string, device: string)
    | OfflineActivate(id: string, pasted: Option<(string, string)>)

  /** The form's values as the handler overwrites them. */
  method ReadForm(devices: Option<int>, day: Option<Time>) returns (maxDevices: int, expiresAt: Option<Time>)
    ensures maxDevices >= 1 && (devices.Some? && devices.value >= 1 ==> maxDevices == devices.value)
    ensures (maxDevices, expiresAt) == (SeatsOf(devices), ExpiryOf(day))
  {
    maxDevices := if devices.Some? then devices.value else 0;
    if devices.None? || maxDevices < 1 {
      maxDevices := 1;
    }
    expiresAt := None;
    if day.Some? {
      expiresAt := Some(day.value + 24 * HOUR);
    }
  }

  function SeatsOf(devices: Option<int>): (r: int)
    ensures r >= 1 && (devices.Some? && devices.value >= 1 ==> r == devices.value)
  {
    if devices.Some? && devices.value > 1 then devices.value else 1
  }

  function ExpiryOf(day: Option<Time>): Option<Time> {
    if day.Some? then Some(day.value + DAY) else None
  }

  /** The key of the license whose page it is. */
  ghost function KeyOfId(s: Server, id: string): (key: string)
    requires LicenseStore.HasId(s.licenses, id)
    ensures key in s.licenses && s.licenses[key].id == id
  {
    var key :| key in s.licenses && s.licenses[key].id == id;
    key
  }

  /** The request the page makes of the licensing service or the store, if it makes one. */
  ghost function RequestOf(s: Server, page: Page): Option<Request> {
    match page
    case CreateLicense(productExists, id, key, form) =>
      if productExists then Some(Create(id, key, form.product, form.customer, SeatsOf(form.devices), ExpiryOf(form.day)))
      else None
    case RevokeLicense(id) => Some(Revoke(id))
    case DeactivateDevice(id, device) =>
      if LicenseStore.HasId(s.licenses, id) then Some(Deactivate(KeyOfId(s, id), device)) else None
    case OfflineActivate(id, pasted) =>
      if !LicenseStore.HasId(s.licenses, id) || pasted.None? || pasted.value.0 == "" then None
      else Some(Activate(KeyOfId(s, id), pasted.value.0, pasted.value.1, true))
  }

  ghost function Submit(s: Server, now: Time, page: Page): (Server, Option<Reply>) {
    var req := RequestOf(s, page);
    if req.None? then (s, None) else (Serve(s, now, req.value).0, Some(Serve(s, now, req.value).1))
  }

  /** A license made with the form admits as many devices as were typed in, or one if that was no
      number from one up; it carries the form's product and customer; and until revoked it is active
      exactly up to the midnight that ends the chosen day, or for ever when no day was given. */
  lemma CreatedByForm(s: Server, now: Time, id: string, key: string, form: Form, t: Time)
    ensures var (s', r) := Submit(s, now, CreateLicense(true, id, key, form));
      && r == Some(if key in s.licenses then KeyExists
                   else if exists k :: k in s.licenses && s.licenses[k].id == id then IdExists else Done)
      && (r != Some(Done) ==> s' == s)
      && (r == Some(Done) ==>
            && key in s'.licenses && (Inv(s) ==> HoldersOf(s', key) == {})
            && var l := s'.licenses[key];
            && l.id == id && l.key == key && l.product == form.product && l.customer == form.customer
            && l.maxDevices == (if form.devices.Some? && form.devices.value >= 1 then form.devices.value else 1)
            && l.expiresAt == (if form.day.Some? then Some(form.day.value + 24 * HOUR) else None)
            && l.revokedAt.None? && l.createdAt == now
            && (l.Status(t) == Active <==> form.day.None? || t <= form.day.value + 24 * HOUR))
  {
    CreateReply(s, now, id, key, form.product, form.customer, SeatsOf(form.devices), ExpiryOf(form.day));
    hide Serve;
  }

  /** Without the product the page makes nothing. */
  lemma NoProductNoLicense(s: Server, now: Time, id: string, key: string, form: Form)
    ensures Submit(s, now, CreateLicense(false, id, key, form)) == (s, None)
  {
    hide Serve;
  }

  /** The seats that the form asked for are the seats there are: from the creation on, as long as the
      license is active and nobody releases, the smaller of that number and the devices asking is held. */
  lemma FormSeats(s: Server, now: Time, id: string, key: string, form: Form, run: Run, n: nat)
    requires Inv(s) && Submit(s, now, CreateLicense(true, id, key, form)).1 == Some(Done)
    requires var s' := Submit(s, now, CreateLicense(true, id, key, form)).0;
      n <= |run| && key in s'.licenses && Allocation.Undisturbed(s', run, n, key)
    requires form.devices.Some? && form.devices.value >= 1
    ensures var s' := Submit(s, now, CreateLicense(true, id, key, form)).0;
      |HoldersOf(After(s', run, n), key)| == Min(form.devices.value, |Elements(Allocation.Asks(run, n, key))|)
  {
    hide Serve, Allocation.Undisturbed;
    CreatedByForm(s, now, id, key, form, now);
    var req := RequestOf(s, CreateLicense(true, id, key, form)).value;
    ServeKeepsInv(s, now, req);
    Allocation.NeverWasteful(Serve(s, now, req).0, run, n, key);
  }

  /** The revoke button revokes the license on the page, and only if it was not revoked before. */
  lemma PageRevokes(s: Server, now: Time, id: string, key: string)
    requires Inv(s) && key in s.licenses && s.licenses[key].id == id
    ensures var (s', r) := Submit(s, now, RevokeLicense(id));
      && r == Some(if s.licenses[key].revokedAt.None? then Done else NotFound) && key in s'.licenses
      && s'.licenses[key].revokedAt == if s.licenses[key].revokedAt.None? then Some(now) else s.licenses[key].revokedAt
  {
    RevokeReply(s, now, id);
    hide DoRevoke;
  }

  /** A page acts on the license it shows and on no other, whatever keys the licenses have. */
  lemma PageActsOnItsLicense(s: Server, now: Time, page: Page, key: string)
    requires Inv(s) && key in s.licenses && !page.CreateLicense?
    requires s.licenses[key].id != page.id
    ensures var s' := Submit(s, now, page).0;
      key in s'.licenses && s'.licenses[key] == s.licenses[key] && HoldersOf(s', key) == HoldersOf(s, key)
  {
    var req := RequestOf(s, page);
    if req.Some? {
      ServeHolders(s, now, req.value, key);
    }
  }

  /** A pasted request is passed on exactly if the license exists and it names a device; then it is
      answered as an activation of that device on the license shown. */
  lemma OfflinePageAnswers(s: Server, now: Time, id: string, key: string, pasted: Option<(string, string)>)
    requires Inv(s) && key in s.licenses && s.licenses[key].id == id
    ensures var (s', r) := Submit(s, now, OfflineActivate(id, pasted));
      if pasted.None? || pasted.value.0 == "" then (s', r) == (s, None)
      else
        && (!OpenAt(s, now, key) ==> r.Some? && Closed(s, now, key, r.value))
        && (r == Some(DeviceLimit) <==>
              OpenAt(s, now, key) && pasted.value.0 !in HoldersOf(s, key) && |HoldersOf(s, key) - {pasted.value.0}| >= s.licenses[key].maxDevices)
        && (r.Some? && r.value.Granted? <==>
              OpenAt(s, now, key) && (pasted.value.0 in HoldersOf(s, key) || |HoldersOf(s, key)| < s.licenses[key].maxDevices))
        && (r.Some? && r.value.Granted? && pasted.value.0 !in HoldersOf(s, key) ==>
              && (id, pasted.value.0) in s'.devices.rows && s'.devices.rows[(id, pasted.value.0)].name == pasted.value.1)
  {
    hide DoActivate, HoldersOf;
    SameKey(s, id, key);
    if pasted.Some? {
      ActivateReply(s, now, key, pasted.value.0, pasted.value.1, true);
      NameRecorded(s, now, key, pasted.value.0, pasted.value.1, true);
    }
  }

  /** A device that takes a seat is recorded under its name. */
  lemma NameRecorded(s: Server, now: Time, key: string, device: string, name: string, offline: bool)
    requires key in s.licenses
    ensures var (s', reply) := DoActivate(s, now, key, device, name, offline);
      var seat := (s.licenses[key].id, device);
      reply.Granted? && device !in HoldersOf(s, key) ==> seat in s'.devices.rows && s'.devices.rows[seat].name == name
  {
  }

  /** The page finds the license by its id, which no other license has. */
  lemma SameKey(s: Server, id: string, key: string)
    requires Inv(s) && key in s.licenses && s.licenses[key].id == id
    ensures LicenseStore.HasId(s.licenses, id) && KeyOfId(s, id) == key
  {
    SameId(s.licenses, KeyOfId(s, id), key);
  }

  lemma NoSuchPage(s: Server, now: Time, id: string, device: string, pasted: Option<(string, string)>)
    requires !LicenseStore.HasId(s.licenses, id)
    ensures Submit(s, now, DeactivateDevice(id, device)) == (s, None) && Submit(s, now, OfflineActivate(id, pasted)) == (s, None)
  {
    hide Serve;
  }

  /** A pasted request that is answered with a token names a device, takes or keeps a seat for it on
      the license shown, and the token is an offline one for that license. */
  lemma OfflineFileIsForThisLicense(s: Server, now: Time, id: string, pasted: Option<(string, string)>, token: Token)
    requires Inv(s) && Submit(s, now, OfflineActivate(id, pasted)).1 == Some(Granted(token))
    ensures pasted.Some? && pasted.value.0 != "" && token.deviceId == pasted.value.0 && token.offline
    ensures var s' := Submit(s, now, OfflineActivate(id, pasted)).0;
      && token.licenseKey in s'.licenses && s'.licenses[token.licenseKey].id == id
      && token.deviceId in HoldersOf(s', token.licenseKey)
      && Truthful(token, s', now, token.licenseKey, token.deviceId)
  {
    hide Serve;
    GrantedToken(s, now, RequestOf(s, OfflineActivate(id, pasted)).value);
  }

  /** Releasing from the page gives back the device's seat, and its refusal means it held none. */
  lemma PageReleases(s: Server, now: Time, id: string, device: string, key: string)
    requires Inv(s) && key in s.licenses && s.licenses[key].id == id
    ensures var (s', r) := Submit(s, now, DeactivateDevice(id, device));
      && HoldersOf(s', key) == HoldersOf(s, key) - {device}
      && r == Some(if device in HoldersOf(s, key) then Done else NotFound)
  {
    SameId(s.licenses, KeyOfId(s, id), key);
    ServeHolders(s, now, Deactivate(key, device), key);
  }

  // ---- every state reachable from an empty server -------------------------------------------

  /** Licenses are only made with the form, which never asks for fewer than one device. */
  ghost predicate FormsOnly(moves: seq<Interleaving.Move>) {
    forall i :: 0 <= i < |moves| && moves[i].Admin? && moves[i].req.Create? ==> moves[i].req.maxDevices >= 1
  }

  /** The move that makes a license leaves it without seats, promises or events. */
  lemma NewLicense(sys: System, move: Interleaving.Move, key: string)
    requires SysInv(sys) && key !in sys.server.licenses && key in Exec(sys, move).server.licenses
    ensures move.Admin? && move.req.Create? && move.req.maxDevices == Exec(sys, move).server.licenses[key].maxDevices
    ensures HoldersOf(Exec(sys, move).server, key) == {} && Exec(sys, move).server.events == sys.server.events
    ensures PassedOn(Exec(sys, move), key) == {} && InsertedOn(Exec(sys, move), key) == {} && FreedOn(Exec(sys, move), key) == {}
  {
    match move {
      case Admin(now, req) =>
        NewKey(sys.server, now, req, key);
        forall t | t in sys.flights && sys.flights[t].req.key == key ensures !HasRead(sys.flights[t].at) {
          assert Faithful(sys.server, sys.flights[t]);
        }
      case Advance(tid, now) =>
        if tid in sys.flights { StatementKeepsTables(sys.server, sys.flights[tid].req, sys.flights[tid].at, now); }
      case Begin(_, _) =>
    }
  }

  /** In every reachable state, seats and promises of a license stay within its limit plus the
      activations in flight beyond one. */
  lemma {:induction false} ReachableSeatBound(moves: seq<Interleaving.Move>, n: nat, key: string, inFlight: nat)
    requires FormsOnly(moves) && n <= |moves| && key in Reach(EMPTY_SYSTEM, moves, n).server.licenses
    requires forall m :: 0 <= m <= n ==> |FlightOn(Reach(EMPTY_SYSTEM, moves, m), key)| <= inFlight
    ensures SeatBound(Reach(EMPTY_SYSTEM, moves, n), key, inFlight)
  {
    hide Exec, Inv;
    if n > 0 {
      var before := Reach(EMPTY_SYSTEM, moves, n - 1);
      StartInv();
      ReachKeepsInv(EMPTY_SYSTEM, moves, n - 1);
      if key in before.server.licenses {
        ReachableSeatBound(moves, n - 1, key, inFlight);
        assert |FlightOn(Reach(EMPTY_SYSTEM, moves, n), key)| <= inFlight;
        ExecKeepsBound(before, moves[n - 1], key, inFlight);
      } else {
        NewLicense(before, moves[n - 1], key);
      }
    }
  }

  /** So do the bounds on live tokens. */
  lemma ReachableWindow(moves: seq<Interleaving.Move>, n: nat, key: string, inFlight: nat, T: Time)
    requires FormsOnly(moves) && InOrder(moves) && n <= |moves| && key in Reach(EMPTY_SYSTEM, moves, n).server.licenses
    requires forall m :: 0 <= m <= n ==> |FlightOn(Reach(EMPTY_SYSTEM, moves, m), key)| <= inFlight
    ensures var room := Reach(EMPTY_SYSTEM, moves, n).server.licenses[key].maxDevices - 1 + inFlight;
      var end := Reach(EMPTY_SYSTEM, moves, n);
      && |LiveOn(end, key, T, false)| <= room + |FreesSince(EMPTY_SYSTEM, moves, n, key, T - ONLINE_GRACE_PERIOD)|
      && |LiveOn(end, key, T, true)| <= room + |FreesEver(EMPTY_SYSTEM, moves, n, key)|
  {
    hide Reach, SysInv, InOrder, LiveOn, FreesSince, FreesEver;
    StartInv();
    ReachableSeatBound(moves, n, key, inFlight);
    WindowOverSeats(EMPTY_SYSTEM, moves, n, key, inFlight, T, false);
    WindowOverSeats(EMPTY_SYSTEM, moves, n, key, inFlight, T, true);
  }

  /** Nobody has reported an event of a license that does not exist. */
  ghost predicate EventsKnown(s: Server) {
    forall i :: 0 <= i < |s.events| ==> s.events[i].licenseKey in s.licenses
  }

  lemma {:induction false} NoneCounted(events: seq<Event>, kind: EventKind, key: string)
    requires forall i :: 0 <= i < |events| ==> events[i].licenseKey != key
    ensures Count(events, kind, key) == 0
  {
    if events != [] {
      NoneCounted(events[..|events| - 1], kind, key);
    }
  }

  lemma ExecKeepsKnown(sys: System, move: Interleaving.Move)
    requires SysInv(sys) && EventsKnown(sys.server)
    ensures EventsKnown(Exec(sys, move).server)
  {
    match move {
      case Advance(tid, now) =>
        if tid in sys.flights {
          var f := sys.flights[tid];
          assert Faithful(sys.server, f);
          StatementKeepsTables(sys.server, f.req, f.at, now);
        }
      case Admin(now, req) =>
        if !Split(req) {
          forall key | key in sys.server.licenses ensures key in Serve(sys.server, now, req).0.licenses {
            ServeKeepsTerms(sys.server, now, req, key);
          }
        }
      case Begin(_, _) =>
    }
  }

  /** In every reachable state, the reported and unreported inserts of a license exceed its seats and
      its reported and unreported releases by exactly the redundant inserts that were run. */
  lemma {:induction false} ReachableLedger(moves: seq<Interleaving.Move>, n: nat, key: string)
    requires n <= |moves|
    ensures EventsKnown(Reach(EMPTY_SYSTEM, moves, n).server)
    ensures Surplus(Reach(EMPTY_SYSTEM, moves, n), key) == RedundantInserts(EMPTY_SYSTEM, moves, n, key)
  {
    hide Exec, Inv, Surplus, Redundant;
    StartInv();
    if n == 0 {
      NothingBooked(EMPTY_SYSTEM, key);
    } else {
      var before, move := Reach(EMPTY_SYSTEM, moves, n - 1), moves[n - 1];
      ReachableLedger(moves, n - 1, key);
      ReachKeepsInv(EMPTY_SYSTEM, moves, n - 1);
      ExecKeepsKnown(before, move);
      if key in before.server.licenses {
        ExecSurplus(before, move, key);
      } else {
        NothingBooked(before, key);
        NothingYet(before, move, key);
      }
    }
  }

  /** A license that does not exist has no books. */
  lemma NothingBooked(sys: System, key: string)
    requires SysInv(sys) && EventsKnown(sys.server) && key !in sys.server.licenses
    ensures Surplus(sys, key) == 0 && forall move :: !Redundant(sys, move, key)
  {
    NoneCounted(sys.server.events, Activation, key);
    NoneCounted(sys.server.events, Deactivation, key);
    forall t | t in sys.flights && Split(sys.flights[t].req) && sys.flights[t].req.key == key ensures !HasRead(sys.flights[t].at) {
      assert Faithful(sys.server, sys.flights[t]);
    }
    assert InsertedOn(sys, key) == {} && FreedOn(sys, key) == {} && HoldersOf(sys.server, key) == {};
  }

  /** Its creation leaves its books empty. */
  lemma NothingYet(sys: System, move: Interleaving.Move, key: string)
    requires SysInv(sys) && EventsKnown(sys.server) && key !in sys.server.licenses && EventsKnown(Exec(sys, move).server)
    ensures Surplus(Exec(sys, move), key) == 0
  {
    if key in Exec(sys, move).server.licenses {
      NewLicense(sys, move, key);
      NoneCounted(sys.server.events, Activation, key);
      NoneCounted(sys.server.events, Deactivation, key);
    } else {
      ExecKeepsInv(sys, move);
      NothingBooked(Exec(sys, move), key);
    }
    hide Exec;
  }
}
