/** The licensing rules (license/service.go) with one request as one step, and runs of requests. */
module Licensing {
  import opened Common
  import opened Models
  import opened Seats
  import LicenseStore

  datatype EventKind = Activation | Deactivation

  datatype Event = Event(
    kind: EventKind, licenseKey: string, product: string, customer: string, deviceId: string, at: Time)

  datatype Server = Server(licenses: LicenseStore.Licenses, devices: Table, events: seq<Event>)

  const EMPTY_SERVER := Server(map[], EMPTY_TABLE, [])

  datatype Request =
    | Activate(key: string, device: string, name: string, offline: bool)
    | Validate(key: string, device: string)
    | Deactivate(key: string, device: string)
    | Revoke(id: string)
    | Create(id: string, key: string, product: string, customer: string, maxDevices: int, expiresAt: Option<Time>)

  datatype Reply =
    | Granted(token: Token)
    | Done
    | NotFound
    | NotActive(status: Status)
    | DeviceLimit
    | KeyExists
    | IdExists

  function Sign(l: License, device: string, seatsUsed: int, now: Time, offline: bool): Token {
    var deadline := now + Horizon(offline);
    var validUntil := if l.expiresAt.Some? && l.expiresAt.value < deadline then l.expiresAt.value else deadline;
    Token(l.key, l.product, l.customer, device, l.maxDevices, seatsUsed, l.Status(now), now, validUntil, l.expiresAt, offline)
  }

  function Notify(s: Server, kind: EventKind, l: License, device: string, now: Time): Server {
    s.(events := s.events + [Event(kind, l.key, l.product, l.customer, device, now)])
  }

  /** A device that holds a seat is only touched; any other takes a free seat or is refused. */
  function Admit(s: Server, l: License, device: string, name: string, now: Time): (Server, bool) {
    if device in Holders(s.devices, l.id) then (s.(devices := Touch(s.devices, (l.id, device), now)), true)
    else if |Holders(s.devices, l.id)| >= l.maxDevices then (s, false)
    else (Notify(s.(devices := Upsert(s.devices, l.id, device, name, now)), Activation, l, device, now), true)
  }

  function DoActivate(s: Server, now: Time, key: string, device: string, name: string, offline: bool): (Server, Reply) {
    if key !in s.licenses then (s, NotFound)
    else
      var l := s.licenses[key];
      if l.Status(now) != Active then (s, NotActive(l.Status(now)))
      else
        var (s', ok) := Admit(s, l, device, name, now);
        if !ok then (s, DeviceLimit)
        else (s', Granted(Sign(l, device, |Holders(s'.devices, l.id)|, now, offline)))
  }

  function DoValidate(s: Server, now: Time, key: string, device: string): (Server, Reply) {
    if key !in s.licenses then (s, NotFound)
    else
      var l := s.licenses[key];
      if l.Status(now) != Active then (s, NotActive(l.Status(now)))
      else if device !in Holders(s.devices, l.id) then (s, NotFound)
      else
        var t := Touch(s.devices, (l.id, device), now);
        (s.(devices := t), Granted(Sign(l, device, |Holders(t, l.id)|, now, false)))
  }

  function DoDeactivate(s: Server, now: Time, key: string, device: string): (Server, Reply) {
    if key !in s.licenses then (s, NotFound)
    else
      var l := s.licenses[key];
      if device !in Holders(s.devices, l.id) then (s, NotFound)
      else (Notify(s.(devices := Free(s.devices, l.id, device, now)), Deactivation, l, device, now), Done)
  }

  function DoRevoke(s: Server, now: Time, id: string): (Server, Reply) {
    (s.(licenses := LicenseStore.Revoke(s.licenses, id, now)),
     if LicenseStore.Revocable(s.licenses, id) then Done else NotFound)
  }

  function DoCreate(s: Server, l: License): (Server, Reply) {
    if l.key in s.licenses then (s, KeyExists)
    else if LicenseStore.HasId(s.licenses, l.id) then (s, IdExists)
    else (s.(licenses := s.licenses[l.key := l]), Done)
  }

  function Serve(s: Server, now: Time, req: Request): (Server, Reply) {
    match req
    case Activate(key, device, name, offline) => DoActivate(s, now, key, device, name, offline)
    case Validate(key, device) => DoValidate(s, now, key, device)
    case Deactivate(key, device) => DoDeactivate(s, now, key, device)
    case Revoke(id) => DoRevoke(s, now, id)
    case Create(id, key, product, customer, maxDevices, expiresAt) =>
      DoCreate(s, License(id, key, product, customer, maxDevices, expiresAt, None, now))
  }

  // ---- what one request does ----------------------------------------------------------------

  /** Tables are well formed and every device row belongs to a stored license. */
  ghost predicate Inv(s: Server) {
    && LicenseStore.WellFormed(s.licenses)
    && WellFormed(s.devices)
    && forall k :: k in s.devices.rows ==> LicenseStore.HasId(s.licenses, k.0)
  }

  function HoldersOf(s: Server, key: string): set<string> {
    if key in s.licenses then Holders(s.devices, s.licenses[key].id) else {}
  }

  /** Changing seats of a stored license keeps the invariant. */
  lemma SeatsKeepInv(s: Server, s': Server, key: string)
    requires Inv(s) && key in s.licenses && s'.licenses == s.licenses && WellFormed(s'.devices)
    requires forall k :: k in s'.devices.rows ==> k in s.devices.rows || k.0 == s.licenses[key].id
    ensures Inv(s')
  {
  }

  lemma DeviceUpdatesKeepInv(s: Server, now: Time, key: string, device: string)
    requires Inv(s) && key in s.licenses && device in Holders(s.devices, s.licenses[key].id)
    ensures var k := (s.licenses[key].id, device);
      && Inv(s.(devices := Touch(s.devices, k, now)))
      && forall e :: Inv(s.(devices := Free(s.devices, k.0, k.1, now), events := e))
  {
    var k := (s.licenses[key].id, device);
    UpdateKeepsWellFormed(s.devices, k, s.devices.rows[k].(lastSeenAt := now));
    UpdateKeepsWellFormed(s.devices, k, s.devices.rows[k].(deactivatedAt := Some(now)));
    SeatsKeepInv(s, s.(devices := Touch(s.devices, k, now)), key);
    SeatsKeepInv(s, s.(devices := Free(s.devices, k.0, k.1, now)), key);
  }

  lemma ActivateKeepsInv(s: Server, now: Time, key: string, device: string, name: string, offline: bool)
    requires Inv(s)
    ensures Inv(DoActivate(s, now, key, device, name, offline).0)
  {
    if key in s.licenses {
      var id := s.licenses[key].id;
      if device in Holders(s.devices, id) {
        DeviceUpdatesKeepInv(s, now, key, device);
      } else {
        UpsertKeepsWellFormed(s.devices, id, device, name, now);
        SeatsKeepInv(s, s.(devices := Upsert(s.devices, id, device, name, now)), key);
      }
    }
  }

  lemma RevokeKeepsInv(s: Server, now: Time, id: string)
    requires Inv(s)
    ensures Inv(DoRevoke(s, now, id).0)
  {
    LicenseStore.RevokeKeepsWellFormed(s.licenses, id, now);
    var s' := DoRevoke(s, now, id).0;
    forall k | k in s'.devices.rows ensures LicenseStore.HasId(s'.licenses, k.0) {
      var l :| l in s.licenses && s.licenses[l].id == k.0;
      assert s'.licenses[l].id == k.0;
    }
  }

  lemma CreateKeepsInv(s: Server, l: License)
    requires Inv(s)
    ensures Inv(DoCreate(s, l).0)
  {
    var s' := DoCreate(s, l).0;
    forall k | k in s'.devices.rows ensures LicenseStore.HasId(s'.licenses, k.0) {
      var j :| j in s.licenses && s.licenses[j].id == k.0;
      assert j in s'.licenses && s'.licenses[j] == s.licenses[j];
    }
  }

  lemma ServeKeepsInv(s: Server, now: Time, req: Request)
    requires Inv(s)
    ensures Inv(Serve(s, now, req).0)
  {
    match req {
      case Activate(key, device, name, offline) => ActivateKeepsInv(s, now, key, device, name, offline);
      case Validate(key, device) =>
        if key in s.licenses && device in Holders(s.devices, s.licenses[key].id) { DeviceUpdatesKeepInv(s, now, key, device); }
      case Deactivate(key, device) =>
        if key in s.licenses && device in Holders(s.devices, s.licenses[key].id) { DeviceUpdatesKeepInv(s, now, key, device); }
      case Revoke(id) => RevokeKeepsInv(s, now, id);
      case Create(id, key, product, customer, maxDevices, expiresAt) =>
        CreateKeepsInv(s, License(id, key, product, customer, maxDevices, expiresAt, None, now));
    }
  }

  /** A license, once stored, keeps every field but its revocation, and a revocation never changes. */
  lemma ServeKeepsTerms(s: Server, now: Time, req: Request, key: string)
    requires key in s.licenses
    ensures key in Serve(s, now, req).0.licenses
    ensures s.licenses[key].SameTerms(Serve(s, now, req).0.licenses[key])
    ensures s.licenses[key].revokedAt.Some? ==> Serve(s, now, req).0.licenses[key] == s.licenses[key]
  {
  }

  /** How one request moves the seats of a license: only a granted activation takes one and only
      its own deactivation gives one back. */
  function Moved(h: set<string>, req: Request, reply: Reply, key: string): set<string> {
    if req.Activate? && req.key == key && reply.Granted? then h + {req.device}
    else if req.Deactivate? && req.key == key && reply.Done? then h - {req.device}
    else h
  }

  lemma SameId(m: LicenseStore.Licenses, j: string, k: string)
    requires LicenseStore.WellFormed(m) && j in m && k in m
    ensures m[j].id == m[k].id <==> j == k
  {
  }

  /** A device that already holds its seat changes nobody's. */
  lemma TouchActivation(s: Server, now: Time, key: string, device: string, name: string, offline: bool, other: string)
    requires Inv(s) && key in s.licenses && other in s.licenses && device in Holders(s.devices, s.licenses[key].id)
    ensures HoldersOf(DoActivate(s, now, key, device, name, offline).0, other) == HoldersOf(s, other)
  {
    TouchHolders(s.devices, (s.licenses[key].id, device), now, s.licenses[other].id);
  }

  /** A device without a seat takes one on its own license only. */
  lemma NewActivation(s: Server, now: Time, key: string, device: string, name: string, offline: bool, other: string)
    requires Inv(s) && key in s.licenses && other in s.licenses && device !in Holders(s.devices, s.licenses[key].id)
    requires DoActivate(s, now, key, device, name, offline).1.Granted?
    ensures HoldersOf(DoActivate(s, now, key, device, name, offline).0, other)
         == HoldersOf(s, other) + if key == other then {device} else {}
  {
    SameId(s.licenses, key, other);
    UpsertHolders(s.devices, s.licenses[key].id, device, name, now, s.licenses[other].id);
  }

  lemma RefusedActivation(s: Server, now: Time, key: string, device: string, name: string, offline: bool)
    requires !DoActivate(s, now, key, device, name, offline).1.Granted?
    ensures DoActivate(s, now, key, device, name, offline).0 == s
  {
  }

  lemma AddMember(h: set<string>, d: string)
    requires d in h
    ensures h + {d} == h
  {
  }

  lemma ActivateHolders(s: Server, now: Time, key: string, device: string, name: string, offline: bool, other: string)
    requires Inv(s) && other in s.licenses
    ensures var (s', reply) := DoActivate(s, now, key, device, name, offline);
      HoldersOf(s', other) == Moved(HoldersOf(s, other), Activate(key, device, name, offline), reply, other)
  {
    if !DoActivate(s, now, key, device, name, offline).1.Granted? {
      RefusedActivation(s, now, key, device, name, offline);
    } else if device in HoldersOf(s, key) {
      TouchActivation(s, now, key, device, name, offline, other);
      AddMember(HoldersOf(s, key), device);
    } else {
      NewActivation(s, now, key, device, name, offline, other);
    }
  }

  lemma ValidateHolders(s: Server, now: Time, key: string, device: string, other: string)
    requires Inv(s) && other in s.licenses
    ensures HoldersOf(DoValidate(s, now, key, device).0, other) == HoldersOf(s, other)
    ensures DoValidate(s, now, key, device).1.Granted? ==> device in HoldersOf(s, key)
  {
    if key in s.licenses && device in Holders(s.devices, s.licenses[key].id) {
      TouchHolders(s.devices, (s.licenses[key].id, device), now, s.licenses[other].id);
    }
  }

  lemma DeactivateHolders(s: Server, now: Time, key: string, device: string, other: string)
    requires Inv(s) && other in s.licenses
    ensures var (s', reply) := DoDeactivate(s, now, key, device);
      HoldersOf(s', other) == HoldersOf(s, other) - (if key == other && reply.Done? then {device} else {})
  {
    if key in s.licenses {
      FreeHolders(s.devices, s.licenses[key].id, device, now, s.licenses[other].id);
    }
  }

  lemma ServeHolders(s: Server, now: Time, req: Request, key: string)
    requires Inv(s) && key in s.licenses
    ensures HoldersOf(Serve(s, now, req).0, key) == Moved(HoldersOf(s, key), req, Serve(s, now, req).1, key)
  {
    match req {
      case Activate(k, device, name, offline) => ActivateHolders(s, now, k, device, name, offline, key);
      case Validate(k, device) => ValidateHolders(s, now, k, device, key);
      case Deactivate(k, device) => DeactivateHolders(s, now, k, device, key);
      case Revoke(id) =>
      case Create(_, _, _, _, _, _) =>
    }
  }

  /** The license exists, has not been revoked and has not expired. */
  ghost predicate OpenAt(s: Server, now: Time, key: string) {
    key in s.licenses && s.licenses[key].revokedAt.None? && (s.licenses[key].expiresAt.Some? ==> now <= s.licenses[key].expiresAt.value)
  }

  /** The refusal for a license that is not open: what it is instead. */
  ghost predicate Closed(s: Server, now: Time, key: string, reply: Reply) {
    if key !in s.licenses then reply == NotFound
    else reply == NotActive(if s.licenses[key].revokedAt.Some? then Revoked else Expired)
  }

  /** The reply to an activation, in terms of who holds the seats: a refusal for want of a seat
      means that maxDevices other devices hold one. */
  lemma ActivateReply(s: Server, now: Time, key: string, device: string, name: string, offline: bool)
    requires Inv(s)
    ensures var reply := DoActivate(s, now, key, device, name, offline).1;
      && (!OpenAt(s, now, key) ==> Closed(s, now, key, reply))
      && (OpenAt(s, now, key) ==> reply.Granted? || reply == DeviceLimit)
      && (reply == DeviceLimit <==>
            OpenAt(s, now, key) && device !in HoldersOf(s, key) && |HoldersOf(s, key) - {device}| >= s.licenses[key].maxDevices)
      && (reply.Granted? <==> OpenAt(s, now, key) && (device in HoldersOf(s, key) || |HoldersOf(s, key)| < s.licenses[key].maxDevices))
  {
    if key in s.licenses && device !in HoldersOf(s, key) {
      assert HoldersOf(s, key) - {device} == HoldersOf(s, key);
    }
  }

  /** The reply to a validation: granted exactly to a device that holds a seat of an open license, and
      not found for any other device of one; a refusal changes nothing. */
  lemma ValidateReply(s: Server, now: Time, key: string, device: string)
    ensures var (s', reply) := DoValidate(s, now, key, device);
      && (!OpenAt(s, now, key) ==> Closed(s, now, key, reply))
      && (reply.Granted? <==> OpenAt(s, now, key) && device in HoldersOf(s, key))
      && (OpenAt(s, now, key) && device !in HoldersOf(s, key) ==> reply == NotFound)
      && (!reply.Granted? ==> s' == s)
  {
  }

  /** The reply to a release: done exactly for a device that holds a seat, whatever the license's
      status, and else not found. */
  lemma DeactivateReply(s: Server, now: Time, key: string, device: string)
    ensures var (s', reply) := DoDeactivate(s, now, key, device);
      && reply == (if device in HoldersOf(s, key) then Done else NotFound)
      && (reply == NotFound ==> s' == s)
  {
  }

  /** A revocation is done exactly if the id is that of a license not yet revoked; then that license
      and no other carries the instant. */
  lemma RevokeReply(s: Server, now: Time, id: string)
    requires Inv(s)
    ensures var (s', reply) := DoRevoke(s, now, id);
      && reply == (if exists k :: k in s.licenses && s.licenses[k].id == id && s.licenses[k].revokedAt.None? then Done else NotFound)
      && s'.devices == s.devices && s'.events == s.events && s'.licenses.Keys == s.licenses.Keys
      && forall k :: k in s.licenses ==>
           s'.licenses[k] == if s.licenses[k].id == id && s.licenses[k].revokedAt.None? then s.licenses[k].(revokedAt := Some(now)) else s.licenses[k]
  {
  }

  /** A license is stored as asked for, open and without devices, or a conflict is named and nothing
      changes: the key's before the id's. */
  lemma CreateReply(s: Server, now: Time, id: string, key: string, product: string, customer: string,
                    maxDevices: int, expiresAt: Option<Time>)
    ensures var (s', reply) := Serve(s, now, Create(id, key, product, customer, maxDevices, expiresAt));
      && reply == (if key in s.licenses then KeyExists
                   else if exists k :: k in s.licenses && s.licenses[k].id == id then IdExists else Done)
      && (reply != Done ==> s' == s)
      && (reply == Done ==>
            && s'.devices == s.devices && s'.events == s.events && (Inv(s) ==> HoldersOf(s', key) == {})
            && s'.licenses.Keys == s.licenses.Keys + {key} && (forall k :: k in s.licenses ==> s'.licenses[k] == s.licenses[k])
            && var l := s'.licenses[key];
            && l.id == id && l.key == key && l.product == product && l.customer == customer && l.maxDevices == maxDevices
            && l.expiresAt == expiresAt && l.revokedAt.None? && l.createdAt == now)
  {
    if Inv(s) && !LicenseStore.HasId(s.licenses, id) {
      forall k | k in s.devices.rows ensures k.0 != id {
        assert LicenseStore.HasId(s.licenses, k.0);
      }
    }
  }

  /** What a token says holds of the server that granted it. */
  ghost predicate Truthful(t: Token, s: Server, now: Time, key: string, device: string) {
    && key in s.licenses
    && var l := s.licenses[key];
    && l.Status(now) == Active && device in HoldersOf(s, key)
    && t.licenseKey == key && t.deviceId == device && t.product == l.product && t.customer == l.customer
    && t.status == Active && t.issuedAt == now && t.licenseExp == l.expiresAt
    && t.seatsMax == l.maxDevices && t.seatsUsed == |HoldersOf(s, key)| >= 1
    && t.validUntil == (if l.expiresAt.Some? then Min(l.expiresAt.value, now + Horizon(t.offline)) else now + Horizon(t.offline))
  }

  lemma SignIsTruthful(s: Server, key: string, device: string, now: Time, offline: bool)
    requires LicenseStore.WellFormed(s.licenses) && key in s.licenses
    requires s.licenses[key].Status(now) == Active && device in HoldersOf(s, key)
    ensures Truthful(Sign(s.licenses[key], device, |HoldersOf(s, key)|, now, offline), s, now, key, device)
  {
    NonEmpty(HoldersOf(s, key), device);
  }

  lemma ActivateSigns(s: Server, now: Time, key: string, device: string, name: string, offline: bool)
    requires DoActivate(s, now, key, device, name, offline).1.Granted?
    ensures var (s', reply) := DoActivate(s, now, key, device, name, offline);
      key in s.licenses && s.licenses[key].Status(now) == Active && s'.licenses == s.licenses
      && reply.token == Sign(s.licenses[key], device, |HoldersOf(s', key)|, now, offline)
  {
  }

  lemma ActivateGrants(s: Server, now: Time, key: string, device: string, name: string, offline: bool)
    requires Inv(s) && DoActivate(s, now, key, device, name, offline).1.Granted?
    ensures device in HoldersOf(DoActivate(s, now, key, device, name, offline).0, key)
  {
    ActivateSigns(s, now, key, device, name, offline);
    ActivateHolders(s, now, key, device, name, offline, key);
  }

  lemma ValidateGrants(s: Server, now: Time, key: string, device: string)
    requires Inv(s) && DoValidate(s, now, key, device).1.Granted?
    ensures var (s', reply) := DoValidate(s, now, key, device);
      s'.licenses == s.licenses && device in HoldersOf(s', key)
      && reply.token == Sign(s.licenses[key], device, |HoldersOf(s', key)|, now, false)
  {
    ValidateHolders(s, now, key, device, key);
  }

  /** A token is granted only to an activation or validation of an active license whose device
      then holds a seat, and it tells the truth about that license. */
  lemma GrantedToken(s: Server, now: Time, req: Request)
    requires Inv(s) && Serve(s, now, req).1.Granted?
    ensures req.Activate? || req.Validate?
    ensures Serve(s, now, req).0.licenses == s.licenses
    ensures Truthful(Serve(s, now, req).1.token, Serve(s, now, req).0, now, req.key, req.device)
    ensures Serve(s, now, req).1.token.offline == (req.Activate? && req.offline)
  {
    match req {
      case Activate(key, device, name, offline) =>
        ActivateSigns(s, now, key, device, name, offline);
        ActivateGrants(s, now, key, device, name, offline);
        SignIsTruthful(DoActivate(s, now, key, device, name, offline).0, key, device, now, offline);
      case Validate(key, device) =>
        ValidateGrants(s, now, key, device);
        SignIsTruthful(DoValidate(s, now, key, device).0, key, device, now, false);
    }
  }

  lemma NonEmpty<T>(s: set<T>, x: T)
    requires x in s
    ensures |s| >= 1
  {
    assert s == {x} + (s - {x});
  }

  /** The devices table after the one statement a reply implies: a grant touches a holder and inserts
      or revives any other device, a release frees its device, and nothing else writes. */
  function TableAfter(s: Server, now: Time, req: Request, reply: Reply): Table {
    if (req.Activate? || req.Validate?) && reply.Granted? && req.key in s.licenses then
      var id := s.licenses[req.key].id;
      if req.device in Holders(s.devices, id) then Touch(s.devices, (id, req.device), now)
      else Upsert(s.devices, id, req.device, if req.Activate? then req.name else "", now)
    else if req.Deactivate? && reply.Done? && req.key in s.licenses then
      Free(s.devices, s.licenses[req.key].id, req.device, now)
    else s.devices
  }

  lemma ServeStatement(s: Server, now: Time, req: Request)
    ensures Serve(s, now, req).0.devices == TableAfter(s, now, req, Serve(s, now, req).1)
  {
  }

  // ---- runs ---------------------------------------------------------------------------------

  datatype Step = Step(now: Time, req: Request)

  type Run = seq<Step>

  /** The server after the first n requests of a run. */
  function After(s: Server, run: Run, n: nat): Server
    requires n <= |run|
  {
    if n == 0 then s else Serve(After(s, run, n - 1), run[n - 1].now, run[n - 1].req).0
  }

  function ReplyAt(s: Server, run: Run, i: nat): Reply
    requires i < |run|
  {
    Serve(After(s, run, i), run[i].now, run[i].req).1
  }

  /** The clock never runs backwards. */
  ghost predicate Ordered(run: Run) {
    forall i, j :: 0 <= i < j < |run| ==> run[i].now <= run[j].now
  }

  /** Request i of the run was answered with this token. */
  predicate Issued(s: Server, run: Run, i: nat, token: Token)
    requires i < |run|
  {
    ReplyAt(s, run, i) == Granted(token)
  }

  lemma {:induction false} AfterKeepsInv(s: Server, run: Run, n: nat)
    requires Inv(s) && n <= |run|
    ensures Inv(After(s, run, n))
  {
    hide Serve;
    if n > 0 {
      AfterKeepsInv(s, run, n - 1);
      ServeKeepsInv(After(s, run, n - 1), run[n - 1].now, run[n - 1].req);
    }
  }

  lemma EmptyInv()
    ensures Inv(EMPTY_SERVER)
  {
  }

  /** From any point of a run on, a stored license keeps its terms, and keeps its revocation. */
  lemma {:induction false} AfterKeepsTerms(s: Server, run: Run, m: nat, n: nat, key: string)
    requires m <= n <= |run| && key in After(s, run, m).licenses
    ensures key in After(s, run, n).licenses
    ensures After(s, run, m).licenses[key].SameTerms(After(s, run, n).licenses[key])
    ensures After(s, run, m).licenses[key].revokedAt.Some? ==> After(s, run, n).licenses[key] == After(s, run, m).licenses[key]
    decreases n
  {
    hide Serve;
    if m < n {
      AfterKeepsTerms(s, run, m, n - 1, key);
      ServeKeepsTerms(After(s, run, n - 1), run[n - 1].now, run[n - 1].req, key);
    }
  }

  /** A run only depends on the requests it has seen. */
  lemma {:induction false} SamePrefix(s: Server, a: Run, b: Run, n: nat)
    requires n <= |a| && n <= |b| && a[..n] == b[..n]
    ensures After(s, a, n) == After(s, b, n)
  {
    if n > 0 {
      assert a[n - 1] == a[..n][n - 1] == b[..n][n - 1] == b[n - 1];
      assert a[..n - 1] == a[..n][..n - 1] == b[..n][..n - 1] == b[..n - 1];
      SamePrefix(s, a, b, n - 1);
    }
  }
}
