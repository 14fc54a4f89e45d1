/** The dashboard's single admin account and its sessions (web/auth.go, store/admin.go). The check of
    the setup form and the insert it allows are separate steps, so several setups may overlap. */
module Sessions {
  import opened Common
  import opened Models

  const SESSION_TTL: Time := 30 * DAY
  const MIN_PASSWORD: nat := 8

  /** A form value as received; a Go string is its bytes, and so is its length. */
  type Password = seq<byte>

  datatype Admin = Admin(id: nat, hash: string)

  datatype Auth = Auth(admins: seq<Admin>, nextId: nat, sessions: map<string, Time>)

  const FIRST_ID: nat := 1

  const EMPTY_AUTH := Auth([], FIRST_ID, map[])

  /** Rows are inserted with growing ids and never removed. */
  ghost predicate Valid(a: Auth) {
    && (if a.admins == [] then a.nextId == FIRST_ID else a.admins[0].id == FIRST_ID)
    && (forall i, j :: 0 <= i < j < |a.admins| ==> a.admins[i].id < a.admins[j].id)
    && (forall i :: 0 <= i < |a.admins| ==> a.admins[i].id < a.nextId)
  }

  function CreateAdmin(a: Auth, hash: string): Auth {
    a.(admins := a.admins + [Admin(a.nextId, hash)], nextId := a.nextId + 1)
  }

  /** ORDER BY id LIMIT 1. */
  function Lowest(rows: seq<Admin>): (r: Admin)
    requires rows != []
    ensures r in rows && forall x :: x in rows ==> r.id <= x.id
  {
    if |rows| == 1 then rows[0]
    else
      var r := Lowest(rows[1..]);
      if rows[0].id <= r.id then rows[0] else r
  }

  /** UPDATE admins SET password_hash WHERE id is the lowest. */
  function SetHash(rows: seq<Admin>, id: nat, hash: string): (r: seq<Admin>)
    ensures |r| == |rows|
  {
    seq(|rows|, i requires 0 <= i < |rows| => if rows[i].id == id then rows[i].(hash := hash) else rows[i])
  }

  function SetAdminPassword(a: Auth, hash: string): Auth {
    if a.admins == [] then a else a.(admins := SetHash(a.admins, Lowest(a.admins).id, hash))
  }

  /** The token is the primary key, so a second insert of it fails. */
  function CreateSession(a: Auth, token: string, expiresAt: Time): Auth {
    if token in a.sessions then a else a.(sessions := a.sessions[token := expiresAt])
  }

  function DeleteSession(a: Auth, token: string): Auth {
    a.(sessions := a.sessions - {token})
  }

  predicate ValidSession(a: Auth, token: string, now: Time) {
    token in a.sessions && now < a.sessions[token]
  }

  /** What requireAuth lets through. */
  predicate Authorized(a: Auth, cookie: Option<string>, now: Time) {
    a.admins != [] && cookie.Some? && ValidSession(a, cookie.value, now)
  }

  // ---- the handlers -------------------------------------------------------------------------

  /** A new password, its confirmation, and what hashing it gives. */
  datatype Form = Form(password: Password, confirm: Password, hashed: Option<string>)

  /** The hash a password form stores, if it stores one. */
  function NewHash(form: Form): Option<string> {
    if form.password == form.confirm && |form.password| >= MIN_PASSWORD then form.hashed else None
  }

  /** The two entries agree and have at least eight bytes, and hashing gives h. */
  ghost predicate Asks(form: Form, h: string) {
    form.password == form.confirm && |form.password| >= 8 && form.hashed == Some(h)
  }

  /** The rest of a setup whose check found no admin. */
  function FinishSetup(a: Auth, now: Time, hash: Option<string>, token: string): Auth {
    if hash.None? then a
    else CreateSession(CreateAdmin(a, hash.value), token, now + SESSION_TTL)
  }

  function Login(check: (string, Password) -> bool, a: Auth, now: Time, password: Password, token: string): Auth {
    if a.admins == [] || !check(Lowest(a.admins).hash, password) then a
    else CreateSession(a, token, now + SESSION_TTL)
  }

  predicate MayChange(check: (string, Password) -> bool, a: Auth, now: Time, cookie: Option<string>,
                      current: Password, hash: Option<string>)
  {
    Authorized(a, cookie, now) && check(Lowest(a.admins).hash, current) && hash.Some?
  }

  class AuthServer {
    const check: (string, Password) -> bool
    var admins: seq<Admin>
    var nextId: nat
    var sessions: map<string, Time>

    ghost function State(): Auth reads this {
      Auth(admins, nextId, sessions)
    }

    constructor (check: (string, Password) -> bool)
      ensures State() == EMPTY_AUTH && this.check == check
    {
      this.check := check;
      admins, nextId, sessions := [], FIRST_ID, map[];
    }

    method HasAdmin() returns (r: bool)
      ensures r == (State().admins != [])
    {
      r := |admins| > 0;
    }

    /** The scan for the row with the lowest id. */
    method AdminRow() returns (r: Option<Admin>)
      ensures r == if State().admins == [] then None else Some(Lowest(State().admins))
    {
      if |admins| == 0 {
        return None;
      }
      var i := |admins| - 1;
      var best := admins[i];
      while i > 0
        invariant 0 <= i < |admins|
        invariant best == Lowest(admins[i..])
      {
        i := i - 1;
        assert admins[i..][1..] == admins[i + 1..];
        if admins[i].id <= best.id {
          best := admins[i];
        }
      }
      assert admins[0..] == admins;
      r := Some(best);
    }

    method SetPassword(hash: string)
      modifies this
      ensures State() == SetAdminPassword(old(State()), hash)
    {
      var row := AdminRow();
      if row.None? {
        return;
      }
      ghost var before := admins;
      for i := 0 to |admins|
        invariant nextId == old(nextId) && sessions == old(sessions) && |admins| == |before|
        invariant forall j :: 0 <= j < |admins| ==>
          admins[j] == if j < i && before[j].id == row.value.id then before[j].(hash := hash) else before[j]
      {
        if admins[i].id == row.value.id {
          admins := admins[i := admins[i].(hash := hash)];
        }
      }
      assert admins == SetHash(before, row.value.id, hash);
    }

    method StartSession(token: string, now: Time) returns (ok: bool)
      modifies this
      ensures State() == CreateSession(old(State()), token, now + SESSION_TTL)
      ensures ok == (token !in old(sessions))
      ensures sessions == if ok then old(sessions)[token := now + 30 * DAY] else old(sessions)
    {
      ok := token !in sessions;
      if ok {
        sessions := sessions[token := now + SESSION_TTL];
      }
    }

    method EndSession(cookie: Option<string>)
      modifies this
      ensures State() == if cookie.Some? then DeleteSession(old(State()), cookie.value) else old(State())
    {
      if cookie.Some? {
        sessions := sessions - {cookie.value};
      }
    }

    method RequireAuth(cookie: Option<string>, now: Time) returns (ok: bool)
      ensures ok == Authorized(State(), cookie, now)
    {
      var has := HasAdmin();
      if !has || cookie.None? {
        return false;
      }
      ok := cookie.value in sessions && now < sessions[cookie.value];
    }

    method HandleSetup(form: Form, token: string, now: Time) returns (ok: bool)
      modifies this
      ensures State() == if old(State()).admins != [] then old(State()) else FinishSetup(old(State()), now, NewHash(form), token)
      ensures ok <==> old(admins) == [] && (exists h :: Asks(form, h)) && token !in old(sessions)
      ensures admins == old(admins) || exists h :: Asks(form, h) && admins == [Admin(old(nextId), h)] && old(admins) == []
      ensures sessions == if ok then old(sessions)[token := now + 30 * DAY] else old(sessions)
    {
      var has := HasAdmin();
      if has || form.password != form.confirm || |form.password| < MIN_PASSWORD || form.hashed.None? {
        return false;
      }
      assert Asks(form, form.hashed.value);
      admins := admins + [Admin(nextId, form.hashed.value)];
      nextId := nextId + 1;
      ok := StartSession(token, now);
    }

    method HandleLogin(password: Password, token: string, now: Time) returns (ok: bool)
      modifies this
      ensures State() == Login(check, old(State()), now, password, token)
      ensures ok <==> old(admins) != [] && check(Lowest(old(admins)).hash, password) && token !in old(sessions)
      ensures admins == old(admins) && sessions == if ok then old(sessions)[token := now + 30 * DAY] else old(sessions)
    {
      var row := AdminRow();
      if row.None? || !check(row.value.hash, password) {
        return false;
      }
      ok := StartSession(token, now);
    }

    /** Needs a live session, the password in force and an acceptable form. */
    method HandleChangePassword(cookie: Option<string>, current: Password, form: Form, now: Time) returns (ok: bool)
      modifies this
      ensures ok == MayChange(check, old(State()), now, cookie, current, NewHash(form))
      ensures ok <==>
        && old(admins) != [] && check(Lowest(old(admins)).hash, current) && (exists h :: Asks(form, h))
        && cookie.Some? && cookie.value in old(sessions) && now < old(sessions)[cookie.value]
      ensures State() == if ok then SetAdminPassword(old(State()), form.hashed.value) else old(State())
    {
      ok := RequireAuth(cookie, now);
      if !ok {
        return;
      }
      var row := AdminRow();
      if row.None? || !check(row.value.hash, current) || form.password != form.confirm
         || |form.password| < MIN_PASSWORD || form.hashed.None? {
        return false;
      }
      assert Asks(form, form.hashed.value);
      SetPassword(form.hashed.value);
    }
  }

  // ---- runs ---------------------------------------------------------------------------------

  datatype Move =
    | SetupSeen(tid: nat)
    | SetupDone(tid: nat, form: Form, token: string)
    | LoginMove(password: Password, token: string)
    | Logout(cookie: Option<string>)
    | ChangePassword(cookie: Option<string>, current: Password, form: Form)

  datatype Step = Step(now: Time, move: Move)

  /** waiting are the setups whose check found no admin and which have not gone on yet. */
  datatype Desk = Desk(auth: Auth, waiting: set<nat>)

  const EMPTY_DESK := Desk(EMPTY_AUTH, {})

  function Do(check: (string, Password) -> bool, d: Desk, s: Step): Desk {
    match s.move
    case SetupSeen(tid) => if d.auth.admins == [] then d.(waiting := d.waiting + {tid}) else d
    case SetupDone(tid, form, token) =>
      if tid !in d.waiting then d else Desk(FinishSetup(d.auth, s.now, NewHash(form), token), d.waiting - {tid})
    case LoginMove(password, token) => d.(auth := Login(check, d.auth, s.now, password, token))
    case Logout(cookie) => if cookie.Some? then d.(auth := DeleteSession(d.auth, cookie.value)) else d
    case ChangePassword(cookie, current, form) =>
      if MayChange(check, d.auth, s.now, cookie, current, NewHash(form))
      then d.(auth := SetAdminPassword(d.auth, form.hashed.value)) else d
  }

  function After(check: (string, Password) -> bool, run: seq<Step>, n: nat): Desk
    requires n <= |run|
  {
    if n == 0 then EMPTY_DESK else Do(check, After(check, run, n - 1), run[n - 1])
  }

  /** The session token handed out by a successful setup or login. */
  function Started(check: (string, Password) -> bool, d: Desk, s: Step): Option<string> {
    match s.move
    case SetupDone(tid, form, token) =>
      if tid in d.waiting && NewHash(form).Some? && token !in d.auth.sessions then Some(token) else None
    case LoginMove(password, token) =>
      if d.auth.admins != [] && check(Lowest(d.auth.admins).hash, password) && token !in d.auth.sessions then Some(token) else None
    case _ => None
  }

  // ---- sessions -----------------------------------------------------------------------------

  /** Step i handed out the token, and no later step among the first n logged it out. */
  ghost predicate StartedAndKept(check: (string, Password) -> bool, run: seq<Step>, n: nat, i: nat, token: string)
    requires n <= |run|
  {
    && i < n && Started(check, After(check, run, i), run[i]) == Some(token)
    && forall j :: i < j < n ==> run[j].move != Logout(Some(token))
  }

  ghost predicate Lasting(a: Auth, token: string, start: Time) {
    && a.admins != []
    && token in a.sessions && a.sessions[token] == start + SESSION_TTL
  }

  lemma StepStarts(check: (string, Password) -> bool, d: Desk, s: Step, token: string)
    requires Started(check, d, s) == Some(token)
    ensures token !in d.auth.sessions && Lasting(Do(check, d, s).auth, token, s.now)
  {
  }

  lemma StepEnds(check: (string, Password) -> bool, d: Desk, s: Step, token: string)
    requires s.move == Logout(Some(token))
    ensures token !in Do(check, d, s).auth.sessions
  {
  }

  lemma StepKeeps(check: (string, Password) -> bool, d: Desk, s: Step, token: string)
    requires Started(check, d, s) != Some(token) && s.move != Logout(Some(token))
    ensures var a, a' := d.auth, Do(check, d, s).auth;
      && (token in a'.sessions <==> token in a.sessions)
      && (token in a.sessions ==> a'.sessions[token] == a.sessions[token])
      && (a.admins != [] ==> a'.admins != [])
  {
    hide Lowest;
  }

  /** A token is in the table exactly when some step handed it out and none logged it out since,
      and then it expires thirty days after that step. */
  ghost predicate TableAgrees(check: (string, Password) -> bool, run: seq<Step>, n: nat, token: string)
    requires n <= |run|
  {
    var a := After(check, run, n).auth;
    && (token in a.sessions ==> exists i: nat :: StartedAndKept(check, run, n, i, token))
    && (forall i: nat :: StartedAndKept(check, run, n, i, token) ==> Lasting(a, token, run[i].now))
  }

  lemma {:induction false} SessionTable(check: (string, Password) -> bool, run: seq<Step>, n: nat, token: string)
    requires n <= |run|
    ensures TableAgrees(check, run, n, token)
  {
    hide TableAgrees;
    if n == 0 {
      EmptyTable(check, run, token);
    } else {
      SessionTable(check, run, n - 1, token);
      ExtendTable(check, run, n - 1, token);
    }
  }

  lemma EmptyTable(check: (string, Password) -> bool, run: seq<Step>, token: string)
    ensures TableAgrees(check, run, 0, token)
  {
    hide Started;
  }

  lemma KeptLonger(check: (string, Password) -> bool, run: seq<Step>, n: nat, i: nat, token: string)
    requires n < |run|
    ensures StartedAndKept(check, run, n + 1, i, token) <==>
      if i == n then Started(check, After(check, run, n), run[n]) == Some(token)
      else StartedAndKept(check, run, n, i, token) && run[n].move != Logout(Some(token))
    ensures StartedAndKept(check, run, n + 1, i, token) || StartedAndKept(check, run, n, i, token) ==> i <= n
    ensures StartedAndKept(check, run, n, i, token) ==> i < n
  {
    hide After, Started;
  }

  lemma ExtendTable(check: (string, Password) -> bool, run: seq<Step>, n: nat, token: string)
    requires n < |run| && TableAgrees(check, run, n, token)
    ensures TableAgrees(check, run, n + 1, token)
  {
    hide Do, Started, StartedAndKept;
    var d, s, a' := After(check, run, n), run[n], After(check, run, n + 1).auth;
    if Started(check, d, s) == Some(token) {
      StepStarts(check, d, s, token);
    } else if s.move == Logout(Some(token)) {
      StepEnds(check, d, s, token);
    } else {
      StepKeeps(check, d, s, token);
    }
    forall i: nat | StartedAndKept(check, run, n + 1, i, token) ensures i <= n && Lasting(a', token, run[i].now) {
      KeptLonger(check, run, n, i, token);
    }
    if token in a'.sessions {
      var i: nat := if Started(check, d, s) == Some(token) then n else
        var k: nat :| StartedAndKept(check, run, n, k, token); k;
      KeptLonger(check, run, n, i, token);
      assert StartedAndKept(check, run, n + 1, i, token);
    }
  }

  /** A request is let through at T exactly when a setup or login handed out its token less than
      thirty days before T and nobody has logged it out since. */
  lemma LetThrough(check: (string, Password) -> bool, run: seq<Step>, n: nat, token: string, T: Time)
    requires n <= |run|
    ensures Authorized(After(check, run, n).auth, Some(token), T) <==>
      exists i: nat :: StartedAndKept(check, run, n, i, token) && T < run[i].now + 30 * DAY
  {
    hide After, StartedAndKept;
    SessionTable(check, run, n, token);
  }

  // ---- the admin row ------------------------------------------------------------------------

  lemma {:induction false} LowestIsFirst(rows: seq<Admin>)
    requires rows != [] && forall i, j :: 0 <= i < j < |rows| ==> rows[i].id < rows[j].id
    ensures Lowest(rows) == rows[0]
  {
    if |rows| > 1 {
      LowestIsFirst(rows[1..]);
    }
  }

  /** The hash login compares against after the step. */
  function HashAfter(check: (string, Password) -> bool, d: Desk, s: Step, hash: Option<string>): Option<string> {
    match s.move
    case SetupDone(tid, form, _) => if hash.None? && tid in d.waiting then NewHash(form) else hash
    case ChangePassword(cookie, current, form) =>
      if MayChange(check, d.auth, s.now, cookie, current, NewHash(form)) then form.hashed else hash
    case _ => hash
  }

  /** The hash the first completed setup stored, until an authorized change replaces it. */
  function InForce(check: (string, Password) -> bool, run: seq<Step>, n: nat): Option<string>
    requires n <= |run|
  {
    if n == 0 then None
    else HashAfter(check, After(check, run, n - 1), run[n - 1], InForce(check, run, n - 1))
  }

  function FirstHash(a: Auth): Option<string> {
    if a.admins == [] then None else Some(a.admins[0].hash)
  }

  lemma SetupKeeps(a: Auth, now: Time, hash: Option<string>, token: string)
    requires Valid(a)
    ensures var a' := FinishSetup(a, now, hash, token);
      Valid(a') && FirstHash(a') == if FirstHash(a).None? then hash else FirstHash(a)
  {
  }

  lemma SetPasswordKeeps(a: Auth, hash: string)
    requires Valid(a) && a.admins != []
    ensures var a' := SetAdminPassword(a, hash); Valid(a') && FirstHash(a') == Some(hash)
  {
    LowestIsFirst(a.admins);
  }

  lemma DoKeepsValid(check: (string, Password) -> bool, d: Desk, s: Step)
    requires Valid(d.auth)
    ensures Valid(Do(check, d, s).auth)
    ensures FirstHash(Do(check, d, s).auth) == HashAfter(check, d, s, FirstHash(d.auth))
  {
    hide FinishSetup, SetAdminPassword, Lowest;
    match s.move
    case SetupDone(tid, form, token) => SetupKeeps(d.auth, s.now, NewHash(form), token);
    case ChangePassword(cookie, current, form) =>
      if MayChange(check, d.auth, s.now, cookie, current, NewHash(form)) {
        SetPasswordKeeps(d.auth, form.hashed.value);
      }
    case _ =>
  }

  /** However many setups overlap, login and password change use one and the same row for the whole
      run, the first one inserted, and its hash is the one in force. */
  lemma {:induction false} OneAdminRow(check: (string, Password) -> bool, run: seq<Step>, n: nat)
    requires n <= |run|
    ensures Valid(After(check, run, n).auth)
    ensures var rows := After(check, run, n).auth.admins;
      InForce(check, run, n) == if rows == [] then None else Some(Lowest(rows).hash)
    ensures var rows := After(check, run, n).auth.admins;
      rows != [] ==> Lowest(rows) == rows[0] && rows[0].id == FIRST_ID
  {
    hide Do, HashAfter;
    if n > 0 {
      OneAdminRow(check, run, n - 1);
      DoKeepsValid(check, After(check, run, n - 1), run[n - 1]);
    }
    var rows := After(check, run, n).auth.admins;
    if n > 0 && After(check, run, n - 1).auth.admins != [] {
      LowestIsFirst(After(check, run, n - 1).auth.admins);
    }
    if rows != [] {
      LowestIsFirst(rows);
    }
  }

  /** Two setups that both pass the check before either inserts leave two rows and two good sessions,
      and login then takes exactly the passwords that match the first one's hash: the second visitor
      cannot log in with the password just chosen unless it matches that hash as well. */
  lemma SecondSetupIsShadowed(check: (string, Password) -> bool, now: Time, one: Form, two: Form, first: string, second: string,
                              t1: string, t2: string, password: Password, t3: string)
    requires t1 != t2 && t3 !in {t1, t2} && Asks(one, first) && Asks(two, second)
    ensures var run := [Step(now, SetupSeen(0)), Step(now, SetupSeen(1)),
                        Step(now, SetupDone(0, one, t1)), Step(now, SetupDone(1, two, t2)),
                        Step(now, LoginMove(password, t3))];
      var a := After(check, run, 4).auth;
      && a.admins == [Admin(FIRST_ID, first), Admin(FIRST_ID + 1, second)]
      && Authorized(a, Some(t1), now) && Authorized(a, Some(t2), now)
      && (Started(check, After(check, run, 4), run[4]) == Some(t3) <==> check(first, password))
      && (!check(first, password) ==> After(check, run, 5) == After(check, run, 4))
  {
    hide Lowest;
    var run := [Step(now, SetupSeen(0)), Step(now, SetupSeen(1)),
                Step(now, SetupDone(0, one, t1)), Step(now, SetupDone(1, two, t2)),
                Step(now, LoginMove(password, t3))];
    assert After(check, run, 0) == EMPTY_DESK;
    assert After(check, run, 1) == Desk(EMPTY_AUTH, {0});
    assert After(check, run, 2) == Desk(EMPTY_AUTH, {0, 1});
    var a1, a2 := Auth([Admin(FIRST_ID, first)], FIRST_ID + 1, map[t1 := now + SESSION_TTL]),
                  Auth([Admin(FIRST_ID, first), Admin(FIRST_ID + 1, second)], FIRST_ID + 2, map[t1 := now + SESSION_TTL, t2 := now + SESSION_TTL]);
    assert After(check, run, 3) == Desk(a1, {1});
    assert After(check, run, 4) == Desk(a2, {});
    LowestIsFirst(a2.admins);
    hide After;
    assert Do(check, Desk(a2, {}), run[4]) == Desk(Login(check, a2, now, password, t3), {});
    LastStep(check, run, 5);
  }

  lemma LastStep(check: (string, Password) -> bool, run: seq<Step>, n: nat)
    requires 0 < n <= |run|
    ensures After(check, run, n) == Do(check, After(check, run, n - 1), run[n - 1])
  {
  }

  // ---- what it takes ------------------------------------------------------------------------

  /** A setup waits exactly if its check found no admin and it has not gone on since. */
  ghost predicate SeenAndWaiting(check: (string, Password) -> bool, run: seq<Step>, n: nat, j: nat, tid: nat)
    requires n <= |run|
  {
    && j < n && run[j].move == SetupSeen(tid) && After(check, run, j).auth.admins == []
    && forall m :: j < m < n && run[m].move.SetupDone? ==> run[m].move.tid != tid
  }

  lemma {:induction false} WaitingMeans(check: (string, Password) -> bool, run: seq<Step>, n: nat, tid: nat)
    requires n <= |run|
    ensures tid in After(check, run, n).waiting <==> exists j: nat :: SeenAndWaiting(check, run, n, j, tid)
  {
    hide FinishSetup, Login, MayChange, SetAdminPassword;
    if n > 0 {
      WaitingMeans(check, run, n - 1, tid);
      var before, s := After(check, run, n - 1), run[n - 1];
      assert After(check, run, n) == Do(check, before, s);
      hide After;
      if tid in Do(check, before, s).waiting {
        var j: nat := if tid in before.waiting then
          var k: nat :| SeenAndWaiting(check, run, n - 1, k, tid); k else n - 1;
        assert SeenAndWaiting(check, run, n, j, tid);
      }
      if j: nat :| SeenAndWaiting(check, run, n, j, tid) {
        if j < n - 1 { assert SeenAndWaiting(check, run, n - 1, j, tid); }
      }
    }
  }

  /** A token is handed out exactly by a login with a password that matches the row in use, or by a
      waiting setup with an acceptable form, and only if it is new. */
  lemma HandedOut(check: (string, Password) -> bool, d: Desk, s: Step, token: string)
    ensures Started(check, d, s) == Some(token) <==>
      && token !in d.auth.sessions
      && ((s.move.LoginMove? && s.move.token == token && d.auth.admins != [] && check(Lowest(d.auth.admins).hash, s.move.password))
          || (s.move.SetupDone? && s.move.token == token && s.move.tid in d.waiting && exists h :: Asks(s.move.form, h)))
  {
    if s.move.SetupDone? && NewHash(s.move.form).Some? { assert Asks(s.move.form, NewHash(s.move.form).value); }
  }

  /** The account comes into being exactly with a waiting setup whose form is acceptable. */
  lemma FirstAdmin(check: (string, Password) -> bool, run: seq<Step>, n: nat)
    requires n < |run| && After(check, run, n).auth.admins == []
    ensures forall h :: After(check, run, n + 1).auth.admins == [Admin(FIRST_ID, h)] <==>
      run[n].move.SetupDone? && run[n].move.tid in After(check, run, n).waiting && Asks(run[n].move.form, h)
    ensures After(check, run, n + 1).auth.admins == [] || exists h :: After(check, run, n + 1).auth.admins == [Admin(FIRST_ID, h)]
  {
    var d, s := After(check, run, n), run[n];
    OneAdminRow(check, run, n);
    var d' := Do(check, d, s);
    assert After(check, run, n + 1) == d';
    hide After;
    if d'.auth.admins != [] { assert d'.auth.admins == [Admin(FIRST_ID, NewHash(s.move.form).value)]; }
  }

  /** Step n changes the password to one with hash h: its form asks for h, the current password
      matches the row in use, and its session was started less than thirty days ago and kept. */
  ghost predicate ChangesTo(check: (string, Password) -> bool, run: seq<Step>, n: nat, h: string)
    requires n < |run| && After(check, run, n).auth.admins != []
  {
    var move := run[n].move;
    && move.ChangePassword? && Asks(move.form, h)
    && check(Lowest(After(check, run, n).auth.admins).hash, move.current)
    && move.cookie.Some?
    && exists i: nat :: StartedAndKept(check, run, n, i, move.cookie.value) && run[n].now < run[i].now + 30 * DAY
  }

  /** Once there is an admin, the hash that login compares against becomes h exactly in such a step, and
      no other step changes it; and no step touches the other rows that overlapping setups left. */
  lemma HashChanges(check: (string, Password) -> bool, run: seq<Step>, n: nat)
    requires n < |run| && After(check, run, n).auth.admins != []
    ensures After(check, run, n + 1).auth.admins != []
    ensures forall h :: ChangesTo(check, run, n, h) ==> Lowest(After(check, run, n + 1).auth.admins).hash == h
    ensures Lowest(After(check, run, n + 1).auth.admins).hash != Lowest(After(check, run, n).auth.admins).hash ==>
      ChangesTo(check, run, n, Lowest(After(check, run, n + 1).auth.admins).hash)
    ensures var rows, rows' := After(check, run, n).auth.admins, After(check, run, n + 1).auth.admins;
      |rows| <= |rows'| && rows'[1..|rows|] == rows[1..]
  {
    var d, s := After(check, run, n), run[n];
    OneAdminRow(check, run, n);
    OneAdminRow(check, run, n + 1);
    OtherRows(check, d, s);
    if s.move.ChangePassword? && s.move.cookie.Some? { LetThrough(check, run, n, s.move.cookie.value, s.now); }
    hide After, StartedAndKept, Lowest;
    StepHash(check, d, s);
  }

  lemma OtherRows(check: (string, Password) -> bool, d: Desk, s: Step)
    requires Valid(d.auth) && d.auth.admins != []
    ensures var rows, rows' := d.auth.admins, Do(check, d, s).auth.admins;
      |rows| <= |rows'| && rows'[1..|rows|] == rows[1..]
  {
    hide Lowest, SetHash, Login;
    LowestIsFirst(d.auth.admins);
    var rows := d.auth.admins;
    match s.move
    case LoginMove(password, token) => LoginRows(check, d.auth, s.now, password, token);
    case ChangePassword(_, _, form) =>
      if form.hashed.Some? { FirstOnly(rows, form.hashed.value); }
    case _ =>
  }

  lemma LoginRows(check: (string, Password) -> bool, a: Auth, now: Time, password: Password, token: string)
    ensures Login(check, a, now, password, token).admins == a.admins
  {
  }

  lemma FirstOnly(rows: seq<Admin>, hash: string)
    requires rows != [] && forall i, j :: 0 <= i < j < |rows| ==> rows[i].id < rows[j].id
    ensures SetHash(rows, rows[0].id, hash)[1..] == rows[1..]
  {
  }

  /** What one step does to the first hash. */
  lemma StepHash(check: (string, Password) -> bool, d: Desk, s: Step)
    requires Valid(d.auth) && d.auth.admins != []
    ensures Do(check, d, s).auth.admins != []
    ensures FirstHash(Do(check, d, s).auth) ==
      if s.move.ChangePassword? && Authorized(d.auth, s.move.cookie, s.now) && check(Lowest(d.auth.admins).hash, s.move.current)
         && s.move.form.password == s.move.form.confirm && |s.move.form.password| >= 8 && s.move.form.hashed.Some?
      then s.move.form.hashed else FirstHash(d.auth)
  {
    DoKeepsValid(check, d, s);
    hide Do, Lowest;
  }

  // ---- how many admin rows ------------------------------------------------------------------

  /** Admin rows, together with the setups that may still add one. */
  function RowsToCome(d: Desk): nat {
    if d.auth.admins == [] then 0 else |d.auth.admins| + |d.waiting|
  }

  lemma SetupRows(a: Auth, now: Time, hash: Option<string>, token: string)
    ensures |FinishSetup(a, now, hash, token).admins| == |a.admins| + if hash.Some? then 1 else 0
  {
  }

  lemma Without(s: set<nat>, x: nat)
    requires x in s
    ensures |s - {x}| == |s| - 1
  {
    assert s == (s - {x}) + {x};
  }

  lemma DoRows(check: (string, Password) -> bool, d: Desk, s: Step, atOnce: nat)
    requires RowsToCome(d) <= atOnce && |d.waiting| <= atOnce
    ensures RowsToCome(Do(check, d, s)) <= atOnce
  {
    hide FinishSetup, Lowest;
    match s.move
    case SetupDone(tid, form, token) =>
      if tid in d.waiting {
        SetupRows(d.auth, s.now, NewHash(form), token);
        Without(d.waiting, tid);
      }
    case _ =>
  }

  /** With at most atOnce setups past their check at any time there are never more than atOnce admin
      rows; so with one at a time the admin account is single. */
  lemma {:induction false} AdminRowBound(check: (string, Password) -> bool, run: seq<Step>, n: nat, atOnce: nat)
    requires n <= |run| && forall m :: 0 <= m <= n ==> |After(check, run, m).waiting| <= atOnce
    ensures |After(check, run, n).auth.admins| <= RowsToCome(After(check, run, n)) <= atOnce
  {
    hide Do;
    if n > 0 {
      AdminRowBound(check, run, n - 1, atOnce);
      assert |After(check, run, n - 1).waiting| <= atOnce;
      DoRows(check, After(check, run, n - 1), run[n - 1], atOnce);
    }
  }

  /** The setups with numbers lo to hi - 1. */
  function Setups(lo: nat, hi: nat): (r: set<nat>)
    ensures forall t :: t in r <==> lo <= t < hi
  {
    if hi <= lo then {} else Setups(lo, hi - 1) + {hi - 1}
  }

  lemma {:induction false} SetupsSize(lo: nat, hi: nat)
    requires lo <= hi
    ensures |Setups(lo, hi)| == hi - lo
  {
    if lo < hi {
      SetupsSize(lo, hi - 1);
      var rest := Setups(lo, hi - 1);
      assert Setups(lo, hi) == rest + {hi - 1};
      hide Setups;
      assert hi - 1 !in rest;
    }
  }

  /** count setups look, then the first done of them go on. */
  function Rush(count: nat, done: nat): seq<Step> {
    seq(count, i requires 0 <= i < count => Step(0, SetupSeen(i)))
      + seq(done, i requires 0 <= i < done => Step(0, SetupDone(i, Form(seq(8, _ => 0), seq(8, _ => 0), Some("hash")), "token")))
  }

  lemma {:induction false} RushDesk(check: (string, Password) -> bool, count: nat, m: nat)
    requires m <= 2 * count
    ensures var d := After(check, Rush(count, count), m);
      && |d.auth.admins| == (if m <= count then 0 else m - count)
      && d.waiting == (if m <= count then Setups(0, m) else Setups(m - count, count))
  {
    if m > 0 {
      RushDesk(check, count, m - 1);
      var s := Rush(count, count)[m - 1];
      if m <= count {
        assert s == Step(0, SetupSeen(m - 1));
      } else {
        assert s == Step(0, SetupDone(m - 1 - count, Form(seq(8, _ => 0), seq(8, _ => 0), Some("hash")), "token"));
      }
      hide Rush;
    }
  }

  lemma RushWaits(check: (string, Password) -> bool, count: nat, m: nat)
    requires m <= 2 * count
    ensures |After(check, Rush(count, count), m).waiting| <= count
  {
    RushDesk(check, count, m);
    hide After, Rush, Setups;
    if m <= count { SetupsSize(0, m); } else { SetupsSize(m - count, count); }
  }

  /** For every number of overlapping setups some run ends with that many admin rows. */
  lemma AdminRowsReached(check: (string, Password) -> bool, atOnce: nat)
    ensures var run := Rush(atOnce, atOnce);
      && (forall m :: 0 <= m <= |run| ==> |After(check, run, m).waiting| <= atOnce)
      && |After(check, run, |run|).auth.admins| == atOnce
  {
    var run := Rush(atOnce, atOnce);
    assert |run| == 2 * atOnce;
    hide After, Rush, Setups;
    forall m | 0 <= m <= |run| ensures |After(check, run, m).waiting| <= atOnce {
      RushWaits(check, atOnce, m);
    }
    RushDesk(check, atOnce, |run|);
  }
}
