/** Many clients of one server. Every client sees the others' commands as requests of somebody else, so
    what holds of one client holds of each; together their running programs respect the seat limit. */
module Fleet {
  import opened Common
  import opened Models
  import L = Licensing
  import opened SeatTheorems
  import Tokens = TokenTheorems
  import opened Crypto
  import opened Settings
  import Client
  import opened World
  import opened EndToEnd

  datatype FleetState = FleetState(server: L.Server, settings: Values, keys: Option<Keypair>, homes: seq<Client.Home>)

  /** A step of one of the clients; the operator's steps may be given to any of them. */
  datatype FleetStep = FleetStep(client: nat, step: World.Step)

  /** What one client and the server look like. */
  function View(f: FleetState, j: nat): State
    requires j < |f.homes|
  {
    State(f.server, f.settings, f.keys, f.homes[j])
  }

  function FleetAct(c: Primitives, f: FleetState, s: FleetStep): (r: FleetState)
    ensures |r.homes| == |f.homes|
  {
    if s.client >= |f.homes| then f
    else
      var w := Act(c, View(f, s.client), s.step);
      FleetState(w.server, w.settings, w.keys, f.homes[s.client := w.home])
  }

  function FleetAfter(c: Primitives, f: FleetState, run: seq<FleetStep>, n: nat): (r: FleetState)
    requires n <= |run|
    ensures |r.homes| == |f.homes|
  {
    if n == 0 then f else FleetAct(c, FleetAfter(c, f, run, n - 1), run[n - 1])
  }

  /** The request a step makes of the server, if it makes one. */
  function FleetRequest(c: Primitives, f: FleetState, s: FleetStep): Option<L.Request> {
    if s.client >= |f.homes| then None else Request(c, View(f, s.client), s.step.action)
  }

  // ---- one client's view --------------------------------------------------------------------

  /** A command that is refused for its missing arguments. */
  const IDLE := Activate("", "", "", "", false, false)

  /** The step as client j sees it. */
  function Seen(c: Primitives, f: FleetState, s: FleetStep, j: nat): World.Step {
    if s.client == j then s.step
    else if s.client >= |f.homes| then World.Step(s.step.now, IDLE)
    else match s.step.action
      case Boot(_) => s.step
      case Webhook(_, _) => s.step
      case _ =>
        World.Step(s.step.now, match FleetRequest(c, f, s) case Some(req) => Other(req) case None => IDLE)
  }

  function SeenRun(c: Primitives, f: FleetState, run: seq<FleetStep>, n: nat, j: nat): (r: seq<World.Step>)
    requires n <= |run|
    ensures |r| == n
  {
    if n == 0 then [] else SeenRun(c, f, run, n - 1, j) + [Seen(c, FleetAfter(c, f, run, n - 1), run[n - 1], j)]
  }

  lemma SeenStep(c: Primitives, f: FleetState, s: FleetStep, j: nat)
    requires j < |f.homes|
    ensures View(FleetAct(c, f, s), j) == Act(c, View(f, j), Seen(c, f, s, j))
    ensures Request(c, View(f, j), Seen(c, f, s, j).action) == FleetRequest(c, f, s)
  {
    hide L.Serve, Client.Validate, Client.Deactivate, Client.OfflineActivate;
  }

  lemma {:induction false} SeenAt(c: Primitives, f: FleetState, run: seq<FleetStep>, i: nat, n: nat, j: nat)
    requires i < n <= |run|
    ensures SeenRun(c, f, run, n, j)[i] == Seen(c, FleetAfter(c, f, run, i), run[i], j)
  {
    hide FleetAfter, Seen;
    if i < n - 1 { SeenAt(c, f, run, i, n - 1, j); }
  }

  lemma {:induction false} SamePast(c: Primitives, w: State, p: seq<World.Step>, q: seq<World.Step>, n: nat)
    requires n <= |p| && n <= |q| && p[..n] == q[..n]
    ensures After(c, w, p, n) == After(c, w, q, n)
  {
    hide Act;
    if n > 0 {
      assert p[n - 1] == p[..n][n - 1] == q[..n][n - 1] == q[n - 1];
      assert p[..n - 1] == p[..n][..n - 1] == q[..n][..n - 1] == q[..n - 1];
      SamePast(c, w, p, q, n - 1);
    }
  }

  lemma {:induction false} SeenPrefix(c: Primitives, f: FleetState, run: seq<FleetStep>, m: nat, n: nat, j: nat)
    requires m <= n <= |run|
    ensures SeenRun(c, f, run, n, j)[..m] == SeenRun(c, f, run, m, j)
  {
    hide FleetAfter, Seen;
    if m < n { SeenPrefix(c, f, run, m, n - 1, j); }
  }

  /** Each client's view of a run is a run of the world with that client in it. */
  lemma {:induction false} ViewRuns(c: Primitives, f: FleetState, run: seq<FleetStep>, n: nat, N: nat, j: nat)
    requires n <= N <= |run| && j < |f.homes|
    ensures View(FleetAfter(c, f, run, n), j) == After(c, View(f, j), SeenRun(c, f, run, N, j), n)
  {
    hide Act, FleetAct, Seen, SeenRun;
    if n > 0 {
      ViewRuns(c, f, run, n - 1, N, j);
      SeenStep(c, FleetAfter(c, f, run, n - 1), run[n - 1], j);
      SeenAt(c, f, run, n - 1, N, j);
    }
  }

  // ---- the server's view --------------------------------------------------------------------

  /** The requests that reached the server. */
  function Requests(c: Primitives, f: FleetState, run: seq<FleetStep>, n: nat): L.Run
    requires n <= |run|
  {
    if n == 0 then []
    else
      var before := Requests(c, f, run, n - 1);
      match FleetRequest(c, FleetAfter(c, f, run, n - 1), run[n - 1])
      case Some(req) => before + [L.Step(run[n - 1].step.now, req)]
      case None => before
  }

  lemma ServerStep(c: Primitives, f: FleetState, s: FleetStep)
    ensures FleetAct(c, f, s).server ==
      match FleetRequest(c, f, s) case Some(req) => L.Serve(f.server, s.step.now, req).0 case None => f.server
  {
    hide L.Serve, HomeAfter;
  }

  lemma Extended(s: L.Server, run: L.Run, step: L.Step)
    ensures L.After(s, run + [step], |run| + 1) == L.Serve(L.After(s, run, |run|), step.now, step.req).0
  {
    hide L.Serve;
    assert (run + [step])[..|run|] == run[..|run|];
    L.SamePrefix(s, run + [step], run, |run|);
  }

  /** The server's tables are those of the run of its requests. */
  lemma {:induction false} ServerRuns(c: Primitives, f: FleetState, run: seq<FleetStep>, n: nat)
    requires n <= |run|
    ensures var reqs := Requests(c, f, run, n); FleetAfter(c, f, run, n).server == L.After(f.server, reqs, |reqs|)
  {
    hide FleetAct, L.Serve, FleetRequest;
    if n > 0 {
      ServerRuns(c, f, run, n - 1);
      var g := FleetAfter(c, f, run, n - 1);
      ServerStep(c, g, run[n - 1]);
      match FleetRequest(c, g, run[n - 1])
      case Some(req) => Extended(f.server, Requests(c, f, run, n - 1), L.Step(run[n - 1].step.now, req));
      case None =>
    }
  }

  lemma {:induction false} RequestsPrefix(c: Primitives, f: FleetState, run: seq<FleetStep>, m: nat, n: nat)
    requires m <= n <= |run|
    ensures |Requests(c, f, run, m)| <= |Requests(c, f, run, n)|
    ensures Requests(c, f, run, n)[..|Requests(c, f, run, m)|] == Requests(c, f, run, m)
  {
    hide FleetAfter, FleetRequest;
    if m < n { RequestsPrefix(c, f, run, m, n - 1); }
  }

  /** The request of step i stands in the run of requests, with the same reply. */
  lemma RequestStands(c: Primitives, f: FleetState, run: seq<FleetStep>, i: nat, n: nat)
    requires i < n <= |run| && FleetRequest(c, FleetAfter(c, f, run, i), run[i]).Some?
    ensures var q, reqs := |Requests(c, f, run, i)|, Requests(c, f, run, n);
      && q < |reqs| && reqs[q] == L.Step(run[i].step.now, FleetRequest(c, FleetAfter(c, f, run, i), run[i]).value)
      && L.ReplyAt(f.server, reqs, q) == L.Serve(FleetAfter(c, f, run, i).server, run[i].step.now, reqs[q].req).1
  {
    hide FleetAfter, FleetRequest, L.Serve, L.After;
    var before, reqs := Requests(c, f, run, i), Requests(c, f, run, n);
    RequestsPrefix(c, f, run, i + 1, n);
    RequestsPrefix(c, f, run, i, n);
    assert reqs[|before|] == reqs[..|before| + 1][|before|];
    ServerRuns(c, f, run, i);
    assert before[..|before|] == reqs[..|before|];
    L.SamePrefix(f.server, reqs, before, |before|);
  }

  // ---- how many devices can run -------------------------------------------------------------

  /** The envelope a step sends, whoever takes it. */
  function FleetSent(c: Primitives, f: FleetState, s: FleetStep): Option<Envelope> {
    if s.client >= |f.homes| then None else Sent(c, View(f, s.client), s.step)
  }

  /** The step neither tampers with a cache nor brings a foreign key or a file the server did not send;
      which client's reply a file comes from does not matter. */
  ghost predicate Fair(c: Primitives, f: FleetState, run: seq<FleetStep>, k: nat)
    requires k < |run|
  {
    match run[k].step.action
    case Tamper(_) => false
    case OfflineActivate(file, pubArg) =>
      && (pubArg != "" && run[k].client < |f.homes| ==> ServersOwn(c, View(FleetAfter(c, f, run, k), run[k].client), pubArg))
      && (file.Some? ==> exists i :: 0 <= i < k && FleetSent(c, FleetAfter(c, f, run, i), run[i]) == file)
    case _ => true
  }

  lemma SeenSent(c: Primitives, f: FleetState, s: FleetStep, j: nat)
    requires j < |f.homes|
    ensures FleetSent(c, f, s).Some? ==> Sent(c, View(f, j), Seen(c, f, s, j)) == FleetSent(c, f, s)
    ensures Granted(c, View(f, j), Seen(c, f, s, j)).Some? ==>
      FleetRequest(c, f, s).Some?
      && L.Serve(f.server, s.step.now, FleetRequest(c, f, s).value).1 == L.Granted(Granted(c, View(f, j), Seen(c, f, s, j)).value)
  {
    SeenStep(c, f, s, j);
    hide L.Serve, FleetAct, Act, Sign;
  }

  /** Fair steps are genuine in every client's view. */
  lemma SeenGenuine(c: Primitives, f: FleetState, run: seq<FleetStep>, n: nat, j: nat, k: nat)
    requires k < n <= |run| && j < |f.homes| && Fair(c, f, run, k)
    ensures Genuine(c, View(f, j), SeenRun(c, f, run, n, j), k)
  {
    hide FleetAfter, Sent, SeenRun, FleetSent, ServersOwn, FleetRequest;
    var seen := SeenRun(c, f, run, n, j);
    SeenAt(c, f, run, k, n, j);
    if run[k].client == j && run[k].step.action.OfflineActivate? {
      ViewRuns(c, f, run, k, n, j);
      var file := run[k].step.action.file;
      if file.Some? {
        var i :| 0 <= i < k && FleetSent(c, FleetAfter(c, f, run, i), run[i]) == file;
        ViewRuns(c, f, run, i, n, j);
        SeenAt(c, f, run, i, n, j);
        SeenSent(c, FleetAfter(c, f, run, i), run[i], j);
        hide After, Seen;
        assert SentAt(c, View(f, j), seen, i) == file;
      }
    }
  }

  /** The program of this client starts at T on a token of the license. */
  predicate RunsOn(c: Primitives, h: Client.Home, key: string, T: Time, offlineToo: bool) {
    && h.license.Some? && Client.Run(c, h, T).Ok?
    && Client.Run(c, h, T).value.licenseKey == key && (offlineToo || !Client.Run(c, h, T).value.offline)
  }

  function CachedDevice(h: Client.Home): string {
    if h.license.Some? then h.license.value.deviceId else ""
  }

  /** The devices of the clients whose programs start. */
  function RunningOn(c: Primitives, f: FleetState, key: string, T: Time, offlineToo: bool): set<string> {
    set j | 0 <= j < |f.homes| && RunsOn(c, f.homes[j], key, T, offlineToo) :: CachedDevice(f.homes[j])
  }

  ghost predicate InOrder(run: seq<FleetStep>) {
    forall i, j :: 0 <= i < j < |run| ==> run[i].step.now <= run[j].step.now
  }

  lemma {:induction false} RequestsInOrder(c: Primitives, f: FleetState, run: seq<FleetStep>, n: nat)
    requires n <= |run| && InOrder(run)
    ensures L.Ordered(Requests(c, f, run, n))
    ensures forall q, m :: 0 <= q < |Requests(c, f, run, n)| && n <= m < |run| ==> Requests(c, f, run, n)[q].now <= run[m].step.now
  {
    hide FleetAfter, FleetRequest;
    if n > 0 { RequestsInOrder(c, f, run, n - 1); }
  }

  /** A grant in a client's view is a grant of the run of requests. */
  lemma GrantStands(c: Primitives, f: FleetState, run: seq<FleetStep>, n: nat, j: nat, i: nat, t: Token) returns (q: nat)
    requires i < n <= |run| && j < |f.homes| && GrantedAt(c, View(f, j), SeenRun(c, f, run, n, j), i) == Some(t)
    ensures q < |Requests(c, f, run, n)| && L.Issued(f.server, Requests(c, f, run, n), q, t)
  {
    hide FleetAfter, L.Serve, Granted, Seen, SeenRun, Requests, After;
    ViewRuns(c, f, run, i, n, j);
    SeenAt(c, f, run, i, n, j);
    SeenSent(c, FleetAfter(c, f, run, i), run[i], j);
    RequestStands(c, f, run, i, n);
    q := |Requests(c, f, run, i)|;
  }

  /** A program that starts does so on a token granted to its device in the run of requests. */
  lemma RunningIsLive(c: Primitives, f: FleetState, run: seq<FleetStep>, n: nat, j: nat, key: string, T: Time, offlineToo: bool)
    requires Sound(c) && L.Inv(f.server) && WithinLimit(f.server) && n <= |run| && j < |f.homes|
    requires f.homes[j] == Client.EMPTY_HOME && Keyed(c, View(f, j)) && forall k :: 0 <= k < n ==> Fair(c, f, run, k)
    requires RunsOn(c, FleetAfter(c, f, run, n).homes[j], key, T, offlineToo)
    ensures var reqs := Requests(c, f, run, n);
      CachedDevice(FleetAfter(c, f, run, n).homes[j]) in Tokens.LiveDevices(f.server, reqs, |reqs|, key, T, offlineToo)
  {
    hide FleetAfter, Sound, Keyed, L.Inv, WithinLimit, Fair, Genuine, Granted, GrantedAt, SeenRun, Requests, After, HeldSeat, InTime;
    var w, seen, h := View(f, j), SeenRun(c, f, run, n, j), FleetAfter(c, f, run, n).homes[j];
    forall k | 0 <= k < n ensures Genuine(c, w, seen, k) { SeenGenuine(c, f, run, n, j, k); }
    ViewRuns(c, f, run, n, n, j);
    RunsExactlyWhileBacked(c, w, seen, n, T);
    var t := Client.Run(c, h, T).value;
    var i :| 0 <= i < n && GrantedAt(c, w, seen, i) == Some(t);
    var q := GrantStands(c, f, run, n, j, i, t);
    var reqs := Requests(c, f, run, n);
    assert T <= t.validUntil;
    hide Client.Run, L.ReplyAt;
    assert q in Tokens.LiveGrants(f.server, reqs, |reqs|, key, T, offlineToo);
    assert Tokens.GrantedTo(f.server, reqs, q) == CachedDevice(h);
  }

  /** Whatever the clients do, and wherever replies and files end up: at T the devices whose programs
      start on online tokens of a license number at most its limit and the releases of the seven days
      before T; offline tokens included, at most the limit and all releases. */
  lemma FleetWindow(c: Primitives, f: FleetState, run: seq<FleetStep>, n: nat, key: string, T: Time)
    requires Sound(c) && L.Inv(f.server) && WithinLimit(f.server) && n <= |run| && InOrder(run)
    requires forall j :: 0 <= j < |f.homes| ==> f.homes[j] == Client.EMPTY_HOME && Keyed(c, View(f, j))
    requires forall k :: 0 <= k < n ==> Fair(c, f, run, k)
    requires key in FleetAfter(c, f, run, n).server.licenses
    ensures var end, reqs := FleetAfter(c, f, run, n), Requests(c, f, run, n);
      var max := Max(0, end.server.licenses[key].maxDevices);
      && |RunningOn(c, end, key, T, false)| <= max + |Tokens.ReleasesSince(f.server, reqs, |reqs|, key, T - ONLINE_GRACE_PERIOD)|
      && |RunningOn(c, end, key, T, true)| <= max + |Tokens.AllReleases(f.server, reqs, |reqs|, key)|
  {
    hide Requests, FleetAfter, Sound, Keyed, L.Inv, WithinLimit, Fair, RunsOn, Tokens.LiveDevices, InOrder;
    var reqs := Requests(c, f, run, n);
    ServerRuns(c, f, run, n);
    RequestsInOrder(c, f, run, n);
    Tokens.SlidingWindow(f.server, reqs, |reqs|, key, T);
    Tokens.LiveTokensEver(f.server, reqs, |reqs|, key, T);
    RunningAmongLive(c, f, run, n, key, T, false);
    RunningAmongLive(c, f, run, n, key, T, true);
  }

  lemma RunningAmongLive(c: Primitives, f: FleetState, run: seq<FleetStep>, n: nat, key: string, T: Time, offlineToo: bool)
    requires Sound(c) && L.Inv(f.server) && WithinLimit(f.server) && n <= |run|
    requires forall j :: 0 <= j < |f.homes| ==> f.homes[j] == Client.EMPTY_HOME && Keyed(c, View(f, j))
    requires forall k :: 0 <= k < n ==> Fair(c, f, run, k)
    ensures var reqs := Requests(c, f, run, n);
      |RunningOn(c, FleetAfter(c, f, run, n), key, T, offlineToo)| <= |Tokens.LiveDevices(f.server, reqs, |reqs|, key, T, offlineToo)|
  {
    hide Requests, FleetAfter, Sound, Keyed, L.Inv, WithinLimit, Fair, RunsOn, CachedDevice, Tokens.LiveDevices;
    var end, reqs := FleetAfter(c, f, run, n), Requests(c, f, run, n);
    var live := Tokens.LiveDevices(f.server, reqs, |reqs|, key, T, offlineToo);
    forall d | d in RunningOn(c, end, key, T, offlineToo) ensures d in live {
      var j :| 0 <= j < |end.homes| && RunsOn(c, end.homes[j], key, T, offlineToo) && d == CachedDevice(end.homes[j]);
      RunningIsLive(c, f, run, n, j, key, T, offlineToo);
    }
    SubsetBound(RunningOn(c, end, key, T, offlineToo), live);
  }
}
