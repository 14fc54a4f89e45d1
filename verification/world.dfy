/** Server, settings and one client together: restarts, dashboard writes, anybody's requests and the
    client's commands, in any order, with replies that may get lost. End-to-end theorems. */
module World {
  import opened Common
  import opened Models
  import L = Licensing
  import Service
  import opened Crypto
  import opened Settings
  import Client

  /** keys is what a running server signs with, None while it is down. */
  datatype State = State(server: L.Server, settings: Values, keys: Option<Keypair>, home: Client.Home)

  datatype Action =
    | Boot(drawn: seq<byte>)
    | Webhook(url: string, secret: string)
    | Other(req: L.Request)
    | Activate(key: string, device: string, name: string, url: string, replied: bool, keyFetched: bool)
    | Validate(replied: bool)
    | Deactivate(replied: bool)
    | OfflineActivate(file: Option<Envelope>, pubArg: string)
    | Tamper(license: Option<Client.Cached>)

  datatype Step = Step(now: Time, action: Action)

  /** The request that reaches the server, if any; the API refuses an empty key or device. */
  function Request(c: Primitives, w: State, a: Action): Option<L.Request> {
    if w.keys.None? then None
    else match a
      case Other(req) => Some(req)
      case Activate(key, device, name, _, _, _) =>
        if key == "" || device == "" then None else Some(L.Activate(key, device, name, false))
      case Validate(_) =>
        (match Client.Identity(c, w.home)
         case Ok((key, device)) => if key == "" || device == "" then None else Some(L.Validate(key, device))
         case Err(_) => None)
      case Deactivate(_) =>
        (match Client.Identity(c, w.home)
         case Ok((key, device)) => if key == "" || device == "" then None else Some(L.Deactivate(key, device))
         case Err(_) => None)
      case _ => None
  }

  /** A client's commands ask a running server about the license and device typed in, or afterwards
      about those of its cache, which validations and releases never change. */
  lemma AsksAboutItself(c: Primitives, w: State, url: string, key: string, device: string, name: string, replied: bool, keyFetched: bool)
    requires w.keys.Some? && key != "" && device != ""
    ensures Request(c, w, Activate(key, device, name, url, replied, keyFetched)) == Some(L.Activate(key, device, name, false))
    ensures Client.Identity(c, w.home) == Ok((key, device)) ==>
      && Request(c, w, Validate(replied)) == Some(L.Validate(key, device))
      && Request(c, w, Deactivate(replied)) == Some(L.Deactivate(key, device))
  {
    hide Payload;
  }

  /** The cache's license and device: those of the cached token and of the activation. */
  lemma IdentityOfCache(c: Primitives, h: Client.Home)
    ensures h.license.None? ==> Client.Identity(c, h) == Err(Client.NotActivated)
    ensures h.license.Some? ==>
      match Payload(c, h.license.value.envelope)
      case Some(t) => Client.Identity(c, h) == Ok((t.licenseKey, h.license.value.deviceId))
      case None => Client.Identity(c, h) == Err(Client.Corrupt)
  {
    hide Payload;
  }

  function Served(c: Primitives, w: State, s: Step): L.Server {
    match Request(c, w, s.action)
    case Some(req) => L.Serve(w.server, s.now, req).0
    case None => w.server
  }

  /** The token granted by a step. */
  function Granted(c: Primitives, w: State, s: Step): Option<Token> {
    match Request(c, w, s.action)
    case Some(req) => var reply := L.Serve(w.server, s.now, req).1; if reply.Granted? then Some(reply.token) else None
    case None => None
  }

  /** The envelope sent by a step. */
  function Sent(c: Primitives, w: State, s: Step): Option<Envelope> {
    if w.keys.None? || Granted(c, w, s).None? then None
    else match Service.Answered(c, w.keys.value.0, L.Granted(Granted(c, w, s).value))
      case Signed(env) => Some(env)
      case _ => None
  }

  /** What is sent is what the service answers to the request that reached it. */
  lemma SentIsAnswered(c: Primitives, w: State, s: Step, env: Envelope)
    requires w.keys.Some? && Request(c, w, s.action).Some?
    ensures Sent(c, w, s) == Some(env) <==>
      Service.Answered(c, w.keys.value.0, L.Serve(w.server, s.now, Request(c, w, s.action).value).1) == Service.Signed(env)
  {
    hide L.Serve, Sign;
  }

  function Released(c: Primitives, w: State, s: Step): bool {
    match Request(c, w, s.action)
    case Some(req) => L.Serve(w.server, s.now, req).1 == L.Done
    case None => false
  }

  function HomeAfter(c: Primitives, w: State, s: Step): Client.Home {
    match s.action
    case Activate(key, device, _, url, replied, keyFetched) =>
      Client.Activate(c, w.home, key, device, url,
        if replied then Sent(c, w, s) else None,
        if keyFetched && w.keys.Some? then Some(EncodePublicKey(w.keys.value.1)) else None).0
    case Validate(replied) => Client.Validate(c, w.home, if replied then Sent(c, w, s) else None).0
    case Deactivate(replied) => Client.Deactivate(c, w.home, replied && Released(c, w, s)).0
    case OfflineActivate(file, pubArg) => Client.OfflineActivate(c, w.home, file, pubArg).0
    case Tamper(license) => w.home.(license := license)
    case _ => w.home
  }

  function Act(c: Primitives, w: State, s: Step): State {
    match s.action
    case Boot(drawn) =>
      var (v, r) := Settings.Boot(c, w.settings, drawn);
      w.(settings := v, keys := if r.Ok? then Some(r.value) else None)
    case Webhook(url, secret) => if w.keys.None? then w else w.(settings := SetWebhook(w.settings, url, secret))
    case _ => w.(server := Served(c, w, s), home := HomeAfter(c, w, s))
  }

  function After(c: Primitives, w: State, run: seq<Step>, n: nat): State
    requires n <= |run|
  {
    if n == 0 then w else Act(c, After(c, w, run, n - 1), run[n - 1])
  }

  function GrantedAt(c: Primitives, w: State, run: seq<Step>, i: nat): Option<Token>
    requires i < |run|
  {
    Granted(c, After(c, w, run, i), run[i])
  }

  function SentAt(c: Primitives, w: State, run: seq<Step>, i: nat): Option<Envelope>
    requires i < |run|
  {
    Sent(c, After(c, w, run, i), run[i])
  }

  // ---- the signing key ----------------------------------------------------------------------

  /** A running server signs with the stored seed. */
  ghost predicate Keyed(c: Primitives, w: State) {
    w.keys.Some? ==> SEED_KEY in w.settings && KeypairFromSeed(c, w.settings[SEED_KEY]) == Ok(w.keys.value)
  }

  lemma ActKeepsSeed(c: Primitives, w: State, s: Step)
    requires Keyed(c, w)
    ensures Keyed(c, Act(c, w, s))
    ensures SEED_KEY in w.settings ==> SEED_KEY in Act(c, w, s).settings && Act(c, w, s).settings[SEED_KEY] == w.settings[SEED_KEY]
  {
    SettingNamesDiffer();
    hide L.Serve, SEED_KEY, WEBHOOK_URL, WEBHOOK_SECRET;
  }

  /** Whatever happens, the stored seed is written at most once. */
  lemma {:induction false} SeedIsWrittenOnce(c: Primitives, w: State, run: seq<Step>, m: nat, n: nat)
    requires Keyed(c, w) && m <= n <= |run|
    ensures Keyed(c, After(c, w, run, n))
    ensures SEED_KEY in After(c, w, run, m).settings ==>
      SEED_KEY in After(c, w, run, n).settings && After(c, w, run, n).settings[SEED_KEY] == After(c, w, run, m).settings[SEED_KEY]
    decreases n
  {
    hide Act;
    if m < n {
      SeedIsWrittenOnce(c, w, run, m, n - 1);
      ActKeepsSeed(c, After(c, w, run, n - 1), run[n - 1]);
    } else if n > 0 {
      SeedIsWrittenOnce(c, w, run, n - 1, n - 1);
      ActKeepsSeed(c, After(c, w, run, n - 1), run[n - 1]);
    }
  }

  // ---- the other settings -------------------------------------------------------------------

  lemma ActWebhook(c: Primitives, w: State, s: Step)
    requires s.action.Webhook? && w.keys.Some?
    ensures var w' := Act(c, w, s);
      && w'.server == w.server && w'.keys == w.keys && w'.home == w.home
      && "webhook_url" in w'.settings && w'.settings["webhook_url"] == s.action.url
      && "webhook_secret" in w'.settings && w'.settings["webhook_secret"] == s.action.secret
  {
    WebhookStored(w.settings, s.action.url, s.action.secret);
    hide L.Serve, SetWebhook;
  }

  lemma ActKeepsOthers(c: Primitives, w: State, s: Step, name: string)
    requires name in w.settings && name != "signing_key_seed" && !s.action.Webhook?
    ensures name in Act(c, w, s).settings && Act(c, w, s).settings[name] == w.settings[name]
  {
    hide L.Serve;
  }

  /** The webhook's address and secret are those saved last, through restarts and whatever else happens. */
  lemma {:induction false} WebhookLasts(c: Primitives, w: State, run: seq<Step>, i: nat, n: nat)
    requires i < n <= |run| && run[i].action.Webhook? && After(c, w, run, i).keys.Some?
    requires forall j :: i < j < n ==> !run[j].action.Webhook?
    ensures var v := After(c, w, run, n).settings;
      && "webhook_url" in v && v["webhook_url"] == run[i].action.url
      && "webhook_secret" in v && v["webhook_secret"] == run[i].action.secret
    decreases n
  {
    hide Act;
    if n == i + 1 {
      ActWebhook(c, After(c, w, run, i), run[i]);
    } else {
      WebhookLasts(c, w, run, i, n - 1);
      ActKeepsOthers(c, After(c, w, run, n - 1), run[n - 1], "webhook_url");
      ActKeepsOthers(c, After(c, w, run, n - 1), run[n - 1], "webhook_secret");
    }
  }
}
