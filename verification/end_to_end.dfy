/** Who can run, and until when: theorems over whole runs of the server, its settings and a client. */
module EndToEnd {
  import opened Common
  import opened Models
  import L = Licensing
  import opened SeatTheorems
  import opened Crypto
  import opened Settings
  import Base64
  import Client
  import opened World

  // ---- every envelope keeps verifying -------------------------------------------------------

  lemma SentIsSigned(c: Primitives, w: State, s: Step)
    requires Sound(c) && Keyed(c, w) && Sent(c, w, s).Some?
    ensures Granted(c, w, s).Some? && w.keys.Some? && SEED_KEY in w.settings
    ensures KeypairFromSeed(c, w.settings[SEED_KEY]) == Ok(w.keys.value)
    ensures Verify(c, w.keys.value.1, Sent(c, w, s).value) == Ok(Granted(c, w, s).value)
    ensures Payload(c, Sent(c, w, s).value) == Some(Granted(c, w, s).value)
  {
    SignThenVerify(c, w.keys.value.0, Granted(c, w, s).value);
  }

  /** The public key that belongs to the stored seed. */
  function ServerKey(c: Primitives, v: Values): Option<seq<byte>> {
    if SEED_KEY !in v then None
    else match KeypairFromSeed(c, v[SEED_KEY])
      case Ok(pair) => Some(pair.1)
      case Err(_) => None
  }

  /** An envelope sent at any time verifies ever after under the key of the stored seed, whatever
      restarts and settings writes come in between, and decodes to the token that was signed. */
  lemma EnvelopesKeepVerifying(c: Primitives, w: State, run: seq<Step>, i: nat, n: nat, env: Envelope)
    requires Sound(c) && Keyed(c, w) && i < n <= |run| && SentAt(c, w, run, i) == Some(env)
    ensures GrantedAt(c, w, run, i).Some?
    ensures ServerKey(c, After(c, w, run, n).settings).Some?
    ensures Verify(c, ServerKey(c, After(c, w, run, n).settings).value, env) == Ok(GrantedAt(c, w, run, i).value)
    ensures Payload(c, env) == Some(GrantedAt(c, w, run, i).value)
    ensures After(c, w, run, n).keys.Some? ==> ServerKey(c, After(c, w, run, n).settings) == Some(After(c, w, run, n).keys.value.1)
  {
    hide Act, Granted, Sent;
    SeedIsWrittenOnce(c, w, run, i, i);
    SentIsSigned(c, After(c, w, run, i), run[i]);
    SeedIsWrittenOnce(c, w, run, i, n);
  }

  // ---- the key across restarts --------------------------------------------------------------

  /** A server that once ran signs with the same keys after every later start, whatever seed is drawn. */
  lemma SameKeysAfterRestart(c: Primitives, w: State, run: seq<Step>, m: nat, n: nat)
    requires Sound(c) && Keyed(c, w) && m <= n < |run| && After(c, w, run, m).keys.Some? && run[n].action.Boot?
    ensures After(c, w, run, n + 1).keys == After(c, w, run, m).keys
  {
    hide Act;
    SeedIsWrittenOnce(c, w, run, m, m);
    SeedIsWrittenOnce(c, w, run, m, n);
    BootKeys(c, After(c, w, run, n), run[n]);
  }

  lemma BootKeys(c: Primitives, v: State, s: Step)
    requires s.action.Boot? && SEED_KEY in v.settings
    ensures Act(c, v, s).keys == match KeypairFromSeed(c, v.settings[SEED_KEY]) case Ok(pair) => Some(pair) case Err(_) => None
    ensures Act(c, v, s).home == v.home && Act(c, v, s).server == v.server && Act(c, v, s).settings == v.settings
  {
    hide KeypairFromSeed;
  }

  // ---- the server inside the run ------------------------------------------------------------

  lemma ActServer(c: Primitives, w: State, s: Step)
    requires L.Inv(w.server) && WithinLimit(w.server)
    ensures L.Inv(Act(c, w, s).server) && WithinLimit(Act(c, w, s).server)
    ensures Act(c, w, s).server == Served(c, w, s)
  {
    hide L.Serve;
    if Request(c, w, s.action).Some? {
      L.ServeKeepsInv(w.server, s.now, Request(c, w, s.action).value);
      ServeKeepsLimit(w.server, s.now, Request(c, w, s.action).value);
    }
  }

  lemma {:induction false} ServerInv(c: Primitives, w: State, run: seq<Step>, n: nat)
    requires L.Inv(w.server) && WithinLimit(w.server) && n <= |run|
    ensures L.Inv(After(c, w, run, n).server) && WithinLimit(After(c, w, run, n).server)
  {
    hide Act;
    if n > 0 {
      ServerInv(c, w, run, n - 1);
      ActServer(c, After(c, w, run, n - 1), run[n - 1]);
    }
  }

  /** At this step the license was active and the named device held one of its seats. */
  ghost predicate HeldSeat(c: Primitives, w: State, run: seq<Step>, i: nat, t: Token)
    requires i < |run|
  {
    var s := After(c, w, run, i + 1).server;
    && t.licenseKey in s.licenses
    && s.licenses[t.licenseKey].Status(run[i].now) == Active
    && t.deviceId in L.HoldersOf(s, t.licenseKey)
  }

  /** No clock of the token's issue allows it beyond the license's expiry or the horizon of its kind. */
  ghost predicate InTime(c: Primitives, w: State, run: seq<Step>, i: nat, t: Token, T: Time)
    requires i < |run|
  {
    var s := After(c, w, run, i + 1).server;
    && t.licenseKey in s.licenses
    && (s.licenses[t.licenseKey].expiresAt.Some? ==> T <= s.licenses[t.licenseKey].expiresAt.value)
    && T <= run[i].now + Horizon(t.offline)
  }

  lemma GrantIsBacked(c: Primitives, w: State, run: seq<Step>, i: nat, t: Token, T: Time)
    requires L.Inv(w.server) && WithinLimit(w.server) && i < |run|
    requires GrantedAt(c, w, run, i) == Some(t) && T <= t.validUntil
    ensures HeldSeat(c, w, run, i, t) && InTime(c, w, run, i, t, T)
  {
    ServerInv(c, w, run, i);
    var v := After(c, w, run, i);
    ActServer(c, v, run[i]);
    L.GrantedToken(v.server, run[i].now, Request(c, v, run[i].action).value);
    hide L.Serve;
  }

  // ---- a client that only talks to this server ----------------------------------------------

  /** The step neither tampers with the cache nor brings a foreign key or file. */
  ghost predicate Genuine(c: Primitives, w: State, run: seq<Step>, k: nat)
    requires k < |run|
  {
    match run[k].action
    case Tamper(_) => false
    case OfflineActivate(file, pubArg) =>
      && (pubArg != "" ==> ServersOwn(c, After(c, w, run, k), pubArg))
      && (file.Some? ==> exists i :: 0 <= i < k && SentAt(c, w, run, i) == file)
    case _ => true
  }

  /** The text is the public key of the stored seed. */
  ghost predicate ServersOwn(c: Primitives, w: State, text: string) {
    ServerKey(c, w.settings).Some? && text == EncodePublicKey(ServerKey(c, w.settings).value)
  }

  /** The cached envelope was sent by the server and names the cached device. */
  ghost predicate Honest(c: Primitives, w: State, run: seq<Step>, n: nat)
    requires n <= |run|
  {
    var h := After(c, w, run, n).home;
    h.license.Some? ==> h.pubkey.Some? && Backed(c, w, run, n, h.license.value)
  }

  ghost predicate Backed(c: Primitives, w: State, run: seq<Step>, n: nat, l: Client.Cached)
    requires n <= |run|
  {
    exists i :: Backs(c, w, run, n, i, l)
  }

  ghost predicate Backs(c: Primitives, w: State, run: seq<Step>, n: nat, i: nat, l: Client.Cached)
    requires n <= |run|
  {
    && i < n && SentAt(c, w, run, i) == Some(l.envelope)
    && GrantedAt(c, w, run, i).Some? && GrantedAt(c, w, run, i).value.deviceId == l.deviceId
  }

  /** What a step can do to an honest home. */
  ghost predicate HomeMoves(c: Primitives, v: State, s: Step, h': Client.Home) {
    || h' == v.home
    || h' == v.home.(license := None)
    || (h'.license.Some? && Sent(c, v, s) == Some(h'.license.value.envelope) && Granted(c, v, s).Some?
        && Granted(c, v, s).value.deviceId == h'.license.value.deviceId
        && ((h'.pubkey == v.home.pubkey && v.home.license.Some?)
            || (h'.pubkey.Some? && v.keys.Some? && h'.pubkey.value == EncodePublicKey(v.keys.value.1))))
  }

  /** A token names the device of the request it answers. */
  lemma GrantNamesDevice(c: Primitives, v: State, s: Step)
    requires L.Inv(v.server) && Granted(c, v, s).Some?
    ensures Request(c, v, s.action).Some?
    ensures var req := Request(c, v, s.action).value; (req.Activate? || req.Validate?) && Granted(c, v, s).value.deviceId == req.device
  {
    L.GrantedToken(v.server, s.now, Request(c, v, s.action).value);
    hide L.Serve;
  }

  lemma CommandsMoveHome(c: Primitives, v: State, s: Step)
    requires L.Inv(v.server) && !s.action.OfflineActivate? && !s.action.Tamper?
    ensures HomeMoves(c, v, s, Act(c, v, s).home)
  {
    if Sent(c, v, s).Some? { GrantNamesDevice(c, v, s); }
    hide Granted, Sent, Served, Settings.Boot;
  }

  lemma ServerKeyStays(c: Primitives, w: State, run: seq<Step>, m: nat, n: nat, text: string)
    requires Keyed(c, w) && m <= n <= |run| && ServersOwn(c, After(c, w, run, m), text)
    ensures ServersOwn(c, After(c, w, run, n), text)
  {
    hide Act;
    SeedIsWrittenOnce(c, w, run, m, n);
  }

  lemma RunningKey(c: Primitives, v: State)
    requires Keyed(c, v) && v.keys.Some?
    ensures ServersOwn(c, v, EncodePublicKey(v.keys.value.1))
  {
  }

  lemma BackedLater(c: Primitives, w: State, run: seq<Step>, m: nat, n: nat, l: Client.Cached)
    requires m <= n <= |run| && Backed(c, w, run, m, l)
    ensures Backed(c, w, run, n, l)
  {
    hide After, GrantedAt, SentAt;
    var i :| Backs(c, w, run, m, i, l);
    assert Backs(c, w, run, n, i, l);
  }

  lemma {:induction false} HonestCache(c: Primitives, w: State, run: seq<Step>, n: nat)
    requires Sound(c) && Keyed(c, w) && L.Inv(w.server) && WithinLimit(w.server) && w.home == Client.EMPTY_HOME && n <= |run|
    requires forall k :: 0 <= k < n ==> Genuine(c, w, run, k)
    ensures Honest(c, w, run, n)
  {
    hide Act, Genuine, Sound, Keyed, L.Inv, WithinLimit, Backed;
    if n > 0 {
      HonestCache(c, w, run, n - 1);
      ServerInv(c, w, run, n - 1);
      HonestOneMore(c, w, run, n - 1);
    }
  }

  lemma HonestOneMore(c: Primitives, w: State, run: seq<Step>, k: nat)
    requires Sound(c) && Keyed(c, w) && k < |run| && L.Inv(After(c, w, run, k).server)
    requires Honest(c, w, run, k) && Genuine(c, w, run, k)
    ensures Honest(c, w, run, k + 1)
  {
    hide Honest, Act, HomeMoves;
    if run[k].action.OfflineActivate? {
      OfflineStep(c, w, run, k);
    } else {
      CommandsMoveHome(c, After(c, w, run, k), run[k]);
      HonestStep(c, w, run, k);
    }
  }

  lemma HonestStep(c: Primitives, w: State, run: seq<Step>, k: nat)
    requires k < |run| && Honest(c, w, run, k)
    requires HomeMoves(c, After(c, w, run, k), run[k], After(c, w, run, k + 1).home)
    ensures Honest(c, w, run, k + 1)
  {
    hide Act, Granted, Sent;
    var h, h' := After(c, w, run, k).home, After(c, w, run, k + 1).home;
    if h'.license.Some? {
      if h' == h {
        BackedLater(c, w, run, k, k + 1, h.license.value);
      } else {
        assert Backs(c, w, run, k + 1, k, h'.license.value);
      }
    }
  }

  /** Offline activation caches the file with the key it verified under, or changes nothing. */
  lemma OfflineMoves(c: Primitives, v: State, s: Step)
    requires s.action.OfflineActivate?
    ensures var h, h', file, pubArg := v.home, Act(c, v, s).home, s.action.file, s.action.pubArg;
      || h' == h
      || (file.Some? && h'.pubkey.Some? && (pubArg != "" ==> h'.pubkey.value == pubArg) && (pubArg == "" ==> h'.pubkey == h.pubkey)
          && h'.license.Some? && h'.license.value.envelope == file.value
          && Payload(c, file.value).Some? && h'.license.value.deviceId == Payload(c, file.value).value.deviceId)
  {
    var h, file, pubArg := v.home, s.action.file, s.action.pubArg;
    assert Act(c, v, s).home == Client.OfflineActivate(c, h, file, pubArg).0;
    hide Act;
    if Client.OfflineActivate(c, h, file, pubArg).0 != h {
      VerifiedPayload(c, if pubArg == "" then h.pubkey.value else pubArg, file.value);
    }
  }

  lemma OfflineStep(c: Primitives, w: State, run: seq<Step>, k: nat)
    requires Sound(c) && Keyed(c, w) && k < |run| && Honest(c, w, run, k) && Genuine(c, w, run, k) && run[k].action.OfflineActivate?
    ensures Honest(c, w, run, k + 1)
  {
    OfflineMoves(c, After(c, w, run, k), run[k]);
    hide Act, ServersOwn, SentAt, Backed;
    var h, h' := After(c, w, run, k).home, After(c, w, run, k + 1).home;
    if h' != h {
      FileBacked(c, w, run, k, h'.license.value);
    } else if h.license.Some? {
      BackedLater(c, w, run, k, k + 1, h.license.value);
    }
  }

  /** A cached envelope that was sent before, with the device its token names, is backed. */
  lemma FileBacked(c: Primitives, w: State, run: seq<Step>, k: nat, l: Client.Cached)
    requires Sound(c) && Keyed(c, w) && k < |run|
    requires exists i :: 0 <= i < k && SentAt(c, w, run, i) == Some(l.envelope)
    requires Payload(c, l.envelope).Some? && Payload(c, l.envelope).value.deviceId == l.deviceId
    ensures Backed(c, w, run, k + 1, l)
  {
    hide Act, Granted, Sent, SentAt, GrantedAt, ServerKey;
    var i :| 0 <= i < k && SentAt(c, w, run, i) == Some(l.envelope);
    EnvelopesKeepVerifying(c, w, run, i, k, l.envelope);
    assert Backs(c, w, run, k + 1, i, l);
  }

  lemma VerifiedPayload(c: Primitives, pub: string, env: Envelope)
    requires Client.Check(c, pub, env).Ok?
    ensures Payload(c, env) == Some(Client.Check(c, pub, env).value)
  {
    VerifiedBytes(c, DecodePublicKey(pub).value, env);
  }

  /** The step brings no foreign public key; files and cache contents may be anything. */
  ghost predicate OwnKeys(c: Primitives, w: State, run: seq<Step>, k: nat)
    requires k < |run|
  {
    match run[k].action
    case OfflineActivate(file, pubArg) => pubArg != "" ==> ServersOwn(c, After(c, w, run, k), pubArg)
    case _ => true
  }

  /** Where the key file's content comes from. */
  lemma ActPubkey(c: Primitives, v: State, s: Step)
    ensures var p := Act(c, v, s).home.pubkey;
      || p == v.home.pubkey
      || (p.Some? && v.keys.Some? && p.value == EncodePublicKey(v.keys.value.1))
      || (p.Some? && s.action.OfflineActivate? && s.action.pubArg != "" && p.value == s.action.pubArg)
  {
    if s.action.OfflineActivate? { OfflineMoves(c, v, s); }
    hide Granted, Sent, Served, Settings.Boot;
  }

  lemma {:induction false} KeyFileIsOwn(c: Primitives, w: State, run: seq<Step>, n: nat)
    requires Keyed(c, w) && w.home == Client.EMPTY_HOME && n <= |run|
    requires forall k :: 0 <= k < n ==> OwnKeys(c, w, run, k)
    ensures var v := After(c, w, run, n); v.home.pubkey.Some? ==> ServersOwn(c, v, v.home.pubkey.value)
  {
    hide Act, ServersOwn;
    if n > 0 {
      KeyFileIsOwn(c, w, run, n - 1);
      assert OwnKeys(c, w, run, n - 1);
      var v := After(c, w, run, n - 1);
      SeedIsWrittenOnce(c, w, run, n - 1, n - 1);
      ActPubkey(c, v, run[n - 1]);
      if After(c, w, run, n).home.pubkey.Some? {
        if v.keys.Some? { RunningKey(c, v); }
        ServerKeyStays(c, w, run, n - 1, n, After(c, w, run, n).home.pubkey.value);
      }
    }
  }

  // ---- the offline decision -----------------------------------------------------------------

  /** For a client that only talks to this server, the program starts exactly while an envelope is
      cached and its deadline has not passed, through any restarts of the server; and then an
      earlier step granted the token, with the license active and the device in a seat. */
  lemma RunsExactlyWhileBacked(c: Primitives, w: State, run: seq<Step>, n: nat, T: Time)
    requires Sound(c) && Keyed(c, w) && L.Inv(w.server) && WithinLimit(w.server) && w.home == Client.EMPTY_HOME && n <= |run|
    requires forall k :: 0 <= k < n ==> Genuine(c, w, run, k)
    ensures var h := After(c, w, run, n).home;
      Client.Run(c, h, T).Ok? <==>
        h.license.Some? && Payload(c, h.license.value.envelope).Some? && T <= Payload(c, h.license.value.envelope).value.validUntil
    ensures var h := After(c, w, run, n).home;
      Client.Run(c, h, T).Ok? ==>
        var t := Client.Run(c, h, T).value;
        t.deviceId == h.license.value.deviceId
        && exists i :: 0 <= i < n && GrantedAt(c, w, run, i) == Some(t) && HeldSeat(c, w, run, i, t) && InTime(c, w, run, i, t, T)
  {
    HonestCache(c, w, run, n);
    forall k | 0 <= k < n ensures OwnKeys(c, w, run, k) { assert Genuine(c, w, run, k); }
    KeyFileIsOwn(c, w, run, n);
    hide Act, Granted, Sent;
    var h := After(c, w, run, n).home;
    if h.license.Some? {
      var i :| Backs(c, w, run, n, i, h.license.value);
      var env := h.license.value.envelope;
      EnvelopesKeepVerifying(c, w, run, i, n, env);
      KeysRoundTrip(c, ServerKey(c, After(c, w, run, n).settings).value);
      KeyLength(c, After(c, w, run, n).settings);
      assert Client.Check(c, h.pubkey.value, env) == Ok(GrantedAt(c, w, run, i).value);
      if T <= GrantedAt(c, w, run, i).value.validUntil {
        GrantIsBacked(c, w, run, i, GrantedAt(c, w, run, i).value, T);
      }
    }
  }

  lemma KeyLength(c: Primitives, v: Values)
    requires Sound(c) && ServerKey(c, v).Some?
    ensures |ServerKey(c, v).value| == PUBLIC_KEY_SIZE
  {
  }

  /** What the program answers in each case: never a bad signature, a missing key or a corrupt file. */
  lemma RunAnswers(c: Primitives, w: State, run: seq<Step>, n: nat, T: Time)
    requires Sound(c) && Keyed(c, w) && L.Inv(w.server) && WithinLimit(w.server) && w.home == Client.EMPTY_HOME && n <= |run|
    requires forall k :: 0 <= k < n ==> Genuine(c, w, run, k)
    ensures var h := After(c, w, run, n).home;
      if h.license.None? then Client.Run(c, h, T) == Err(Client.NotActivated)
      else
        && Payload(c, h.license.value.envelope).Some?
        && var t := Payload(c, h.license.value.envelope).value;
        && Client.Run(c, h, T) == if T <= t.validUntil then Ok(t) else Err(Client.TokenExpired(t.offline))
  {
    HonestCache(c, w, run, n);
    forall k | 0 <= k < n ensures OwnKeys(c, w, run, k) { assert Genuine(c, w, run, k); }
    KeyFileIsOwn(c, w, run, n);
    hide Act, Granted, Sent;
    var h := After(c, w, run, n).home;
    if h.license.Some? {
      var i :| Backs(c, w, run, n, i, h.license.value);
      EnvelopesKeepVerifying(c, w, run, i, n, h.license.value.envelope);
      KeysRoundTrip(c, ServerKey(c, After(c, w, run, n).settings).value);
      KeyLength(c, After(c, w, run, n).settings);
    }
    hide After, Sound, Keyed, Genuine;
  }

  // ---- what the commands write --------------------------------------------------------------

  /** The command has nothing to keep: its reply or key did not come, the server refused it, or the
      file does not check under the key it is to be checked with. */
  ghost predicate Fruitless(c: Primitives, v: State, s: Step) {
    match s.action
    case Activate(_, _, _, _, replied, keyFetched) => !replied || !keyFetched || v.keys.None? || Sent(c, v, s).None?
    case Validate(replied) => !replied || Sent(c, v, s).None?
    case Deactivate(replied) => !replied || !Released(c, v, s)
    case OfflineActivate(file, pubArg) =>
      file.None? || (pubArg == "" && v.home.pubkey.None?)
      || Client.Check(c, if pubArg == "" then v.home.pubkey.value else pubArg, file.value).Err?
    case Tamper(_) => false
    case _ => true
  }

  lemma FruitlessStep(c: Primitives, v: State, s: Step)
    requires Fruitless(c, v, s)
    ensures Act(c, v, s).home == v.home
  {
    hide Sent, Released, Client.Check, Settings.Boot, Served;
  }

  /** A validation whose reply is lost or refused, an activation that gets no envelope or no key, a
      refused release and a bad file leave both files alone: the program starts when it did before. */
  lemma FruitlessKeepsHome(c: Primitives, w: State, run: seq<Step>, n: nat, T: Time)
    requires n < |run| && Fruitless(c, After(c, w, run, n), run[n])
    ensures After(c, w, run, n + 1).home == After(c, w, run, n).home
    ensures Client.Run(c, After(c, w, run, n + 1).home, T) == Client.Run(c, After(c, w, run, n).home, T)
  {
    FruitlessStep(c, After(c, w, run, n), run[n]);
    hide Act, Fruitless, Client.Run;
  }

  /** What the other commands leave in the two files, to the last field. */
  lemma FruitfulHome(c: Primitives, v: State, s: Step)
    requires L.Inv(v.server) && !Fruitless(c, v, s) && !s.action.Tamper?
    ensures var h, h' := v.home, Act(c, v, s).home;
      match s.action
      case Activate(key, device, _, url, _, _) =>
        && h' == Client.Home(Some(Client.Cached(Sent(c, v, s).value, device, url)), Some(EncodePublicKey(v.keys.value.1)))
        && Granted(c, v, s).Some? && Granted(c, v, s).value.licenseKey == key && Granted(c, v, s).value.deviceId == device
        && !Granted(c, v, s).value.offline
      case Validate(_) =>
        && h.license.Some? && h' == h.(license := Some(h.license.value.(envelope := Sent(c, v, s).value)))
        && Payload(c, h.license.value.envelope).Some? && Granted(c, v, s).Some?
        && Granted(c, v, s).value.licenseKey == Payload(c, h.license.value.envelope).value.licenseKey
        && Granted(c, v, s).value.deviceId == h.license.value.deviceId && !Granted(c, v, s).value.offline
      case Deactivate(_) => h.license.Some? && h' == h.(license := None)
      case OfflineActivate(file, pubArg) =>
        && h'.pubkey == (if pubArg == "" then h.pubkey else Some(pubArg)) && Payload(c, file.value).Some?
        && h'.license == Some(Client.Cached(file.value, Payload(c, file.value).value.deviceId, ""))
      case _ => true
  {
    if s.action.Activate? || s.action.Validate? { GrantNames(c, v, s); }
    if s.action.OfflineActivate? { OfflineMoves(c, v, s); CheckedFile(c, v, s); }
    hide Granted, L.Serve, Settings.Boot, Client.Check, Payload;
  }

  lemma GrantNames(c: Primitives, v: State, s: Step)
    requires L.Inv(v.server) && Sent(c, v, s).Some?
    ensures Request(c, v, s.action).Some? && Granted(c, v, s).Some?
    ensures var req, t := Request(c, v, s.action).value, Granted(c, v, s).value;
      (req.Activate? || req.Validate?) && t.licenseKey == req.key && t.deviceId == req.device && t.offline == (req.Activate? && req.offline)
  {
    L.GrantedToken(v.server, s.now, Request(c, v, s.action).value);
    hide L.Serve, L.Inv;
  }

  lemma CheckedFile(c: Primitives, v: State, s: Step)
    requires s.action.OfflineActivate? && !Fruitless(c, v, s)
    ensures var pub := if s.action.pubArg == "" then v.home.pubkey.value else s.action.pubArg;
      && Payload(c, s.action.file.value).Some?
      && Act(c, v, s).home == Client.Home(Some(Client.Cached(s.action.file.value, Payload(c, s.action.file.value).value.deviceId, "")), Some(pub))
  {
    VerifiedPayload(c, if s.action.pubArg == "" then v.home.pubkey.value else s.action.pubArg, s.action.file.value);
    hide Client.Check, Payload, L.Serve;
  }

  // ---- what the commands answer -------------------------------------------------------------

  /** The server's key checks what the server has just sent. */
  lemma ChecksWhatIsSent(c: Primitives, v: State, s: Step, pub: string)
    requires Sound(c) && Keyed(c, v) && Sent(c, v, s).Some? && ServersOwn(c, v, pub)
    ensures Granted(c, v, s).Some? && Client.Check(c, pub, Sent(c, v, s).value) == Ok(Granted(c, v, s).value)
  {
    SentIsSigned(c, v, s);
    KeysRoundTrip(c, v.keys.value.1);
    KeyLength(c, v.settings);
    hide Sent, Granted, Sound, Verify, DecodePublicKey, KeypairFromSeed;
  }

  /** A cached envelope is readable, and the key file beside it is the server's. */
  lemma HonestFiles(c: Primitives, w: State, run: seq<Step>, n: nat)
    requires Sound(c) && Keyed(c, w) && L.Inv(w.server) && WithinLimit(w.server) && w.home == Client.EMPTY_HOME && n <= |run|
    requires forall k :: 0 <= k < n ==> Genuine(c, w, run, k)
    ensures var v := After(c, w, run, n);
      v.home.license.Some? ==>
        Payload(c, v.home.license.value.envelope).Some? && v.home.pubkey.Some? && ServersOwn(c, v, v.home.pubkey.value)
  {
    HonestCache(c, w, run, n);
    forall k | 0 <= k < n ensures OwnKeys(c, w, run, k) { assert Genuine(c, w, run, k); }
    KeyFileIsOwn(c, w, run, n);
    hide Act, Granted, Sent, ServersOwn;
    var h := After(c, w, run, n).home;
    if h.license.Some? {
      var i :| Backs(c, w, run, n, i, h.license.value);
      EnvelopesKeepVerifying(c, w, run, i, n, h.license.value.envelope);
    }
    hide After, Sound, Keyed, Genuine;
  }

  /** What an activation tells its user: the token just granted, when its envelope and the key came. */
  lemma ActivateAnswers(c: Primitives, v: State, s: Step)
    requires Sound(c) && Keyed(c, v) && s.action.Activate?
    ensures var r := Client.Activate(c, v.home, s.action.key, s.action.device, s.action.url,
        if s.action.replied then Sent(c, v, s) else None,
        if s.action.keyFetched && v.keys.Some? then Some(EncodePublicKey(v.keys.value.1)) else None).1;
      r == if s.action.key == "" || s.action.device == "" then Err(Client.MissingArgument)
           else if Fruitless(c, v, s) then Err(Client.Rejected) else Ok(Granted(c, v, s).value)
  {
    if v.keys.Some? && Sent(c, v, s).Some? {
      RunningKey(c, v);
      ChecksWhatIsSent(c, v, s, EncodePublicKey(v.keys.value.1));
    }
    hide Granted, Sent, Client.Check, Sound, Keyed, ServersOwn;
  }

  /** What a validation and a release tell theirs, on a client that only talked to this server. */
  lemma CommandAnswers(c: Primitives, w: State, run: seq<Step>, n: nat)
    requires Sound(c) && Keyed(c, w) && L.Inv(w.server) && WithinLimit(w.server) && w.home == Client.EMPTY_HOME && n < |run|
    requires forall k :: 0 <= k < n ==> Genuine(c, w, run, k)
    ensures var v, s := After(c, w, run, n), run[n];
      match s.action
      case Validate(replied) =>
        Client.Validate(c, v.home, if replied then Sent(c, v, s) else None).1
          == if v.home.license.None? then Err(Client.NotActivated)
             else if Fruitless(c, v, s) then Err(Client.Rejected) else Ok(Granted(c, v, s).value)
      case Deactivate(replied) =>
        Client.Deactivate(c, v.home, replied && Released(c, v, s)).1
          == if v.home.license.None? then Err(Client.NotActivated)
             else if Fruitless(c, v, s) then Err(Client.Rejected) else Ok(())
      case _ => true
  {
    var v, s := After(c, w, run, n), run[n];
    HonestFiles(c, w, run, n);
    SeedIsWrittenOnce(c, w, run, n, n);
    if v.home.license.Some? && Sent(c, v, s).Some? {
      ChecksWhatIsSent(c, v, s, v.home.pubkey.value);
    }
    hide After, Granted, Sent, Released, Client.Check, Sound, Keyed, ServersOwn, Payload, Genuine;
  }

  /** The step's envelope reached the client, for an activation together with the public key. */
  predicate Delivered(a: Action) {
    (a.Activate? && a.replied && a.keyFetched) || (a.Validate? && a.replied)
  }

  lemma DeliveredIsCached(c: Primitives, v: State, s: Step)
    requires Delivered(s.action) && Sent(c, v, s).Some?
    ensures var h := Act(c, v, s).home; h.license.Some? && h.license.value.envelope == Sent(c, v, s).value
  {
    assert Request(c, v, s.action).Some? by { hide L.Serve; }
    hide Granted, L.Serve, Client.Check, Payload, Sign;
  }

  /** Right after an activation or validation whose reply arrives, the program starts exactly until
      the deadline of the token just granted. */
  lemma FreshReplyRuns(c: Primitives, w: State, run: seq<Step>, n: nat, T: Time)
    requires Sound(c) && Keyed(c, w) && L.Inv(w.server) && WithinLimit(w.server) && w.home == Client.EMPTY_HOME && n < |run|
    requires forall k :: 0 <= k <= n ==> Genuine(c, w, run, k)
    requires Delivered(run[n].action) && SentAt(c, w, run, n).Some?
    ensures GrantedAt(c, w, run, n).Some?
    ensures Client.Run(c, After(c, w, run, n + 1).home, T).Ok? <==> T <= GrantedAt(c, w, run, n).value.validUntil
  {
    hide Act, Granted, Sent, Client.Run, Genuine;
    DeliveredIsCached(c, After(c, w, run, n), run[n]);
    EnvelopesKeepVerifying(c, w, run, n, n + 1, SentAt(c, w, run, n).value);
    RunsExactlyWhileBacked(c, w, run, n + 1, T);
  }

  /** The text of the server's key checks every envelope the server sent. */
  lemma OwnKeyChecks(c: Primitives, w: State, run: seq<Step>, i: nat, n: nat, env: Envelope, pub: string)
    requires Sound(c) && Keyed(c, w) && i < n <= |run| && SentAt(c, w, run, i) == Some(env)
    requires ServersOwn(c, After(c, w, run, n), pub)
    ensures Client.Check(c, pub, env).Ok? && Payload(c, env).Some?
  {
    hide After, GrantedAt, SentAt, Payload, Verify, DecodePublicKey;
    EnvelopesKeepVerifying(c, w, run, i, n, env);
    KeysRoundTrip(c, ServerKey(c, After(c, w, run, n).settings).value);
    KeyLength(c, After(c, w, run, n).settings);
  }

  lemma CheckedFileIsCached(c: Primitives, v: State, s: Step)
    requires s.action.OfflineActivate? && s.action.file.Some? && (s.action.pubArg != "" || v.home.pubkey.Some?)
    requires Client.Check(c, if s.action.pubArg == "" then v.home.pubkey.value else s.action.pubArg, s.action.file.value).Ok?
    ensures var h := Act(c, v, s).home; h.license.Some? && h.license.value.envelope == s.action.file.value
  {
    hide L.Serve, Client.Check;
  }

  /** A file the server sent, brought to a machine with the server's key, is accepted at any later
      time, and then the program starts exactly until the file's deadline. */
  lemma OfflineFileRuns(c: Primitives, w: State, run: seq<Step>, n: nat, T: Time)
    requires Sound(c) && Keyed(c, w) && L.Inv(w.server) && WithinLimit(w.server) && w.home == Client.EMPTY_HOME && n < |run|
    requires forall k :: 0 <= k <= n ==> Genuine(c, w, run, k)
    requires run[n].action.OfflineActivate? && run[n].action.file.Some?
    requires run[n].action.pubArg != "" || After(c, w, run, n).home.pubkey.Some?
    ensures Payload(c, run[n].action.file.value).Some?
    ensures Client.Run(c, After(c, w, run, n + 1).home, T).Ok? <==> T <= Payload(c, run[n].action.file.value).value.validUntil
  {
    var v, file, pubArg := After(c, w, run, n), run[n].action.file.value, run[n].action.pubArg;
    forall k | 0 <= k <= n ensures OwnKeys(c, w, run, k) { assert Genuine(c, w, run, k); }
    KeyFileIsOwn(c, w, run, n);
    assert Genuine(c, w, run, n);
    var i :| 0 <= i < n && SentAt(c, w, run, i) == Some(file);
    hide Act, Client.Run, Genuine, OwnKeys, ServersOwn, SentAt, Client.Check, Payload;
    OwnKeyChecks(c, w, run, i, n, file, if pubArg == "" then v.home.pubkey.value else pubArg);
    CheckedFileIsCached(c, v, run[n]);
    RunsExactlyWhileBacked(c, w, run, n + 1, T);
  }

  /** A release that the server carried out frees the seat of the cached device. The program can
      start after it exactly if the reply got lost and it could have started before. */
  lemma ReleaseStopsClient(c: Primitives, w: State, run: seq<Step>, n: nat, T: Time)
    requires L.Inv(w.server) && WithinLimit(w.server) && n < |run|
    requires run[n].action.Deactivate? && Released(c, After(c, w, run, n), run[n])
    ensures After(c, w, run, n).home.license.Some?
    ensures Client.Identity(c, After(c, w, run, n).home).Ok?
    ensures var (key, device) := Client.Identity(c, After(c, w, run, n).home).value;
      && device in L.HoldersOf(After(c, w, run, n).server, key)
      && device !in L.HoldersOf(After(c, w, run, n + 1).server, key)
    ensures Client.Run(c, After(c, w, run, n + 1).home, T).Ok? <==>
      !run[n].action.replied && Client.Run(c, After(c, w, run, n).home, T).Ok?
  {
    ServerInv(c, w, run, n);
    var v := After(c, w, run, n);
    ReleasedStep(c, v, run[n]);
  }

  lemma ReleasedStep(c: Primitives, v: State, s: Step)
    requires L.Inv(v.server) && s.action.Deactivate? && Released(c, v, s)
    ensures v.home.license.Some? && Client.Identity(c, v.home).Ok?
    ensures var (key, device) := Client.Identity(c, v.home).value;
      && device in L.HoldersOf(v.server, key) && device !in L.HoldersOf(Act(c, v, s).server, key)
    ensures Act(c, v, s).home == if s.action.replied then v.home.(license := None) else v.home
  {
    var (key, device) := Client.Identity(c, v.home).value;
    assert Request(c, v, s.action) == Some(L.Deactivate(key, device));
    L.DeactivateHolders(v.server, s.now, key, device, key);
  }
}
