/** A client whose cached license is replaced by anything at any time: it can only start on a token the
    server granted, as long as nobody forges a signature; and what putting an old copy back achieves. */
module Tampering {
  import opened Common
  import opened Models
  import L = Licensing
  import opened Seats
  import opened SeatTheorems
  import opened Crypto
  import Base64
  import Client
  import opened World
  import opened EndToEnd

  /** The envelope that somebody puts into the cache or brings as a file. */
  function Presented(a: Action): Option<Envelope> {
    match a
    case Tamper(license) => if license.Some? then Some(license.value.envelope) else None
    case OfflineActivate(file, _) => file
    case _ => None
  }

  /** If the envelope verifies under the server's key, its payload is that of a token the server granted. */
  ghost predicate NotForged(c: Primitives, w: State, run: seq<Step>, n: nat, env: Envelope)
    requires n <= |run|
  {
    var key := ServerKey(c, After(c, w, run, n).settings);
    key.Some? && Verify(c, key.value, env).Ok? ==>
      exists i :: 0 <= i < n && Marshalled(c, w, run, i, env)
  }

  ghost predicate Marshalled(c: Primitives, w: State, run: seq<Step>, i: nat, env: Envelope)
    requires i < |run|
  {
    && GrantedAt(c, w, run, i).Some?
    && Base64.Decode(env.payload).Some? && c.marshal(GrantedAt(c, w, run, i).value) == Base64.Decode(env.payload)
  }

  /** Nobody who tampered with the cache or brought a file forged a signature. */
  ghost predicate NoForgery(c: Primitives, w: State, run: seq<Step>, n: nat)
    requires n <= |run|
  {
    forall k :: 0 <= k < n && Presented(run[k].action).Some? ==> NotForged(c, w, run, n, Presented(run[k].action).value)
  }

  /** Step k sent the envelope or presented it. */
  predicate Brings(c: Primitives, w: State, run: seq<Step>, k: nat, env: Envelope)
    requires k < |run|
  {
    SentAt(c, w, run, k) == Some(env) || Presented(run[k].action) == Some(env)
  }

  lemma ActLicense(c: Primitives, v: State, s: Step)
    ensures var l := Act(c, v, s).home.license;
      l.Some? ==>
        || (v.home.license.Some? && l.value.envelope == v.home.license.value.envelope)
        || Sent(c, v, s) == Some(l.value.envelope) || Presented(s.action) == Some(l.value.envelope)
  {
    if s.action.OfflineActivate? { OfflineMoves(c, v, s); }
    hide Sent, Served, Settings.Boot, Client.Check, Payload;
  }

  /** Whatever is in the cache was sent or presented by an earlier step. */
  lemma {:induction false} CacheHasSource(c: Primitives, w: State, run: seq<Step>, n: nat)
    requires w.home == Client.EMPTY_HOME && n <= |run| && After(c, w, run, n).home.license.Some?
    ensures exists k :: 0 <= k < n && Brings(c, w, run, k, After(c, w, run, n).home.license.value.envelope)
  {
    hide Act, Sent, Presented;
    if n > 0 {
      ActLicense(c, After(c, w, run, n - 1), run[n - 1]);
      var env := After(c, w, run, n).home.license.value.envelope;
      if Brings(c, w, run, n - 1, env) {
      } else {
        CacheHasSource(c, w, run, n - 1);
        var k :| 0 <= k < n - 1 && Brings(c, w, run, k, env);
        assert Brings(c, w, run, k, env);
      }
    }
  }

  /** As long as no foreign key was brought, the program starts exactly when the key file is there and
      the cached envelope, wherever it comes from, verifies under the server's key and is in time. */
  lemma RunsExactlyWhileVerifying(c: Primitives, w: State, run: seq<Step>, n: nat, T: Time)
    requires Sound(c) && Keyed(c, w) && w.home == Client.EMPTY_HOME && n <= |run|
    requires forall k :: 0 <= k < n ==> OwnKeys(c, w, run, k)
    ensures var v := After(c, w, run, n);
      v.home.pubkey.Some? ==> ServerKey(c, v.settings).Some?
    ensures var v := After(c, w, run, n);
      Client.Run(c, v.home, T).Ok? <==>
        && v.home.license.Some? && v.home.pubkey.Some?
        && var r := Verify(c, ServerKey(c, v.settings).value, v.home.license.value.envelope);
        && r.Ok? && T <= r.value.validUntil
    ensures var v := After(c, w, run, n);
      Client.Run(c, v.home, T).Ok? ==>
        Verify(c, ServerKey(c, v.settings).value, v.home.license.value.envelope) == Ok(Client.Run(c, v.home, T).value)
  {
    KeyFileIsOwn(c, w, run, n);
    hide After, Verify, ServerKey, DecodePublicKey;
    var v := After(c, w, run, n);
    if v.home.pubkey.Some? {
      KeysRoundTrip(c, ServerKey(c, v.settings).value);
      KeyLength(c, v.settings);
    }
  }

  /** Even with the cached license replaced by anything at any time, the program starts only on a
      token some earlier step granted, within its limits. */
  lemma TamperingGainsNothing(c: Primitives, w: State, run: seq<Step>, n: nat, T: Time)
    requires Sound(c) && Keyed(c, w) && L.Inv(w.server) && WithinLimit(w.server) && w.home == Client.EMPTY_HOME && n <= |run|
    requires forall k :: 0 <= k < n ==> OwnKeys(c, w, run, k)
    requires NoForgery(c, w, run, n)
    ensures var h := After(c, w, run, n).home;
      Client.Run(c, h, T).Ok? ==>
        var t := Client.Run(c, h, T).value;
        exists i :: 0 <= i < n && GrantedAt(c, w, run, i) == Some(t) && HeldSeat(c, w, run, i, t) && InTime(c, w, run, i, t, T)
  {
    RunsExactlyWhileVerifying(c, w, run, n, T);
    if Client.Run(c, After(c, w, run, n).home, T).Ok? {
      var t := Client.Run(c, After(c, w, run, n).home, T).value;
      CacheHasSource(c, w, run, n);
      var i := GrantBehind(c, w, run, n, After(c, w, run, n).home.license.value.envelope, t);
      GrantIsBacked(c, w, run, i, t, T);
    }
    hide After, GrantedAt, Client.Run;
  }

  /** A sent or unforged envelope that verifies carries a token the server granted. */
  lemma GrantBehind(c: Primitives, w: State, run: seq<Step>, n: nat, env: Envelope, t: Token) returns (i: nat)
    requires Sound(c) && Keyed(c, w) && n <= |run| && NoForgery(c, w, run, n)
    requires exists k :: 0 <= k < n && Brings(c, w, run, k, env)
    requires ServerKey(c, After(c, w, run, n).settings).Some?
    requires Verify(c, ServerKey(c, After(c, w, run, n).settings).value, env) == Ok(t)
    ensures i < n && GrantedAt(c, w, run, i) == Some(t)
  {
    hide After, GrantedAt, SentAt, ServerKey;
    VerifiedBytes(c, ServerKey(c, After(c, w, run, n).settings).value, env);
    var k :| 0 <= k < n && Brings(c, w, run, k, env);
    if SentAt(c, w, run, k) == Some(env) {
      EnvelopesKeepVerifying(c, w, run, k, n, env);
      i := k;
    } else {
      assert NotForged(c, w, run, n, env);
      i :| 0 <= i < n && Marshalled(c, w, run, i, env);
    }
  }

  // ---- an old copy --------------------------------------------------------------------------

  /** Putting back a copy of an envelope the server sent at any time makes the program start exactly
      until that envelope's deadline, whatever has become of the seat. */
  lemma RestoredCopyRuns(c: Primitives, w: State, run: seq<Step>, i: nat, n: nat, copy: Client.Cached, T: Time)
    requires Sound(c) && Keyed(c, w) && w.home == Client.EMPTY_HOME && i < n < |run|
    requires forall k :: 0 <= k <= n ==> OwnKeys(c, w, run, k)
    requires SentAt(c, w, run, i) == Some(copy.envelope)
    requires run[n].action == Tamper(Some(copy)) && After(c, w, run, n).home.pubkey.Some?
    ensures GrantedAt(c, w, run, i).Some?
    ensures Client.Run(c, After(c, w, run, n + 1).home, T).Ok? <==> T <= GrantedAt(c, w, run, i).value.validUntil
  {
    hide Act, GrantedAt, SentAt, Client.Run, Verify, ServerKey, Sound, Keyed, Payload, OwnKeys;
    TamperStep(c, After(c, w, run, n), run[n]);
    var v := After(c, w, run, n + 1);
    assert v.home.license == Some(copy) && v.home.pubkey.Some?;
    hide After;
    EnvelopesKeepVerifying(c, w, run, i, n + 1, copy.envelope);
    RunsExactlyWhileVerifying(c, w, run, n + 1, T);
    var r := Verify(c, ServerKey(c, v.settings).value, copy.envelope);
    assert r == Ok(GrantedAt(c, w, run, i).value);
    assert Client.Run(c, v.home, T).Ok? <==> T <= r.value.validUntil;
  }

  lemma TamperStep(c: Primitives, v: State, s: Step)
    requires s.action.Tamper?
    ensures Act(c, v, s) == v.(home := v.home.(license := s.action.license))
  {
    hide L.Serve;
  }

  /** Such a copy is no forgery. */
  lemma CopiesAreNotForged(c: Primitives, w: State, run: seq<Step>, n: nat)
    requires Sound(c) && Keyed(c, w) && n <= |run|
    requires forall k :: 0 <= k < n && Presented(run[k].action).Some? ==>
      exists i :: 0 <= i < n && SentAt(c, w, run, i) == Presented(run[k].action)
    ensures NoForgery(c, w, run, n)
  {
    forall k | 0 <= k < n && Presented(run[k].action).Some? ensures NotForged(c, w, run, n, Presented(run[k].action).value) {
      var i :| 0 <= i < n && SentAt(c, w, run, i) == Presented(run[k].action);
      SentIsMarshalled(c, After(c, w, run, i), run[i]);
      assert Marshalled(c, w, run, i, Presented(run[k].action).value);
    }
  }

  lemma SentIsMarshalled(c: Primitives, v: State, s: Step)
    requires Sent(c, v, s).Some?
    ensures var env := Sent(c, v, s).value;
      Granted(c, v, s).Some? && Base64.Decode(env.payload).Some? && c.marshal(Granted(c, v, s).value) == Base64.Decode(env.payload)
  {
    hide Granted, Base64.Decode, Base64.Encode;
    Base64.RoundTrip(c.marshal(Granted(c, v, s).value).value);
  }

  // ---- one such run -------------------------------------------------------------------------

  const FRESH := State(L.EMPTY_SERVER, map[], None, Client.EMPTY_HOME)

  /** Boot, issue a license for one device, activate, release, and put the old copy back. */
  function BackupRun(drawn: seq<byte>, key: string, device: string, copy: Client.Cached): seq<Step> {
    [Step(0, Boot(drawn)),
     Step(0, Other(L.Create("id", key, "product", "customer", 1, None))),
     Step(0, Activate(key, device, "", "", true, true)),
     Step(0, Deactivate(true)),
     Step(0, Tamper(Some(copy)))]
  }

  function BackupServer(key: string): L.Server {
    L.Server(map[key := License("id", key, "product", "customer", 1, None, None, 0)], EMPTY_TABLE, [])
  }

  /** The token of the activation. */
  function BackupToken(key: string, device: string): Token {
    Token(key, "product", "customer", device, 1, 1, Active, 0, ONLINE_GRACE_PERIOD, None, false)
  }

  function BackupCopy(c: Primitives, drawn: seq<byte>, key: string, device: string): Client.Cached
    requires c.marshal(BackupToken(key, device)).Some?
  {
    Client.Cached(Sign(c, drawn, BackupToken(key, device)).value, device, "")
  }

  lemma BootStep(c: Primitives, drawn: seq<byte>)
    requires |drawn| == SEED_SIZE
    ensures var v := Act(c, FRESH, Step(0, Boot(drawn)));
      v.keys == Some((drawn, c.publicKey(drawn))) && v.server == L.EMPTY_SERVER && v.home == Client.EMPTY_HOME
  {
    KeysRoundTrip(c, drawn);
    hide Base64.Encode, Base64.Decode;
  }

  lemma CreateStep(c: Primitives, v: State, key: string)
    requires v.server == L.EMPTY_SERVER && v.keys.Some?
    ensures Act(c, v, Step(0, Other(L.Create("id", key, "product", "customer", 1, None)))) == v.(server := BackupServer(key))
  {
  }

  lemma ActivateStep(c: Primitives, v: State, drawn: seq<byte>, key: string, device: string)
    requires Sound(c) && |drawn| == SEED_SIZE && key != "" && device != "" && c.marshal(BackupToken(key, device)).Some?
    requires v.server == BackupServer(key) && v.keys == Some((drawn, c.publicKey(drawn))) && v.home == Client.EMPTY_HOME
    ensures var s := Step(0, Activate(key, device, "", "", true, true));
      var v' := Act(c, v, s);
      && Granted(c, v, s) == Some(BackupToken(key, device))
      && Sent(c, v, s) == Some(BackupCopy(c, drawn, key, device).envelope)
      && v'.home == Client.Home(Some(BackupCopy(c, drawn, key, device)), Some(EncodePublicKey(c.publicKey(drawn))))
      && L.Inv(v'.server) && key in v'.server.licenses && L.HoldersOf(v'.server, key) == {device} && v'.keys == v.keys
  {
    ServerGrants(key, device);
    hide L.Serve, L.HoldersOf, L.Inv, BackupToken, Base64.Encode, Client.Check, BackupServer;
  }

  lemma ServerGrants(key: string, device: string)
    ensures var s := BackupServer(key);
      var (s', reply) := L.Serve(s, 0, L.Activate(key, device, "", false));
      && reply == L.Granted(BackupToken(key, device))
      && L.Inv(s') && key in s'.licenses && L.HoldersOf(s', key) == {device}
  {
    var s, req := BackupServer(key), L.Activate(key, device, "", false);
    assert L.HoldersOf(s, key) == {};
    L.ActivateReply(s, 0, key, device, "", false);
    L.ServeKeepsInv(s, 0, req);
    L.ServeHolders(s, 0, req, key);
    L.ActivateSigns(s, 0, key, device, "", false);
    hide L.Inv, L.Admit;
  }

  lemma ReleaseStep(c: Primitives, v: State, drawn: seq<byte>, key: string, device: string)
    requires Sound(c) && |drawn| == SEED_SIZE && key != "" && device != "" && c.marshal(BackupToken(key, device)).Some?
    requires v.keys.Some? && v.home.license == Some(BackupCopy(c, drawn, key, device))
    requires L.Inv(v.server) && key in v.server.licenses && L.HoldersOf(v.server, key) == {device}
    ensures var v' := Act(c, v, Step(0, Deactivate(true)));
      v'.home == v.home.(license := None) && L.HoldersOf(v'.server, key) == {}
  {
    SignThenVerify(c, drawn, BackupToken(key, device));
    L.ServeHolders(v.server, 0, L.Deactivate(key, device), key);
    assert device in L.HoldersOf(v.server, key);
    hide Base64.Encode, Sign, L.Inv;
  }

  /** The hypotheses of the theorems above hold of a run in which a released device's old copy is put
      back: the program starts with it until the old deadline, though the device holds no seat. */
  lemma CopyOutlivesRelease(c: Primitives, drawn: seq<byte>, key: string, device: string, T: Time)
    requires Sound(c) && |drawn| == SEED_SIZE && key != "" && device != "" && c.marshal(BackupToken(key, device)).Some?
    ensures Keyed(c, FRESH) && L.Inv(FRESH.server) && WithinLimit(FRESH.server) && FRESH.home == Client.EMPTY_HOME
    ensures var run := BackupRun(drawn, key, device, BackupCopy(c, drawn, key, device));
      var v := After(c, FRESH, run, 5);
      && (forall k :: 0 <= k < 5 ==> OwnKeys(c, FRESH, run, k)) && NoForgery(c, FRESH, run, 5)
      && L.HoldersOf(v.server, key) == {}
      && (Client.Run(c, v.home, T).Ok? <==> T <= ONLINE_GRACE_PERIOD)
  {
    hide After, SentAt, GrantedAt, Client.Run, BackupCopy, L.HoldersOf, L.Inv, WithinLimit, Sound, Keyed, OwnKeys, NoForgery;
    FreshIsFine(c);
    BackupStates(c, drawn, key, device);
    var copy := BackupCopy(c, drawn, key, device);
    var run := BackupRun(drawn, key, device, copy);
    BackupIsFair(c, drawn, key, device);
    RestoredCopyRuns(c, FRESH, run, 2, 4, copy, T);
  }

  lemma FreshIsFine(c: Primitives)
    ensures Keyed(c, FRESH) && L.Inv(FRESH.server) && WithinLimit(FRESH.server)
  {
    L.EmptyInv();
  }

  lemma BackupIsFair(c: Primitives, drawn: seq<byte>, key: string, device: string)
    requires Sound(c) && c.marshal(BackupToken(key, device)).Some? && Keyed(c, FRESH)
    requires var copy := BackupCopy(c, drawn, key, device);
      SentAt(c, FRESH, BackupRun(drawn, key, device, copy), 2) == Some(copy.envelope)
    ensures var run := BackupRun(drawn, key, device, BackupCopy(c, drawn, key, device));
      (forall k :: 0 <= k < 5 ==> OwnKeys(c, FRESH, run, k)) && NoForgery(c, FRESH, run, 5)
  {
    hide After, SentAt, BackupCopy, Sound, Keyed, NoForgery, ServersOwn;
    var run := BackupRun(drawn, key, device, BackupCopy(c, drawn, key, device));
    forall k | 0 <= k < 5 && Presented(run[k].action).Some? ensures k == 4 {
    }
    CopiesAreNotForged(c, FRESH, run, 5);
  }

  /** The states the run goes through. */
  lemma BackupStates(c: Primitives, drawn: seq<byte>, key: string, device: string)
    requires Sound(c) && |drawn| == SEED_SIZE && key != "" && device != "" && c.marshal(BackupToken(key, device)).Some?
    ensures var copy := BackupCopy(c, drawn, key, device);
      var run := BackupRun(drawn, key, device, copy);
      && SentAt(c, FRESH, run, 2) == Some(copy.envelope) && GrantedAt(c, FRESH, run, 2) == Some(BackupToken(key, device))
      && After(c, FRESH, run, 4).home.pubkey.Some?
      && L.HoldersOf(After(c, FRESH, run, 5).server, key) == {}
  {
    var copy := BackupCopy(c, drawn, key, device);
    var run := BackupRun(drawn, key, device, copy);
    BootStep(c, drawn);
    var v1 := Act(c, FRESH, run[0]);
    CreateStep(c, v1, key);
    var v2 := Act(c, v1, run[1]);
    ActivateStep(c, v2, drawn, key, device);
    var v3 := Act(c, v2, run[2]);
    ReleaseStep(c, v3, drawn, key, device);
    var v4 := Act(c, v3, run[3]);
    TamperStep(c, v4, run[4]);
    hide Act, Sent, Granted, BackupCopy, BackupToken, L.HoldersOf, L.Inv, BackupServer;
    assert After(c, FRESH, run, 0) == FRESH;
    assert After(c, FRESH, run, 1) == v1;
    assert After(c, FRESH, run, 2) == v2;
    assert After(c, FRESH, run, 3) == v3;
    assert After(c, FRESH, run, 4) == v4;
  }

  /** There are primitives that keep what Sound asks and have a text for the token of such a run. */
  lemma SomePrimitives(t: Token) returns (c: Primitives)
    ensures Sound(c) && c.marshal(t).Some?
  {
    c := Primitives(
      seed => seed, (seed, data) => seed + data, (pub, data, sig) => sig == pub + data,
      x => if x == t then Some([]) else None, data => if data == [] then Some(t) else None);
  }
}
