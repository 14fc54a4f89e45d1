/** The reference client (cmd/democli/main.go): the two files it keeps, the commands that write
    them, and the offline decision to run. Replies from the server are arguments. */
module Client {
  import opened Common
  import opened Models
  import opened Crypto

  datatype Cached = Cached(envelope: Envelope, deviceId: string, server: string)

  /** license.json and pubkey.txt. */
  datatype Home = Home(license: Option<Cached>, pubkey: Option<string>)

  const EMPTY_HOME := Home(None, None)

  datatype Failure =
    | MissingArgument
    | Rejected                    // no usable reply from the server
    | NotActivated
    | NoPublicKey
    | Corrupt
    | BadSignature(error: CryptoError)
    | TokenExpired(offline: bool)

  /** What printToken checks before it prints. */
  function Check(c: Primitives, pub: string, env: Envelope): Result<Token, Failure> {
    match DecodePublicKey(pub)
    case Err(e) => Err(BadSignature(e))
    case Ok(key) =>
      match Verify(c, key, env)
      case Err(e) => Err(BadSignature(e))
      case Ok(t) => Ok(t)
  }

  /** The envelope comes back first, then the public key; both files are written before the check. */
  function Activate(c: Primitives, h: Home, key: string, device: string, server: string,
                    reply: Option<Envelope>, pub: Option<string>): (Home, Result<Token, Failure>)
  {
    if key == "" || device == "" then (h, Err(MissingArgument))
    else if reply.None? || pub.None? then (h, Err(Rejected))
    else (Home(Some(Cached(reply.value, device, server)), pub), Check(c, pub.value, reply.value))
  }

  /** The license key and device a validation or deactivation asks about. */
  function Identity(c: Primitives, h: Home): Result<(string, string), Failure> {
    if h.license.None? then Err(NotActivated)
    else
      match Payload(c, h.license.value.envelope)
      case None => Err(Corrupt)
      case Some(t) => Ok((t.licenseKey, h.license.value.deviceId))
  }

  function Validate(c: Primitives, h: Home, reply: Option<Envelope>): (Home, Result<Token, Failure>) {
    match Identity(c, h)
    case Err(e) => (h, Err(e))
    case Ok(_) =>
      if reply.None? then (h, Err(Rejected))
      else
        var h' := h.(license := Some(h.license.value.(envelope := reply.value)));
        (h', if h.pubkey.None? then Err(NoPublicKey) else Check(c, h.pubkey.value, reply.value))
  }

  function Deactivate(c: Primitives, h: Home, done: bool): (Home, Result<(), Failure>) {
    match Identity(c, h)
    case Err(e) => (h, Err(e))
    case Ok(_) => if done then (h.(license := None), Ok(())) else (h, Err(Rejected))
  }

  /** The decision taken at every start of the licensed program, without any server. */
  function Run(c: Primitives, h: Home, now: Time): Result<Token, Failure> {
    if h.license.None? then Err(NotActivated)
    else if h.pubkey.None? then Err(NoPublicKey)
    else
      match Check(c, h.pubkey.value, h.license.value.envelope)
      case Err(e) => Err(e)
      case Ok(t) => if now > t.validUntil then Err(TokenExpired(t.offline)) else Ok(t)
  }

  /** A file from the vendor is cached only once it verifies. */
  function OfflineActivate(c: Primitives, h: Home, file: Option<Envelope>, pubArg: string): (Home, Result<Token, Failure>) {
    if file.None? then (h, Err(Rejected))
    else if pubArg == "" && h.pubkey.None? then (h, Err(NoPublicKey))
    else
      var pub := if pubArg == "" then h.pubkey.value else pubArg;
      match Check(c, pub, file.value)
      case Err(e) => (h, Err(e))
      case Ok(t) => (Home(Some(Cached(file.value, t.deviceId, "")), Some(pub)), Ok(t))
  }

  /** Why the program does not start, case by case and in this order. */
  lemma RunRefusals(c: Primitives, h: Home, now: Time)
    ensures Run(c, h, now) == Err(NotActivated) <==> h.license.None?
    ensures Run(c, h, now) == Err(NoPublicKey) <==> h.license.Some? && h.pubkey.None?
    ensures h.license.Some? && h.pubkey.Some? ==>
      var key := DecodePublicKey(h.pubkey.value);
      && (key.Err? ==> Run(c, h, now) == Err(BadSignature(key.error)))
      && (key.Ok? ==>
            var r := Verify(c, key.value, h.license.value.envelope);
            && (r.Err? ==> Run(c, h, now) == Err(BadSignature(r.error)))
            && (r.Ok? && now <= r.value.validUntil ==> Run(c, h, now) == Ok(r.value))
            && (r.Ok? && now > r.value.validUntil ==> Run(c, h, now) == Err(TokenExpired(r.value.offline))))
  {
    hide DecodePublicKey, Verify;
  }

  /** An activation writes both files before it checks the signature, so a reply that does not verify is
      cached all the same; a file from the vendor that does not is not. */
  lemma WrittenBeforeChecked(c: Primitives, h: Home, key: string, device: string, server: string, env: Envelope, pub: string)
    requires Check(c, pub, env).Err? && key != "" && device != ""
    ensures Activate(c, h, key, device, server, Some(env), Some(pub))
      == (Home(Some(Cached(env, device, server)), Some(pub)), Err(Check(c, pub, env).error))
    ensures pub != "" ==> OfflineActivate(c, h, Some(env), pub) == (h, Err(Check(c, pub, env).error))
    ensures OfflineActivate(c, h.(pubkey := Some(pub)), Some(env), "") == (h.(pubkey := Some(pub)), Err(Check(c, pub, env).error))
  {
    hide Check;
  }

  /** What a file from the vendor is refused for before it is checked. */
  lemma OfflineRefusals(c: Primitives, h: Home, file: Option<Envelope>, pubArg: string)
    ensures file.None? ==> OfflineActivate(c, h, file, pubArg) == (h, Err(Rejected))
    ensures file.Some? && pubArg == "" && h.pubkey.None? ==> OfflineActivate(c, h, file, pubArg) == (h, Err(NoPublicKey))
    ensures file.Some? && pubArg != "" && Check(c, pubArg, file.value).Ok? ==>
      OfflineActivate(c, h, file, pubArg).1 == Ok(Check(c, pubArg, file.value).value)
  {
    hide Check;
  }

  class ClientHome {
    const primitives: Primitives
    var license: Option<Cached>
    var pubkey: Option<string>

    ghost function Files(): Home reads this {
      Home(license, pubkey)
    }

    constructor (primitives: Primitives)
      ensures Files() == EMPTY_HOME && this.primitives == primitives
    {
      this.primitives := primitives;
      license, pubkey := None, None;
    }

    method CmdActivate(key: string, device: string, server: string, reply: Option<Envelope>, pub: Option<string>)
      returns (r: Result<Token, Failure>)
      modifies this
      ensures (Files(), r) == Activate(primitives, old(Files()), key, device, server, reply, pub)
    {
      if key == "" || device == "" {
        return Err(MissingArgument);
      }
      if reply.None? || pub.None? {
        return Err(Rejected);
      }
      pubkey := pub;
      license := Some(Cached(reply.value, device, server));
      r := Check(primitives, pub.value, reply.value);
    }

    method CmdValidate(reply: Option<Envelope>) returns (r: Result<Token, Failure>)
      modifies this
      ensures (Files(), r) == Validate(primitives, old(Files()), reply)
    {
      if license.None? {
        return Err(NotActivated);
      }
      var st := license.value;
      var token := Payload(primitives, st.envelope);
      if token.None? {
        return Err(Corrupt);
      }
      if reply.None? {
        return Err(Rejected);
      }
      license := Some(st.(envelope := reply.value));
      if pubkey.None? {
        return Err(NoPublicKey);
      }
      r := Check(primitives, pubkey.value, reply.value);
    }

    method CmdDeactivate(done: bool) returns (r: Result<(), Failure>)
      modifies this
      ensures (Files(), r) == Deactivate(primitives, old(Files()), done)
    {
      if license.None? {
        return Err(NotActivated);
      }
      if Payload(primitives, license.value.envelope).None? {
        return Err(Corrupt);
      }
      if !done {
        return Err(Rejected);
      }
      license := None;
      r := Ok(());
    }

    method CmdRun(now: Time) returns (r: Result<Token, Failure>)
      ensures r == Run(primitives, Files(), now)
    {
      if license.None? {
        return Err(NotActivated);
      }
      if pubkey.None? {
        return Err(NoPublicKey);
      }
      r := Check(primitives, pubkey.value, license.value.envelope);
      if r.Ok? && now > r.value.validUntil {
        r := Err(TokenExpired(r.value.offline));
      }
    }

    method CmdOfflineActivate(file: Option<Envelope>, pubArg: string) returns (r: Result<Token, Failure>)
      modifies this
      ensures (Files(), r) == OfflineActivate(primitives, old(Files()), file, pubArg)
    {
      if file.None? {
        return Err(Rejected);
      }
      var pub := pubArg;
      if pub == "" {
        if pubkey.None? {
          return Err(NoPublicKey);
        }
        pub := pubkey.value;
      }
      r := Check(primitives, pub, file.value);
      if r.Ok? {
        pubkey := Some(pub);
        license := Some(Cached(file.value, r.value.deviceId, ""));
      }
    }
  }
}
