/** The licensing service over its two tables (license/service.go), statement by statement. */
module Service {
  import opened Common
  import opened Models
  import opened Seats
  import LicenseStore
  import opened Licensing
  import Crypto

  /** What the caller gets: a signed token, or the reason there is none. A token whose JSON form
      cannot be built is reported after the seat has been taken. */
  datatype Answer = Signed(env: Crypto.Envelope) | Plain(reply: Reply) | SigningFailed(error: Crypto.CryptoError)

  function Answered(c: Crypto.Primitives, seed: seq<byte>, reply: Reply): Answer {
    if reply.Granted? then
      match Crypto.Sign(c, seed, reply.token)
      case Ok(env) => Signed(env)
      case Err(e) => SigningFailed(e)
    else Plain(reply)
  }

  /** The answer to a request that the rules grant at the new state s: a signed token, which verifies
      under the public key of the seed and tells the truth, or a failure to marshal just that token. */
  ghost predicate Grants(c: Crypto.Primitives, seed: seq<byte>, r: Answer, s: Server, now: Time, key: string, device: string, offline: bool) {
    exists t :: Truthful(t, s, now, key, device) && t.offline == offline && Carries(c, seed, r, t)
  }

  ghost predicate Carries(c: Crypto.Primitives, seed: seq<byte>, r: Answer, t: Token) {
    if c.marshal(t).Some? then r.Signed? && Crypto.Verify(c, c.publicKey(seed), r.env) == Ok(t)
    else r == SigningFailed(Crypto.Unmarshallable)
  }

  /** A granted reply is answered with its own token. */
  lemma AnswerCarries(c: Crypto.Primitives, seed: seq<byte>, t: Token)
    requires Crypto.Sound(c) && |seed| == Crypto.SEED_SIZE
    ensures Carries(c, seed, Answered(c, seed, Granted(t)), t)
  {
    Crypto.SignThenVerify(c, seed, t);
    hide Crypto.Sound, Crypto.Verify;
  }

  /** What an activation answers, in terms of key, status and seats before it, and s' after it. */
  ghost predicate ActivateSays(c: Crypto.Primitives, seed: seq<byte>, s: Server, s': Server, r: Answer,
                               now: Time, key: string, device: string, offline: bool)
  {
    if !OpenAt(s, now, key) then r.Plain? && Closed(s, now, key, r.reply) && s' == s
    else if device in HoldersOf(s, key) || |HoldersOf(s, key)| < s.licenses[key].maxDevices then
      Grants(c, seed, r, s', now, key, device, offline)
    else r == Plain(DeviceLimit) && s' == s
  }

  /** What a validation answers. */
  ghost predicate ValidateSays(c: Crypto.Primitives, seed: seq<byte>, s: Server, s': Server, r: Answer,
                               now: Time, key: string, device: string)
  {
    if !OpenAt(s, now, key) then r.Plain? && Closed(s, now, key, r.reply) && s' == s
    else if device in HoldersOf(s, key) then Grants(c, seed, r, s', now, key, device, false)
    else r == Plain(NotFound) && s' == s
  }

  /** Tables in order, rows of stored licenses only, and a working key. */
  ghost predicate Ready(c: Crypto.Primitives, seed: seq<byte>, s: Server) {
    Inv(s) && Crypto.Sound(c) && |seed| == 32
  }

  lemma ActivateAnswer(c: Crypto.Primitives, seed: seq<byte>, s: Server, now: Time, key: string, device: string, name: string, offline: bool)
    requires Ready(c, seed, s)
    ensures var (s', reply) := DoActivate(s, now, key, device, name, offline);
      Ready(c, seed, s') && ActivateSays(c, seed, s, s', Answered(c, seed, reply), now, key, device, offline)
  {
    ActivateReply(s, now, key, device, name, offline);
    ServeKeepsInv(s, now, Licensing.Activate(key, device, name, offline));
    var (s', reply) := DoActivate(s, now, key, device, name, offline);
    if reply.Granted? {
      GrantedToken(s, now, Licensing.Activate(key, device, name, offline));
      AnswerCarries(c, seed, reply.token);
    } else {
      RefusedActivation(s, now, key, device, name, offline);
    }
    hide DoActivate, Inv, Crypto.Sound, Carries, Truthful;
  }

  lemma ValidateAnswer(c: Crypto.Primitives, seed: seq<byte>, s: Server, now: Time, key: string, device: string)
    requires Ready(c, seed, s)
    ensures var (s', reply) := DoValidate(s, now, key, device);
      Ready(c, seed, s') && ValidateSays(c, seed, s, s', Answered(c, seed, reply), now, key, device)
  {
    ValidateReply(s, now, key, device);
    ServeKeepsInv(s, now, Licensing.Validate(key, device));
    var (s', reply) := DoValidate(s, now, key, device);
    if reply.Granted? {
      GrantedToken(s, now, Licensing.Validate(key, device));
      AnswerCarries(c, seed, reply.token);
    }
    hide DoValidate, Inv, Crypto.Sound, Carries, Truthful;
  }

  lemma RefusalsArePlain(c: Crypto.Primitives, seed: seq<byte>)
    ensures forall reply: Reply :: !reply.Granted? ==> Answered(c, seed, reply) == Plain(reply)
  {
  }

  class LicenseService {
    const licenses: LicenseStore.LicenseTable
    const devices: DeviceTable
    const primitives: Crypto.Primitives
    const seed: seq<byte>
    var events: seq<Event>

    ghost predicate Valid() reads this, licenses, devices {
      licenses.Valid() && devices.Valid()
    }

    ghost function Contents(): Server
      reads this, licenses, devices
      requires Valid()
    {
      Server(licenses.Contents(), devices.Contents(), events)
    }

    constructor (primitives: Crypto.Primitives, seed: seq<byte>)
      ensures Valid() && Contents() == EMPTY_SERVER
      ensures fresh(licenses) && fresh(devices)
      ensures this.primitives == primitives && this.seed == seed
    {
      var l := new LicenseStore.LicenseTable();
      var d := new DeviceTable();
      this.licenses, this.devices := l, d;
      this.primitives, this.seed := primitives, seed;
      this.events := [];
    }

    method Sign(l: License, device: string, seatsUsed: nat, now: Time, offline: bool) returns (r: Answer)
      ensures r == Answered(primitives, seed, Granted(Licensing.Sign(l, device, seatsUsed, now, offline)))
    {
      var validUntil := now + ONLINE_GRACE_PERIOD;
      if offline {
        validUntil := now + OFFLINE_HORIZON;
      }
      if l.expiresAt.Some? && l.expiresAt.value < validUntil {
        validUntil := l.expiresAt.value;
      }
      var token := Token(l.key, l.product, l.customer, device, l.maxDevices, seatsUsed,
                         l.Status(now), now, validUntil, l.expiresAt, offline);
      match Crypto.Sign(primitives, seed, token)
      case Ok(env) => r := Signed(env);
      case Err(e) => r := SigningFailed(e);
    }

    method Notify(kind: EventKind, l: License, device: string, now: Time)
      requires Valid()
      modifies this
      ensures Valid() && Contents() == Licensing.Notify(old(Contents()), kind, l, device, now)
    {
      events := events + [Event(kind, l.key, l.product, l.customer, device, now)];
    }

    /** Count, compare with the limit, then insert or revive. */
    method TakeSeat(l: License, device: string, name: string, now: Time) returns (ok: bool)
      requires Valid()
      modifies this, devices
      ensures Valid() && licenses.Contents() == old(licenses.Contents())
      ensures ok == (|Holders(old(devices.Contents()), l.id)| < l.maxDevices)
      ensures if ok then Contents() == Licensing.Notify(
          old(Contents()).(devices := Upsert(old(devices.Contents()), l.id, device, name, now)), Activation, l, device, now)
        else Contents() == old(Contents())
    {
      var count := devices.ActiveDeviceCount(l.id);
      if count >= l.maxDevices {
        return false;
      }
      var d := devices.ActivateDevice(l.id, device, name, now);
      Notify(Activation, l, device, now);
      ok := true;
    }

    /** A device with a seat is touched, any other needs one. */
    method Admit(l: License, device: string, name: string, now: Time) returns (ok: bool)
      requires Valid()
      modifies this, devices
      ensures Valid() && licenses.Contents() == old(licenses.Contents())
      ensures (Contents(), ok) == Licensing.Admit(old(Contents()), l, device, name, now)
    {
      var dev := devices.GetActiveDevice(l.id, device);
      if dev.None? {
        ok := TakeSeat(l, device, name, now);
      } else {
        devices.TouchDevice(dev.value.id, now);
        ok := true;
      }
    }

    /** Online and offline activation. */
    method Activate(key: string, device: string, name: string, offline: bool, now: Time) returns (r: Answer)
      requires Valid()
      modifies this, devices
      ensures Valid()
      ensures Contents() == DoActivate(old(Contents()), now, key, device, name, offline).0
      ensures r == Answered(primitives, seed, DoActivate(old(Contents()), now, key, device, name, offline).1)
      ensures Ready(primitives, seed, old(Contents())) ==>
        && Ready(primitives, seed, Contents())
        && ActivateSays(primitives, seed, old(Contents()), Contents(), r, now, key, device, offline)
    {
      hide ActivateSays, Ready, Answered;
      RefusalsArePlain(primitives, seed);
      if Ready(primitives, seed, Contents()) { ActivateAnswer(primitives, seed, Contents(), now, key, device, name, offline); }
      var found := licenses.GetLicenseByKey(key);
      if found.None? {
        return Plain(NotFound);
      }
      var l := found.value;
      if l.Status(now) != Active {
        return Plain(NotActive(l.Status(now)));
      }
      var ok := Admit(l, device, name, now);
      if !ok {
        return Plain(DeviceLimit);
      }
      var seats := devices.ActiveDeviceCount(l.id);
      r := Sign(l, device, seats, now, offline);
    }

    /** A device with a seat is touched. */
    method Refresh(l: License, device: string, now: Time) returns (ok: bool)
      requires Valid()
      modifies devices
      ensures Valid() && licenses.Contents() == old(licenses.Contents())
      ensures ok == (device in Holders(old(devices.Contents()), l.id))
      ensures devices.Contents() == if ok then Touch(old(devices.Contents()), (l.id, device), now) else old(devices.Contents())
    {
      var dev := devices.GetActiveDevice(l.id, device);
      if dev.None? {
        return false;
      }
      devices.TouchDevice(dev.value.id, now);
      ok := true;
    }

    method Validate(key: string, device: string, now: Time) returns (r: Answer)
      requires Valid()
      modifies devices
      ensures Valid()
      ensures Contents() == DoValidate(old(Contents()), now, key, device).0
      ensures r == Answered(primitives, seed, DoValidate(old(Contents()), now, key, device).1)
      ensures Ready(primitives, seed, old(Contents())) ==>
        && Ready(primitives, seed, Contents())
        && ValidateSays(primitives, seed, old(Contents()), Contents(), r, now, key, device)
    {
      hide ValidateSays, Ready, Answered;
      RefusalsArePlain(primitives, seed);
      if Ready(primitives, seed, Contents()) { ValidateAnswer(primitives, seed, Contents(), now, key, device); }
      var found := licenses.GetLicenseByKey(key);
      if found.None? {
        return Plain(NotFound);
      }
      var l := found.value;
      if l.Status(now) != Active {
        return Plain(NotActive(l.Status(now)));
      }
      var ok := Refresh(l, device, now);
      if !ok {
        return Plain(NotFound);
      }
      var seats := devices.ActiveDeviceCount(l.id);
      r := Sign(l, device, seats, now, false);
    }

    method Deactivate(key: string, device: string, now: Time) returns (r: Answer)
      requires Valid()
      modifies this, devices
      ensures Valid()
      ensures Contents() == DoDeactivate(old(Contents()), now, key, device).0
      ensures r == Plain(DoDeactivate(old(Contents()), now, key, device).1)
      ensures r == Plain(if device in HoldersOf(old(Contents()), key) then Done else NotFound)
    {
      var found := licenses.GetLicenseByKey(key);
      if found.None? {
        return Plain(NotFound);
      }
      var l := found.value;
      var ok := devices.DeactivateDevice(l.id, device, now);
      if !ok {
        return Plain(NotFound);
      }
      Notify(Deactivation, l, device, now);
      r := Plain(Done);
    }
  }
}
