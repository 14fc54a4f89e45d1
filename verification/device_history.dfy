/** Every device row, field by field, from the replies alone: one small automaton for each device
    of a license, and the whole table is the product of them. */
module DeviceHistory {
  import opened Common
  import opened Models
  import opened Licensing
  import opened SeatTheorems

  /** The life of one device on one license since it last took a seat. */
  datatype Trace = Trace(name: string, taken: Time, seen: Time, released: Option<Time>)

  predicate About(req: Request, key: string, device: string) {
    (req.Activate? || req.Validate? || req.Deactivate?) && req.key == key && req.device == device
  }

  /** A grant to a device without a seat starts its life anew, a grant to a holder is one more
      contact, and a release closes it. */
  function NextTrace(p: Option<Trace>, now: Time, req: Request, reply: Reply): Option<Trace> {
    if reply.Granted? then
      if p.Some? && p.value.released.None? then Some(p.value.(seen := now))
      else Some(Trace(if req.Activate? then req.name else "", now, now, None))
    else if reply.Done? && p.Some? then Some(p.value.(released := Some(now)))
    else p
  }

  /** What the replies of the first n requests say of a device. */
  function TraceOf(run: Run, n: nat, key: string, device: string): Option<Trace>
    requires n <= |run|
  {
    if n == 0 then None
    else
      var p, step := TraceOf(run, n - 1, key, device), run[n - 1];
      if About(step.req, key, device) then NextTrace(p, step.now, step.req, ReplyAt(EMPTY_SERVER, run, n - 1)) else p
  }

  function RowFor(rowId: nat, licenseId: string, device: string, t: Trace): Device {
    Device(rowId, licenseId, device, t.name, t.taken, t.seen, t.released)
  }

  /** The device has a row exactly when it has a life, and the row records that life. */
  ghost predicate Matches(s: Server, p: Option<Trace>, key: string, device: string) {
    if key !in s.licenses then p.None?
    else
      var k := (s.licenses[key].id, device);
      && (k in s.devices.rows <==> p.Some?)
      && (p.Some? ==> s.devices.rows[k] == RowFor(s.devices.rows[k].id, k.0, k.1, p.value))
  }

  lemma ForeignDevice(s: Server, now: Time, req: Request, key: string, device: string)
    requires Inv(s) && key in s.licenses && !About(req, key, device)
    ensures var k, t, t' := (s.licenses[key].id, device), s.devices, Serve(s, now, req).0.devices;
      (k in t'.rows <==> k in t.rows) && (k in t.rows ==> t'.rows[k] == t.rows[k])
  {
    hide Serve;
    ServeStatement(s, now, req);
    if (req.Activate? || req.Validate? || req.Deactivate?) && req.key in s.licenses { SameId(s.licenses, req.key, key); }
  }

  lemma OwnActivation(s: Server, p: Option<Trace>, now: Time, key: string, device: string, name: string, offline: bool)
    requires Inv(s) && key in s.licenses && Matches(s, p, key, device)
    ensures var (s', reply) := DoActivate(s, now, key, device, name, offline);
      Matches(s', NextTrace(p, now, Activate(key, device, name, offline), reply), key, device)
  {
  }

  lemma OwnValidation(s: Server, p: Option<Trace>, now: Time, key: string, device: string)
    requires Inv(s) && key in s.licenses && Matches(s, p, key, device)
    ensures var (s', reply) := DoValidate(s, now, key, device);
      Matches(s', NextTrace(p, now, Validate(key, device), reply), key, device)
  {
  }

  lemma OwnRelease(s: Server, p: Option<Trace>, now: Time, key: string, device: string)
    requires Inv(s) && key in s.licenses && Matches(s, p, key, device)
    ensures var (s', reply) := DoDeactivate(s, now, key, device);
      Matches(s', NextTrace(p, now, Deactivate(key, device), reply), key, device)
  {
  }

  lemma StepMatches(s: Server, p: Option<Trace>, now: Time, req: Request, key: string, device: string)
    requires Inv(s) && Matches(s, p, key, device)
    ensures var (s', reply) := Serve(s, now, req);
      Matches(s', if About(req, key, device) then NextTrace(p, now, req, reply) else p, key, device)
  {
    hide DoActivate, DoValidate, DoDeactivate, NextTrace;
    if key !in s.licenses {
      UnknownKey(s, now, req, key, device);
    } else if !About(req, key, device) {
      ServeKeepsTerms(s, now, req, key);
      ForeignDevice(s, now, req, key, device);
    } else {
      match req {
        case Activate(_, _, name, offline) => OwnActivation(s, p, now, key, device, name, offline);
        case Validate(_, _) => OwnValidation(s, p, now, key, device);
        case Deactivate(_, _) => OwnRelease(s, p, now, key, device);
      }
    }
  }

  lemma UnknownKey(s: Server, now: Time, req: Request, key: string, device: string)
    requires Inv(s) && key !in s.licenses
    ensures var (s', reply) := Serve(s, now, req);
      && (About(req, key, device) ==> NextTrace(None, now, req, reply).None?)
      && Matches(s', None, key, device)
  {
    if key in Serve(s, now, req).0.licenses {
      NewKey(s, now, req, key);
    }
  }

  /** After any run from an empty server, the row of every device of every license is exactly what
      the replies to that device say: its name and activation from the grant that last gave it a
      seat, its last contact from the last grant, its release from the last release since. */
  lemma {:induction false} RowsTellTheirHistory(run: Run, n: nat, key: string, device: string)
    requires n <= |run|
    ensures Matches(After(EMPTY_SERVER, run, n), TraceOf(run, n, key, device), key, device)
  {
    hide Serve, NextTrace;
    if n > 0 {
      RowsTellTheirHistory(run, n - 1, key, device);
      EmptyInv();
      AfterKeepsInv(EMPTY_SERVER, run, n - 1);
      StepMatches(After(EMPTY_SERVER, run, n - 1), TraceOf(run, n - 1, key, device), run[n - 1].now, run[n - 1].req, key, device);
    }
  }

  /** So the replies alone tell who holds a seat: exactly the devices granted one and not released. */
  lemma RepliesTellHolders(run: Run, n: nat, key: string, device: string)
    requires n <= |run|
    ensures device in HoldersOf(After(EMPTY_SERVER, run, n), key) <==>
      TraceOf(run, n, key, device).Some? && TraceOf(run, n, key, device).value.released.None?
  {
    RowsTellTheirHistory(run, n, key, device);
    hide After, TraceOf;
  }
}
