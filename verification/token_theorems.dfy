/** What the tokens issued in a run of atomic requests promise: their deadlines, how many devices
    can hold a live one, and how revoking or releasing cuts access off. */
module TokenTheorems {
  import opened Common
  import opened Models
  import opened Licensing
  import opened SeatTheorems
  import Allocation

  /** The device held a seat of an active license when the token was issued, and the token says so. */
  lemma IssuedToHolder(s: Server, run: Run, i: nat, t: Token)
    requires Inv(s) && WithinLimit(s) && i < |run| && Issued(s, run, i, t)
    ensures Truthful(t, After(s, run, i + 1), run[i].now, t.licenseKey, t.deviceId)
    ensures t.licenseKey in After(s, run, i).licenses
    ensures After(s, run, i + 1).licenses == After(s, run, i).licenses
    ensures t.issuedAt == run[i].now && 1 <= t.seatsUsed <= t.seatsMax
    ensures (run[i].req.Activate? || run[i].req.Validate?) && run[i].req.key == t.licenseKey && run[i].req.device == t.deviceId
    ensures t.offline == (run[i].req.Activate? && run[i].req.offline)
  {
    hide Serve;
    AfterKeepsInv(s, run, i);
    GrantedToken(After(s, run, i), run[i].now, run[i].req);
    SeatLimit(s, run, i + 1);
  }

  /** IssuedAt <= ValidUntil <= the license's expiry, and never beyond the horizon of its kind. */
  lemma Deadlines(s: Server, run: Run, i: nat, t: Token)
    requires Inv(s) && WithinLimit(s) && i < |run| && Issued(s, run, i, t)
    ensures t.issuedAt <= t.validUntil <= t.issuedAt + Horizon(t.offline)
    ensures t.licenseExp.Some? ==> t.validUntil <= t.licenseExp.value
    ensures t.licenseKey in After(s, run, i).licenses && t.licenseExp == After(s, run, i).licenses[t.licenseKey].expiresAt
  {
    hide Serve;
    IssuedToHolder(s, run, i, t);
  }

  /** A later token of the same license never has the earlier deadline, unless it is an online one
      after an offline one; and at the same instant an offline one is never the shorter. */
  lemma DeadlinesAdvance(s: Server, run: Run, i: nat, j: nat, t: Token, u: Token)
    requires Inv(s) && WithinLimit(s) && i < |run| && j < |run| && Issued(s, run, i, t) && Issued(s, run, j, u)
    requires t.licenseKey == u.licenseKey && run[i].now <= run[j].now && (t.offline ==> u.offline)
    ensures t.validUntil <= u.validUntil
  {
    hide Serve;
    IssuedToHolder(s, run, i, t);
    IssuedToHolder(s, run, j, u);
    var m, n := if i < j then i else j, if i < j then j else i;
    AfterKeepsTerms(s, run, m, n, t.licenseKey);
  }

  // ---- how many devices can hold a live token -----------------------------------------------

  /** Request j gave back the seat of this device. */
  predicate Releases(s: Server, run: Run, j: nat, key: string, device: string)
    requires j < |run|
  {
    run[j].req == Deactivate(key, device) && ReplyAt(s, run, j) == Done
  }

  predicate Grants(s: Server, run: Run, i: nat, key: string)
    requires i < |run|
  {
    ReplyAt(s, run, i).Granted? && ReplyAt(s, run, i).token.licenseKey == key
  }

  function GrantedTo(s: Server, run: Run, i: nat): string
    requires i < |run|
  {
    if ReplyAt(s, run, i).Granted? then ReplyAt(s, run, i).token.deviceId else ""
  }

  /** A device that was granted a token holds its seat until a release of that very device. */
  lemma {:induction false} HeldOrReleased(s: Server, run: Run, i: nat, n: nat, key: string)
    requires Inv(s) && WithinLimit(s) && i < n <= |run| && Grants(s, run, i, key)
    ensures key in After(s, run, n).licenses
    ensures GrantedTo(s, run, i) in HoldersOf(After(s, run, n), key)
         || exists j :: i < j < n && Releases(s, run, j, key, GrantedTo(s, run, i))
    decreases n
  {
    hide Serve;
    if i + 1 == n {
      IssuedToHolder(s, run, i, ReplyAt(s, run, i).token);
    } else {
      HeldOrReleased(s, run, i, n - 1, key);
      AfterKeepsInv(s, run, n - 1);
      ServeKeepsTerms(After(s, run, n - 1), run[n - 1].now, run[n - 1].req, key);
      ServeHolders(After(s, run, n - 1), run[n - 1].now, run[n - 1].req, key);
      if GrantedTo(s, run, i) !in HoldersOf(After(s, run, n), key)
         && GrantedTo(s, run, i) in HoldersOf(After(s, run, n - 1), key) {
        assert Releases(s, run, n - 1, key, GrantedTo(s, run, i));
      }
    }
  }

  function ReleasedBy(run: Run, j: nat): string
    requires j < |run|
  {
    if run[j].req.Deactivate? then run[j].req.device else ""
  }

  /** Take some grants of a license, and every release that follows one of them: the devices
      granted to number at most the limit plus those releases. */
  lemma GrantedDevices(s: Server, run: Run, n: nat, key: string, grants: set<nat>, releases: set<nat>)
    requires Inv(s) && WithinLimit(s) && n <= |run| && key in After(s, run, n).licenses
    requires forall i :: i in grants ==> i < n && Grants(s, run, i, key)
    requires forall j :: j in releases ==> j < n
    requires forall i, j :: i in grants && i < j < n && Releases(s, run, j, key, GrantedTo(s, run, i)) ==> j in releases
    ensures |set i | i in grants :: GrantedTo(s, run, i)| <= Max(0, After(s, run, n).licenses[key].maxDevices) + |releases|
  {
    var h := HoldersOf(After(s, run, n), key);
    var freed := ReleasedDevices(run, releases);
    forall i | i in grants ensures GrantedTo(s, run, i) in h + freed {
      HeldOrReleased(s, run, i, n, key);
      if j :| i < j < n && Releases(s, run, j, key, GrantedTo(s, run, i)) {
        assert j in releases && ReleasedBy(run, j) == GrantedTo(s, run, i);
      }
    }
    var devices := set i | i in grants :: GrantedTo(s, run, i);
    SubsetBound(devices, h + freed);
    ReleasedBound(run, releases);
    SeatLimit(s, run, n);
  }

  /** The devices whose seats these requests gave back. */
  function ReleasedDevices(run: Run, releases: set<nat>): set<string> {
    set j | j in releases && j < |run| :: ReleasedBy(run, j)
  }

  lemma {:induction false} ReleasedBound(run: Run, releases: set<nat>)
    ensures |ReleasedDevices(run, releases)| <= |releases|
    decreases releases
  {
    if releases == {} {
      assert ReleasedDevices(run, releases) == {};
    } else {
      var j :| j in releases;
      ReleasedBound(run, releases - {j});
      if j < |run| {
        assert ReleasedDevices(run, releases) == ReleasedDevices(run, releases - {j}) + {ReleasedBy(run, j)};
      } else {
        assert ReleasedDevices(run, releases) == ReleasedDevices(run, releases - {j});
      }
    }
  }

  /** The requests among the first n that granted a token of this license still unexpired at T. */
  function LiveGrants(s: Server, run: Run, n: nat, key: string, T: Time, offlineToo: bool): set<nat>
    requires n <= |run|
  {
    set i: nat | i < n && Grants(s, run, i, key) && T <= ReplyAt(s, run, i).token.validUntil
                 && (offlineToo || !ReplyAt(s, run, i).token.offline)
  }

  /** The devices that could run on a cached token of this license at T. */
  function LiveDevices(s: Server, run: Run, n: nat, key: string, T: Time, offlineToo: bool): set<string>
    requires n <= |run|
  {
    set i | i in LiveGrants(s, run, n, key, T, offlineToo) :: GrantedTo(s, run, i)
  }

  /** The releases of seats of this license since a given instant. */
  function ReleasesSince(s: Server, run: Run, n: nat, key: string, from: Time): set<nat>
    requires n <= |run|
  {
    set j: nat | j < n && from <= run[j].now && run[j].req.Deactivate? && run[j].req.key == key && ReplyAt(s, run, j) == Done
  }

  function AllReleases(s: Server, run: Run, n: nat, key: string): set<nat>
    requires n <= |run|
  {
    set j: nat | j < n && run[j].req.Deactivate? && run[j].req.key == key && ReplyAt(s, run, j) == Done
  }

  /** At any instant T after the run, at most the limit plus the releases of the last seven days
      can be running on an online token. */
  lemma SlidingWindow(s: Server, run: Run, n: nat, key: string, T: Time)
    requires Inv(s) && WithinLimit(s) && n <= |run| && key in After(s, run, n).licenses && Ordered(run)
    ensures |LiveDevices(s, run, n, key, T, false)|
      <= Max(0, After(s, run, n).licenses[key].maxDevices) + |ReleasesSince(s, run, n, key, T - ONLINE_GRACE_PERIOD)|
  {
    var grants, releases := LiveGrants(s, run, n, key, T, false), ReleasesSince(s, run, n, key, T - ONLINE_GRACE_PERIOD);
    forall i, j | i in grants && i < j < n && Releases(s, run, j, key, GrantedTo(s, run, i)) ensures j in releases {
      Deadlines(s, run, i, ReplyAt(s, run, i).token);
      IssuedToHolder(s, run, i, ReplyAt(s, run, i).token);
    }
    GrantedDevices(s, run, n, key, grants, releases);
  }

  /** Offline tokens included, at most the limit plus every release ever. */
  lemma LiveTokensEver(s: Server, run: Run, n: nat, key: string, T: Time)
    requires Inv(s) && WithinLimit(s) && n <= |run| && key in After(s, run, n).licenses
    ensures |LiveDevices(s, run, n, key, T, true)|
      <= Max(0, After(s, run, n).licenses[key].maxDevices) + |AllReleases(s, run, n, key)|
  {
    GrantedDevices(s, run, n, key, LiveGrants(s, run, n, key, T, true), AllReleases(s, run, n, key));
  }

  // ---- cutting access off -------------------------------------------------------------------

  lemma RevokeRevokes(s: Server, now: Time, key: string)
    requires key in s.licenses
    ensures var s' := Serve(s, now, Revoke(s.licenses[key].id)).0;
      key in s'.licenses && s'.licenses[key].revokedAt.Some?
  {
  }

  lemma ReleaseReleases(s: Server, now: Time, key: string, device: string)
    requires Inv(s) && Serve(s, now, Deactivate(key, device)).1 == Done
    ensures var s' := Serve(s, now, Deactivate(key, device)).0;
      key in s'.licenses && device !in HoldersOf(s', key)
  {
    ServeHolders(s, now, Deactivate(key, device), key);
  }

  /** After a revocation at t no online token of the license is live beyond t + 7 days. */
  lemma RevocationCutsOff(s: Server, run: Run, i: nat, j: nat, key: string, token: Token)
    requires Inv(s) && WithinLimit(s) && Ordered(run) && i < |run| && j < |run|
    requires key in After(s, run, i).licenses && run[i].req == Revoke(After(s, run, i).licenses[key].id)
    requires Issued(s, run, j, token) && token.licenseKey == key && !token.offline
    ensures token.validUntil <= run[i].now + ONLINE_GRACE_PERIOD
  {
    hide Serve;
    Deadlines(s, run, j, token);
    IssuedToHolder(s, run, j, token);
    if i < j {
      RevokeRevokes(After(s, run, i), run[i].now, key);
      Allocation.NoGrantAfterInactive(s, run, i + 1, j, key, run[j].now);
    }
  }

  /** An offline token is beyond the reach of a revocation: it is over within seven days of one only
      if its license or its hundred years end by then, whether the license is revoked or not. */
  lemma RevocationReach(s: Server, run: Run, i: nat, j: nat, key: string, token: Token)
    requires Inv(s) && WithinLimit(s) && Ordered(run) && i < |run| && j < |run|
    requires key in After(s, run, i).licenses && run[i].req == Revoke(After(s, run, i).licenses[key].id)
    requires Issued(s, run, j, token) && token.licenseKey == key
    ensures var limit := run[i].now + ONLINE_GRACE_PERIOD;
      token.validUntil <= limit <==>
        !token.offline || token.issuedAt + OFFLINE_HORIZON <= limit || (token.licenseExp.Some? && token.licenseExp.value <= limit)
  {
    hide Serve;
    IssuedToHolder(s, run, j, token);
    if !token.offline { RevocationCutsOff(s, run, i, j, key, token); }
  }

  lemma StillOut(s: Server, now: Time, req: Request, key: string, device: string)
    requires Inv(s) && key in s.licenses && device !in HoldersOf(s, key)
    requires !(req.Activate? && req.key == key && req.device == device)
    ensures key in Serve(s, now, req).0.licenses && device !in HoldersOf(Serve(s, now, req).0, key)
  {
    hide Serve;
    ServeKeepsTerms(s, now, req, key);
    ServeHolders(s, now, req, key);
  }

  /** A device without a seat that never asks again stays without one. */
  lemma {:induction false} StaysOut(s: Server, run: Run, m: nat, n: nat, key: string, device: string)
    requires Inv(s) && m <= n <= |run| && key in After(s, run, m).licenses && device !in HoldersOf(After(s, run, m), key)
    requires forall j :: m <= j < n ==> !(run[j].req.Activate? && run[j].req.key == key && run[j].req.device == device)
    ensures key in After(s, run, n).licenses && device !in HoldersOf(After(s, run, n), key)
    decreases n
  {
    hide Serve;
    if m < n {
      StaysOut(s, run, m, n - 1, key, device);
      AfterKeepsInv(s, run, n - 1);
      StillOut(After(s, run, n - 1), run[n - 1].now, run[n - 1].req, key, device);
    }
  }

  /** After a device's release at t, and unless it is activated again, none of its online tokens
      is live beyond t + 7 days. */
  lemma ReleaseCutsOff(s: Server, run: Run, i: nat, j: nat, key: string, token: Token)
    requires Inv(s) && WithinLimit(s) && Ordered(run) && i < |run| && j < |run|
    requires Releases(s, run, i, key, token.deviceId)
    requires forall k :: i < k < |run| ==> !(run[k].req.Activate? && run[k].req.key == key && run[k].req.device == token.deviceId)
    requires Issued(s, run, j, token) && token.licenseKey == key && !token.offline
    ensures token.validUntil <= run[i].now + ONLINE_GRACE_PERIOD
  {
    hide Serve;
    Deadlines(s, run, j, token);
    IssuedToHolder(s, run, j, token);
    if i < j {
      AfterKeepsInv(s, run, i);
      ReleaseReleases(After(s, run, i), run[i].now, key, token.deviceId);
      StaysOut(s, run, i + 1, j + 1, key, token.deviceId);
    }
  }
}
