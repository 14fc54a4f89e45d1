/** The devices table (store/devices.go): what each statement does to the table seen as a map
    from (license, device) to row, and a row-by-row table that is proved to refine that map. */
module Seats {
  import opened Common
  import opened Models

  type SeatKey = (string, string)

  datatype Table = Table(rows: map<SeatKey, Device>, nextId: nat)

  const EMPTY_TABLE := Table(map[], 0)

  /** Rows sit under their own (license, device), and row ids are distinct and below the next one. */
  ghost predicate WellFormed(t: Table) {
    && (forall k :: k in t.rows ==> t.rows[k].licenseId == k.0 && t.rows[k].deviceId == k.1 && t.rows[k].id < t.nextId)
    && (forall k, l :: k in t.rows && l in t.rows && t.rows[k].id == t.rows[l].id ==> k == l)
  }

  /** The devices that hold a seat on a license. */
  function Holders(t: Table, licenseId: string): (r: set<string>)
    ensures forall d :: d in r <==> (licenseId, d) in t.rows && t.rows[(licenseId, d)].Active()
  {
    set k | k in t.rows && k.0 == licenseId && t.rows[k].Active() :: k.1
  }

  /** INSERT ... ON CONFLICT(license_id, device_id) DO UPDATE. */
  function Upsert(t: Table, licenseId: string, device: string, name: string, now: Time): Table {
    var k := (licenseId, device);
    if k in t.rows then
      t.(rows := t.rows[k := t.rows[k].(name := name, activatedAt := now, lastSeenAt := now, deactivatedAt := None)])
    else
      Table(t.rows[k := Device(t.nextId, licenseId, device, name, now, now, None)], t.nextId + 1)
  }

  /** UPDATE devices SET last_seen_at WHERE id. */
  function TouchId(t: Table, id: nat, now: Time): Table {
    t.(rows := map k | k in t.rows ::
      if t.rows[k].id == id then t.rows[k].(lastSeenAt := now) else t.rows[k])
  }

  function Touch(t: Table, k: SeatKey, now: Time): Table
    requires k in t.rows
  {
    t.(rows := t.rows[k := t.rows[k].(lastSeenAt := now)])
  }

  /** UPDATE devices SET deactivated_at WHERE ... AND deactivated_at IS NULL. */
  function Free(t: Table, licenseId: string, device: string, now: Time): Table {
    var k := (licenseId, device);
    if device in Holders(t, licenseId) then t.(rows := t.rows[k := t.rows[k].(deactivatedAt := Some(now))]) else t
  }

  /** Row ids are unique, so an update by row id touches exactly one (license, device). */
  lemma TouchIdIsTouch(t: Table, k: SeatKey, now: Time)
    requires WellFormed(t) && k in t.rows
    ensures TouchId(t, t.rows[k].id, now) == Touch(t, k, now)
  {
    assert TouchId(t, t.rows[k].id, now).rows == Touch(t, k, now).rows;
  }

  lemma UpsertHolders(t: Table, l: string, d: string, name: string, now: Time, other: string)
    ensures Holders(Upsert(t, l, d, name, now), other) == Holders(t, other) + (if other == l then {d} else {})
  {
    var u := Upsert(t, l, d, name, now);
    forall x ensures x in Holders(u, other) <==> x in Holders(t, other) + (if other == l then {d} else {}) {
      assert (other, x) in u.rows <==> (other, x) in t.rows || (other == l && x == d);
    }
  }

  lemma TouchHolders(t: Table, k: SeatKey, now: Time, other: string)
    requires k in t.rows
    ensures Holders(Touch(t, k, now), other) == Holders(t, other)
  {
    var u := Touch(t, k, now);
    forall x ensures x in Holders(u, other) <==> x in Holders(t, other) {
      assert (other, x) in u.rows <==> (other, x) in t.rows;
    }
  }

  lemma FreeHolders(t: Table, l: string, d: string, now: Time, other: string)
    ensures Holders(Free(t, l, d, now), other) == Holders(t, other) - (if other == l then {d} else {})
  {
    var u := Free(t, l, d, now);
    forall x ensures x in Holders(u, other) <==> x in Holders(t, other) - (if other == l then {d} else {}) {
      assert (other, x) in u.rows <==> (other, x) in t.rows;
    }
  }

  lemma UpsertKeepsWellFormed(t: Table, l: string, d: string, name: string, now: Time)
    requires WellFormed(t)
    ensures WellFormed(Upsert(t, l, d, name, now))
  {
    var u := Upsert(t, l, d, name, now);
    forall j, k | j in u.rows && k in u.rows && u.rows[j].id == u.rows[k].id ensures j == k {
      if j != (l, d) { assert u.rows[j] == t.rows[j]; }
      if k != (l, d) { assert u.rows[k] == t.rows[k]; }
    }
  }

  lemma UpdateKeepsWellFormed(t: Table, k: SeatKey, row: Device)
    requires WellFormed(t) && k in t.rows
    requires row.id == t.rows[k].id && row.licenseId == k.0 && row.deviceId == k.1
    ensures WellFormed(t.(rows := t.rows[k := row]))
  {
    var u := t.(rows := t.rows[k := row]);
    assert forall j :: j in u.rows ==> j in t.rows && u.rows[j].id == t.rows[j].id;
  }

  // ---- the table as rows --------------------------------------------------------------------

  function SeatOf(row: Device): SeatKey {
    (row.licenseId, row.deviceId)
  }

  /** UNIQUE(license_id, device_id), the primary key, and AUTOINCREMENT. */
  ghost predicate Constraints(rows: seq<Device>, nextId: nat) {
    && Distinct(rows)
    && (forall i :: 0 <= i < |rows| ==> rows[i].id < nextId)
    && (forall i, j :: 0 <= i < j < |rows| ==> rows[i].id != rows[j].id)
  }

  ghost predicate Distinct(rows: seq<Device>) {
    forall i, j :: 0 <= i < j < |rows| ==> SeatOf(rows[i]) != SeatOf(rows[j])
  }

  ghost function ByKey(rows: seq<Device>): (m: map<SeatKey, Device>)
    requires Distinct(rows)
    ensures forall i :: 0 <= i < |rows| ==> SeatOf(rows[i]) in m && m[SeatOf(rows[i])] == rows[i]
    ensures forall k :: k in m ==> m[k] in rows && SeatOf(m[k]) == k
  {
    map i | 0 <= i < |rows| :: SeatOf(rows[i]) := rows[i]
  }

  /** Two maps whose rows are the same rows are the same map. */
  lemma SameRows(rows: seq<Device>, m: map<SeatKey, Device>)
    requires Distinct(rows)
    requires forall i :: 0 <= i < |rows| ==> SeatOf(rows[i]) in m && m[SeatOf(rows[i])] == rows[i]
    requires forall k :: k in m ==> m[k] in rows && SeatOf(m[k]) == k
    ensures ByKey(rows) == m
  {
    forall k ensures k in ByKey(rows) <==> k in m {
      if k in m { var i :| 0 <= i < |rows| && rows[i] == m[k]; }
      if k in ByKey(rows) { var i :| 0 <= i < |rows| && rows[i] == ByKey(rows)[k]; }
    }
    forall k | k in m ensures ByKey(rows)[k] == m[k] {
      var i :| 0 <= i < |rows| && rows[i] == m[k];
    }
  }

  lemma SamePlacesSameConstraints(before: seq<Device>, after: seq<Device>, nextId: nat)
    requires Constraints(before, nextId) && |after| == |before|
    requires forall j :: 0 <= j < |after| ==> SeatOf(after[j]) == SeatOf(before[j])
    requires forall j :: 0 <= j < |after| ==> after[j].id == before[j].id
    ensures Constraints(after, nextId)
  {
  }

  /** Updating one row in place updates one entry of the map. */
  lemma UpdateOne(before: seq<Device>, nextId: nat, i: nat, d: Device)
    requires Constraints(before, nextId) && i < |before| && SeatOf(d) == SeatOf(before[i]) && d.id == before[i].id
    ensures Constraints(before[i := d], nextId)
    ensures ByKey(before[i := d]) == ByKey(before)[SeatOf(d) := d]
  {
    SamePlacesSameConstraints(before, before[i := d], nextId);
    var after, m := before[i := d], ByKey(before)[SeatOf(d) := d];
    forall k | k in m ensures m[k] in after && SeatOf(m[k]) == k {
      if k == SeatOf(d) {
        assert after[i] == d;
      } else {
        var j := RowOf(before, k);
        assert after[j] == before[j];
      }
    }
    forall j | 0 <= j < |after| ensures SeatOf(after[j]) in m && m[SeatOf(after[j])] == after[j] {
      if j != i { assert SeatOf(before[j]) != SeatOf(before[i]); }
    }
    SameRows(after, m);
  }

  /** Appending a row for a new (license, device) adds one entry to the map. */
  lemma AppendOne(before: seq<Device>, d: Device)
    requires Distinct(before) && SeatOf(d) !in ByKey(before)
    ensures Distinct(before + [d])
    ensures ByKey(before + [d]) == ByKey(before)[SeatOf(d) := d]
  {
    var after, m := before + [d], ByKey(before)[SeatOf(d) := d];
    forall k | k in m ensures m[k] in after && SeatOf(m[k]) == k {
      if k == SeatOf(d) {
        assert after[|before|] == d;
      } else {
        var j :| 0 <= j < |before| && before[j] == ByKey(before)[k];
        assert after[j] == before[j];
      }
    }
    SameRows(after, m);
  }

  /** Rewriting rows without moving them rewrites the entries of the map. */
  lemma RewriteAll(before: seq<Device>, after: seq<Device>, nextId: nat, id: nat, now: Time)
    requires Constraints(before, nextId) && |after| == |before|
    requires forall j :: 0 <= j < |before| ==> after[j] == if before[j].id == id then before[j].(lastSeenAt := now) else before[j]
    ensures Constraints(after, nextId)
    ensures ByKey(after) == TouchId(Table(ByKey(before), nextId), id, now).rows
  {
    SamePlacesSameConstraints(before, after, nextId);
    var m := TouchId(Table(ByKey(before), nextId), id, now).rows;
    forall k | k in m ensures m[k] in after && SeatOf(m[k]) == k {
      var j := RowOf(before, k);
      assert after[j] == m[k];
    }
    forall j | 0 <= j < |after| ensures SeatOf(after[j]) in m && m[SeatOf(after[j])] == after[j] {
      assert SeatOf(after[j]) == SeatOf(before[j]);
    }
    SameRows(after, m);
  }

  /** A (license, device) in the map is the (license, device) of some row. */
  lemma RowOf(rows: seq<Device>, k: SeatKey) returns (j: nat)
    requires Distinct(rows) && k in ByKey(rows)
    ensures j < |rows| && rows[j] == ByKey(rows)[k] && SeatOf(rows[j]) == k
  {
    j :| 0 <= j < |rows| && rows[j] == ByKey(rows)[k];
  }

  lemma TableIsWellFormed(rows: seq<Device>, nextId: nat)
    requires Constraints(rows, nextId)
    ensures WellFormed(Table(ByKey(rows), nextId))
  {
    var m := ByKey(rows);
    forall k | k in m ensures m[k].licenseId == k.0 && m[k].deviceId == k.1 && m[k].id < nextId {
      var i := RowOf(rows, k);
    }
    forall k, l | k in m && l in m && m[k].id == m[l].id ensures k == l {
      var i := RowOf(rows, k);
      var j := RowOf(rows, l);
    }
  }

  /** The devices active on a license among the first n rows. */
  ghost function ActiveIn(rows: seq<Device>, n: nat, licenseId: string): set<string>
    requires n <= |rows|
  {
    if n == 0 then {}
    else ActiveIn(rows, n - 1, licenseId)
         + if rows[n - 1].licenseId == licenseId && rows[n - 1].Active() then {rows[n - 1].deviceId} else {}
  }

  lemma {:induction false} SeenBefore(rows: seq<Device>, n: nat, licenseId: string, d: string)
    requires n <= |rows| && Distinct(rows)
    ensures d in ActiveIn(rows, n, licenseId) <==>
      exists j :: 0 <= j < n && SeatOf(rows[j]) == (licenseId, d) && rows[j].Active()
  {
    if n > 0 { SeenBefore(rows, n - 1, licenseId, d); }
  }

  lemma ActiveInIsHolders(rows: seq<Device>, nextId: nat, licenseId: string)
    requires Distinct(rows)
    ensures ActiveIn(rows, |rows|, licenseId) == Holders(Table(ByKey(rows), nextId), licenseId)
  {
    forall d ensures d in ActiveIn(rows, |rows|, licenseId) <==> d in Holders(Table(ByKey(rows), nextId), licenseId) {
      SeenBefore(rows, |rows|, licenseId, d);
      if (licenseId, d) in ByKey(rows) { var j := RowOf(rows, (licenseId, d)); }
    }
  }

  predicate LatestFirst(out: seq<Device>) {
    forall p, q :: 0 <= p < q < |out| ==> out[p].activatedAt >= out[q].activatedAt
  }

  predicate NoRepeat(out: seq<Device>) {
    forall p, q :: 0 <= p < q < |out| ==> out[p] != out[q]
  }

  lemma SplicedOrder(out: seq<Device>, row: Device, p: nat)
    requires p <= |out| && LatestFirst(out)
    requires forall q :: 0 <= q < p ==> out[q].activatedAt >= row.activatedAt
    requires p < |out| ==> out[p].activatedAt < row.activatedAt
    ensures LatestFirst(out[..p] + [row] + out[p..])
  {
    var r := out[..p] + [row] + out[p..];
    forall i, j | 0 <= i < j < |r| ensures r[i].activatedAt >= r[j].activatedAt {
      if i < p < j {
        assert r[i] == out[i] && r[j] == out[j - 1];
      } else if i == p {
        assert r[j] == out[j - 1];
      }
    }
  }

  lemma SplicedElements(out: seq<Device>, row: Device, p: nat)
    requires p <= |out| && NoRepeat(out) && row !in out
    ensures NoRepeat(out[..p] + [row] + out[p..])
    ensures forall d :: d in out[..p] + [row] + out[p..] <==> d in out || d == row
  {
    var r := out[..p] + [row] + out[p..];
    forall i, j | 0 <= i < j < |r| ensures r[i] != r[j] {
      assert i != p ==> r[i] == out[if i < p then i else i - 1];
      assert j != p ==> r[j] == out[if j < p then j else j - 1];
    }
    assert out == out[..p] + out[p..];
  }

  class DeviceTable {
    var rows: seq<Device>
    var nextId: nat

    ghost predicate Valid() reads this {
      Constraints(rows, nextId)
    }

    ghost function Contents(): Table
      reads this
      requires Valid()
    {
      Table(ByKey(rows), nextId)
    }

    constructor ()
      ensures Valid() && Contents() == EMPTY_TABLE
    {
      rows, nextId := [], 0;
      new;
      SameRows(rows, map[]);
    }

    /** The scan counts rows; uniqueness makes that the number of distinct active devices. */
    method ActiveDeviceCount(licenseId: string) returns (n: nat)
      requires Valid()
      ensures n == |Holders(Contents(), licenseId)|
    {
      n := 0;
      for i := 0 to |rows|
        invariant n == |ActiveIn(rows, i, licenseId)|
      {
        if rows[i].licenseId == licenseId && rows[i].Active() {
          SeenBefore(rows, i, licenseId, rows[i].deviceId);
          n := n + 1;
        }
      }
      ActiveInIsHolders(rows, nextId, licenseId);
    }

    method GetActiveDevice(licenseId: string, device: string) returns (r: Option<Device>)
      requires Valid()
      ensures r == if device in Holders(Contents(), licenseId) then Some(Contents().rows[(licenseId, device)]) else None
    {
      for i := 0 to |rows|
        invariant forall j :: 0 <= j < i ==> !(SeatOf(rows[j]) == (licenseId, device) && rows[j].Active())
      {
        if rows[i].licenseId == licenseId && rows[i].deviceId == device && rows[i].Active() {
          assert SeatOf(rows[i]) == (licenseId, device);
          return Some(rows[i]);
        }
      }
      r := None;
      assert device !in Holders(Contents(), licenseId) by {
        if device in Holders(Contents(), licenseId) { var j := RowOf(rows, (licenseId, device)); }
      }
    }

    /** The lookup in the unique index, -1 when there is no conflict. */
    method Locate(licenseId: string, device: string) returns (i: int)
      requires Valid()
      ensures i < 0 ==> (licenseId, device) !in ByKey(rows)
      ensures 0 <= i ==> i < |rows| && SeatOf(rows[i]) == (licenseId, device)
    {
      i := 0;
      while i < |rows|
        invariant 0 <= i <= |rows|
        invariant forall j :: 0 <= j < i ==> SeatOf(rows[j]) != (licenseId, device)
      {
        if rows[i].licenseId == licenseId && rows[i].deviceId == device {
          return;
        }
        i := i + 1;
      }
      i := -1;
      if (licenseId, device) in ByKey(rows) { ghost var j := RowOf(rows, (licenseId, device)); }
    }

    method ActivateDevice(licenseId: string, device: string, name: string, now: Time) returns (d: Device)
      requires Valid()
      modifies this
      ensures Valid() && Contents() == Upsert(old(Contents()), licenseId, device, name, now)
      ensures (licenseId, device) in Contents().rows && d == Contents().rows[(licenseId, device)]
    {
      var i := Locate(licenseId, device);
      if 0 <= i {
        d := rows[i].(name := name, activatedAt := now, lastSeenAt := now, deactivatedAt := None);
        UpdateOne(rows, nextId, i, d);
        rows := rows[i := d];
      } else {
        d := Device(nextId, licenseId, device, name, now, now, None);
        AppendOne(rows, d);
        rows := rows + [d];
        nextId := nextId + 1;
      }
    }

    method TouchDevice(id: nat, now: Time)
      requires Valid()
      modifies this
      ensures Valid() && Contents() == TouchId(old(Contents()), id, now)
      ensures forall k :: k in old(Contents()).rows && old(Contents()).rows[k].id == id ==> Contents() == Touch(old(Contents()), k, now)
    {
      ghost var before := rows;
      for i := 0 to |rows|
        invariant nextId == old(nextId) && |rows| == |before|
        invariant forall j :: 0 <= j < |rows| ==>
          rows[j] == if j < i && before[j].id == id then before[j].(lastSeenAt := now) else before[j]
      {
        if rows[i].id == id {
          rows := rows[i := rows[i].(lastSeenAt := now)];
        }
      }
      RewriteAll(before, rows, nextId, id, now);
      TableIsWellFormed(before, nextId);
      forall k | k in ByKey(before) && ByKey(before)[k].id == id ensures Contents() == Touch(Table(ByKey(before), nextId), k, now) {
        TouchIdIsTouch(Table(ByKey(before), nextId), k, now);
      }
    }

    method DeactivateDevice(licenseId: string, device: string, now: Time) returns (ok: bool)
      requires Valid()
      modifies this
      ensures Valid() && Contents() == Free(old(Contents()), licenseId, device, now)
      ensures ok == (device in Holders(old(Contents()), licenseId))
    {
      ghost var before := rows;
      ghost var hit := -1;
      ok := false;
      for i := 0 to |rows|
        invariant nextId == old(nextId) && |rows| == |before|
        invariant !ok ==> rows == before && forall j :: 0 <= j < i ==> !(SeatOf(before[j]) == (licenseId, device) && before[j].Active())
        invariant ok ==> 0 <= hit < i && SeatOf(before[hit]) == (licenseId, device) && before[hit].Active()
                         && rows == before[hit := before[hit].(deactivatedAt := Some(now))]
      {
        if rows[i].licenseId == licenseId && rows[i].deviceId == device && rows[i].Active() {
          assert SeatOf(before[i]) == (licenseId, device);
          rows := rows[i := rows[i].(deactivatedAt := Some(now))];
          ok, hit := true, i;
        }
      }
      if ok {
        UpdateOne(before, nextId, hit, before[hit].(deactivatedAt := Some(now)));
      } else {
        assert device !in Holders(old(Contents()), licenseId) by {
          if device in Holders(old(Contents()), licenseId) { var j := RowOf(before, (licenseId, device)); }
        }
      }
    }

    /** Every row of the license, active or not, each once, latest activation first. */
    method ListDevices(licenseId: string) returns (out: seq<Device>)
      requires Valid()
      ensures forall d :: d in out <==> SeatOf(d) in Contents().rows && Contents().rows[SeatOf(d)] == d && d.licenseId == licenseId
      ensures LatestFirst(out) && NoRepeat(out)
    {
      out := [];
      for i := 0 to |rows|
        invariant forall d :: d in out <==> d in rows[..i] && d.licenseId == licenseId
        invariant LatestFirst(out) && NoRepeat(out)
      {
        if rows[i].licenseId == licenseId {
          assert rows[i] !in rows[..i];
          out := Insert(out, rows[i]);
        }
        assert rows[..i + 1] == rows[..i] + [rows[i]];
      }
      assert rows[..|rows|] == rows;
      forall d | d in rows ensures SeatOf(d) in Contents().rows && Contents().rows[SeatOf(d)] == d {
        var i :| 0 <= i < |rows| && rows[i] == d;
      }
    }

    /** Places a row after those activated later or at the same time. */
    static method Insert(out: seq<Device>, row: Device) returns (r: seq<Device>)
      requires row !in out && LatestFirst(out) && NoRepeat(out)
      ensures LatestFirst(r) && NoRepeat(r)
      ensures forall d :: d in r <==> d in out || d == row
    {
      var p := 0;
      while p < |out| && out[p].activatedAt >= row.activatedAt
        invariant 0 <= p <= |out|
        invariant forall q :: 0 <= q < p ==> out[q].activatedAt >= row.activatedAt
      {
        p := p + 1;
      }
      r := out[..p] + [row] + out[p..];
      SplicedOrder(out, row, p);
      SplicedElements(out, row, p);
    }
  }
}
