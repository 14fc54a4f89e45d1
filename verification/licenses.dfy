/** The licenses table (store/licenses.go): lookups by key, creation under its two unique
    constraints, and write-once revocation. */
module LicenseStore {
  import opened Common
  import opened Models
  import KeyGen

  type Licenses = map<string, License>

  /** Each license sits under its own key and no two share an id. */
  ghost predicate WellFormed(m: Licenses) {
    && (forall k :: k in m ==> m[k].key == k)
    && (forall j, k :: j in m && k in m && m[j].id == m[k].id ==> j == k)
  }

  predicate HasId(m: Licenses, id: string) {
    exists k :: k in m && m[k].id == id
  }

  /** UPDATE licenses SET revoked_at WHERE id AND revoked_at IS NULL. */
  function Revoke(m: Licenses, id: string, now: Time): Licenses {
    map k | k in m :: if m[k].id == id && m[k].revokedAt.None? then m[k].(revokedAt := Some(now)) else m[k]
  }

  predicate Revocable(m: Licenses, id: string) {
    exists k :: k in m && m[k].id == id && m[k].revokedAt.None?
  }

  lemma RevokeKeepsWellFormed(m: Licenses, id: string, now: Time)
    requires WellFormed(m)
    ensures WellFormed(Revoke(m, id, now))
  {
    var r := Revoke(m, id, now);
    forall j, k | j in r && k in r && r[j].id == r[k].id ensures j == k {
      assert m[j].id == r[j].id && m[k].id == r[k].id;
    }
  }

  // ---- the table as rows --------------------------------------------------------------------

  ghost predicate Constraints(rows: seq<License>) {
    && (forall i, j :: 0 <= i < j < |rows| ==> rows[i].key != rows[j].key)
    && (forall i, j :: 0 <= i < j < |rows| ==> rows[i].id != rows[j].id)
  }

  ghost function ByKey(rows: seq<License>): (m: Licenses)
    requires Constraints(rows)
    ensures forall i :: 0 <= i < |rows| ==> rows[i].key in m && m[rows[i].key] == rows[i]
    ensures forall k :: k in m ==> m[k] in rows && m[k].key == k
  {
    map i | 0 <= i < |rows| :: rows[i].key := rows[i]
  }

  lemma RowOf(rows: seq<License>, k: string) returns (i: nat)
    requires Constraints(rows) && k in ByKey(rows)
    ensures i < |rows| && rows[i] == ByKey(rows)[k] && rows[i].key == k
  {
    i :| 0 <= i < |rows| && rows[i] == ByKey(rows)[k];
  }

  lemma SameRows(rows: seq<License>, m: Licenses)
    requires Constraints(rows)
    requires forall i :: 0 <= i < |rows| ==> rows[i].key in m && m[rows[i].key] == rows[i]
    requires forall k :: k in m ==> m[k] in rows && m[k].key == k
    ensures ByKey(rows) == m
  {
    forall k ensures k in ByKey(rows) <==> k in m {
      if k in m { var i :| 0 <= i < |rows| && rows[i] == m[k]; }
      if k in ByKey(rows) { var i := RowOf(rows, k); }
    }
    forall k | k in m ensures ByKey(rows)[k] == m[k] {
      var i :| 0 <= i < |rows| && rows[i] == m[k];
    }
  }

  lemma AppendOne(rows: seq<License>, l: License)
    requires Constraints(rows) && l.key !in ByKey(rows) && !HasId(ByKey(rows), l.id)
    ensures Constraints(rows + [l]) && ByKey(rows + [l]) == ByKey(rows)[l.key := l]
  {
    var after, m := rows + [l], ByKey(rows)[l.key := l];
    forall i | 0 <= i < |rows| ensures rows[i].key != l.key && rows[i].id != l.id {
      assert ByKey(rows)[rows[i].key] == rows[i];
    }
    forall k | k in m ensures m[k] in after && m[k].key == k {
      if k == l.key { assert after[|rows|] == l; } else { var i := RowOf(rows, k); assert after[i] == rows[i]; }
    }
    SameRows(after, m);
  }

  lemma SamePlaces(before: seq<License>, after: seq<License>)
    requires Constraints(before) && |after| == |before|
    requires forall j :: 0 <= j < |after| ==> after[j].key == before[j].key
    requires forall j :: 0 <= j < |after| ==> after[j].id == before[j].id
    ensures Constraints(after)
  {
  }

  lemma RevokeRows(before: seq<License>, after: seq<License>, id: string, now: Time)
    requires Constraints(before) && |after| == |before|
    requires forall j :: 0 <= j < |before| ==>
      after[j] == if before[j].id == id && before[j].revokedAt.None? then before[j].(revokedAt := Some(now)) else before[j]
    ensures Constraints(after) && ByKey(after) == Revoke(ByKey(before), id, now)
  {
    SamePlaces(before, after);
    var m := Revoke(ByKey(before), id, now);
    forall k | k in m ensures m[k] in after && m[k].key == k {
      var i := RowOf(before, k);
      assert after[i] == m[k];
    }
    forall i | 0 <= i < |after| ensures after[i].key in m && m[after[i].key] == after[i] {
      assert after[i].key == before[i].key;
    }
    SameRows(after, m);
  }

  lemma TableIsWellFormed(rows: seq<License>)
    requires Constraints(rows)
    ensures WellFormed(ByKey(rows))
  {
    var m := ByKey(rows);
    forall j, k | j in m && k in m && m[j].id == m[k].id ensures j == k {
      var a := RowOf(rows, j);
      var b := RowOf(rows, k);
    }
  }

  datatype CreateError = IdExists | KeyExists

  class LicenseTable {
    var rows: seq<License>

    ghost predicate Valid() reads this {
      Constraints(rows)
    }

    ghost function Contents(): Licenses
      reads this
      requires Valid()
    {
      ByKey(rows)
    }

    constructor ()
      ensures Valid() && Contents() == map[]
    {
      rows := [];
      new;
      SameRows(rows, map[]);
    }

    method GetLicenseByKey(key: string) returns (r: Option<License>)
      requires Valid()
      ensures r == if key in Contents() then Some(Contents()[key]) else None
    {
      for i := 0 to |rows|
        invariant forall j :: 0 <= j < i ==> rows[j].key != key
      {
        if rows[i].key == key {
          return Some(rows[i]);
        }
      }
      r := None;
      assert key !in Contents() by {
        if key in Contents() { var i := RowOf(rows, key); }
      }
    }

    /** The row is inserted only when neither its id nor its fresh key is taken. */
    method CreateLicense(id: string, buf: seq<byte>, product: string, customer: string, maxDevices: int,
                         expiresAt: Option<Time>, now: Time) returns (r: Result<License, CreateError>)
      requires Valid()
      requires |buf| == KeyGen.Cells(KeyGen.GROUPS, KeyGen.GROUP_LEN)
      modifies this
      ensures Valid()
      ensures var key := KeyGen.KeyOf(KeyGen.CROCKFORD, buf, KeyGen.GROUPS, KeyGen.GROUP_LEN);
        var l := License(id, key, product, customer, maxDevices, expiresAt, None, now);
        if key in old(Contents()) then r == Err(KeyExists) && Contents() == old(Contents())
        else if HasId(old(Contents()), id) then r == Err(IdExists) && Contents() == old(Contents())
        else r == Ok(l) && Contents() == old(Contents())[key := l]
    {
      var key := KeyGen.GenerateLicenseKey(KeyGen.CROCKFORD, buf, KeyGen.GROUPS, KeyGen.GROUP_LEN);
      var l := License(id, key, product, customer, maxDevices, expiresAt, None, now);
      var takenId, takenKey := false, false;
      for i := 0 to |rows|
        invariant takenId == exists j :: 0 <= j < i && rows[j].id == id
        invariant takenKey == exists j :: 0 <= j < i && rows[j].key == key
      {
        takenId := takenId || rows[i].id == id;
        takenKey := takenKey || rows[i].key == key;
      }
      Taken(rows, id, key);
      if takenKey {
        return Err(KeyExists);
      }
      if takenId {
        return Err(IdExists);
      }
      AppendOne(rows, l);
      rows := rows + [l];
      r := Ok(l);
    }

    static lemma Taken(rows: seq<License>, id: string, key: string)
      requires Constraints(rows)
      ensures HasId(ByKey(rows), id) <==> exists j :: 0 <= j < |rows| && rows[j].id == id
      ensures key in ByKey(rows) <==> exists j :: 0 <= j < |rows| && rows[j].key == key
    {
      if HasId(ByKey(rows), id) {
        var k :| k in ByKey(rows) && ByKey(rows)[k].id == id;
        var i := RowOf(rows, k);
      }
      if j :| 0 <= j < |rows| && rows[j].id == id { assert ByKey(rows)[rows[j].key].id == id; }
      if key in ByKey(rows) { var i := RowOf(rows, key); }
    }

    method RevokeLicense(id: string, now: Time) returns (ok: bool)
      requires Valid()
      modifies this
      ensures Valid() && Contents() == Revoke(old(Contents()), id, now)
      ensures ok == Revocable(old(Contents()), id)
    {
      ghost var before := rows;
      ok := false;
      for i := 0 to |rows|
        invariant |rows| == |before|
        invariant ok == exists j :: 0 <= j < i && before[j].id == id && before[j].revokedAt.None?
        invariant forall j :: 0 <= j < |rows| ==>
          rows[j] == if j < i && before[j].id == id && before[j].revokedAt.None? then before[j].(revokedAt := Some(now)) else before[j]
      {
        if rows[i].id == id && rows[i].revokedAt.None? {
          rows := rows[i := rows[i].(revokedAt := Some(now))];
          ok := true;
        }
      }
      RevokeRows(before, rows, id, now);
      CanRevoke(before, id);
    }

    static lemma CanRevoke(rows: seq<License>, id: string)
      requires Constraints(rows)
      ensures Revocable(ByKey(rows), id) <==> exists j :: 0 <= j < |rows| && rows[j].id == id && rows[j].revokedAt.None?
    {
      if Revocable(ByKey(rows), id) {
        var k :| k in ByKey(rows) && ByKey(rows)[k].id == id && ByKey(rows)[k].revokedAt.None?;
        var i := RowOf(rows, k);
      }
      if j :| 0 <= j < |rows| && rows[j].id == id && rows[j].revokedAt.None? {
        assert ByKey(rows)[rows[j].key] == rows[j];
      }
    }
  }
}
