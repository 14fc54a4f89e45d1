/** The stored records, the signed token and the two deadlines (store/models.go, license/token.go). */
module Models {
  import opened Common

  /** Nanoseconds on one clock. */
  type Time = int

  const HOUR: Time := 3_600_000_000_000
  const DAY: Time := 24 * HOUR
  const ONLINE_GRACE_PERIOD: Time := 7 * DAY
  const OFFLINE_HORIZON: Time := 100 * 365 * DAY

  datatype Status = Active | Expired | Revoked {
    function Rank(): nat {
      match this
      case Active => 0
      case Expired => 1
      case Revoked => 2
    }
  }

  datatype License = License(
    id: string, key: string, product: string, customer: string, maxDevices: int,
    expiresAt: Option<Time>, revokedAt: Option<Time>, createdAt: Time)
  {
    function Status(now: Time): Status {
      if revokedAt.Some? then Revoked
      else if expiresAt.Some? && now > expiresAt.value then Expired
      else Active
    }

    /** Everything about a license that no statement ever updates. */
    predicate SameTerms(other: License) {
      other == this.(revokedAt := other.revokedAt)
    }
  }

  /** One row of the devices table. */
  datatype Device = Device(
    id: nat, licenseId: string, deviceId: string, name: string,
    activatedAt: Time, lastSeenAt: Time, deactivatedAt: Option<Time>)
  {
    predicate Active() {
      deactivatedAt.None?
    }
  }

  datatype Token = Token(
    licenseKey: string, product: string, customer: string, deviceId: string,
    seatsMax: int, seatsUsed: int, status: Status,
    issuedAt: Time, validUntil: Time, licenseExp: Option<Time>, offline: bool)

  function Horizon(offline: bool): Time {
    if offline then OFFLINE_HORIZON else ONLINE_GRACE_PERIOD
  }

  /** The periods in nanoseconds: an hour, seven days of grace, and a hundred years of 365 days. */
  lemma Periods()
    ensures HOUR == 60 * 60 * 1_000_000_000 && DAY == 86_400 * 1_000_000_000
    ensures ONLINE_GRACE_PERIOD == 7 * 86_400 * 1_000_000_000
    ensures OFFLINE_HORIZON == 100 * 365 * 86_400 * 1_000_000_000
  {
  }
}
