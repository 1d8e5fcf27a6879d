/** Panel accounts, entitlement snapshots and their comparison
    (app/rebecca/models.py, app/payments/service.py). */
module Entitlement {
  import opened Prelude
  import opened Quota
  import opened Wire

  /** A panel administrator account as read back. Service lists are multisets of their text form:
      every comparison in the program ignores their order. */
  datatype Admin = Admin(
    username: string,
    role: string,
    status: Status,
    expire: Option<int>,
    dataLimit: Option<int>,
    used: int,
    services: multiset<string>,
    usersLimit: Option<int>)

  /** A service user of some administrator, as read back. */
  datatype User = User(
    username: string,
    owner: Option<string>,
    status: Status,
    expire: Option<int>,
    dataLimit: Option<int>,
    used: int)

  // app/users/ownership.py: an empty or missing owner never matches.
  predicate VerifiedOwner(u: User, admin: string) {
    u.owner.Some? && u.owner.value != "" && u.owner.value == admin
  }

  predicate UserExhausted(u: User, now: int) {
    Exhausted(u.expire, u.dataLimit, u.used, now)
  }

  datatype Product = Product(
    id: int, trafficGb: int, days: int, services: multiset<string>, usersLimit: Option<int>)

  datatype Snapshot = Snapshot(
    dataLimit: Option<int>,
    expire: Option<int>,
    services: multiset<string>,
    usersLimit: Option<int>,
    role: string,
    status: Status)

  function EntitlementSnapshot(a: Admin): Snapshot {
    Snapshot(a.dataLimit, a.expire, a.services, a.usersLimit, a.role, NormalizeStatus(a.status))
  }

  function TargetSnapshot(a: Admin, p: Product, now: int): Snapshot {
    Snapshot(
      Some(RenewalDataLimit(a.dataLimit, a.used, p.trafficGb * GIB)),
      Some(RenewalExpiry(a.expire, now, p.days)),
      p.services,
      p.usersLimit,
      "reseller",
      Active)
  }

  predicate Matches(live: Admin, s: Snapshot) {
    EntitlementSnapshot(live) == s.(status := NormalizeStatus(s.status))
  }

  /** The four fields an order's update request carries. */
  datatype Field = DataLimit | Expire | Services | UsersLimit

  const ALL_FIELDS := {DataLimit, Expire, Services, UsersLimit}

  // What the panel holds after it executed any part of the update request for `target`.
  function Write(a: Admin, target: Snapshot, fields: set<Field>): Admin {
    a.(dataLimit := if DataLimit in fields then target.dataLimit else a.dataLimit,
       expire := if Expire in fields then Image(target.expire) else a.expire,
       services := if Services in fields then target.services else a.services,
       usersLimit := if UsersLimit in fields then target.usersLimit else a.usersLimit)
  }

  predicate SameFour(a: Admin, s: Snapshot) {
    a.dataLimit == s.dataLimit && a.expire == s.expire && a.services == s.services && a.usersLimit == s.usersLimit
  }

  predicate Purchase(p: Product) {
    p.trafficGb > 0 && p.days > 0
  }

  /** A purchase always changes the entitlement, so "before" and "target" can never both match. */
  lemma PurchaseChanges(a: Admin, p: Product, now: int)
    requires Purchase(p) && a.used >= 0 && now >= SECOND
    ensures var t := TargetSnapshot(a, p, now);
      && t.dataLimit != a.dataLimit && t.expire != a.expire && Image(t.expire) != a.expire
      && t.dataLimit.value > 0 && t.expire.value >= SECOND + DAY
      && EntitlementSnapshot(a) != t
      && forall live: Admin :: !(Matches(live, t) && Matches(live, EntitlementSnapshot(a)))
  {
  }

  /** What a renewal asks for, field by field. */
  lemma TargetInUnits(a: Admin, p: Product, now: int)
    ensures var t := TargetSnapshot(a, p, now);
      && t.expire == Some((if a.expire.Some? && a.expire.value > now then a.expire.value else now)
                          + p.days * 86_400_000_000)
      && t.dataLimit == Some((if a.dataLimit.Some? && a.dataLimit.value > 0 && a.dataLimit.value > a.used
                              then a.dataLimit.value else a.used) + p.trafficGb * 1_073_741_824)
      && t.services == p.services && t.usersLimit == p.usersLimit && t.role == "reseller" && t.status == Active
  {
  }

  /** Two accounts match the same snapshot exactly when they agree on all six fields, statuses by meaning. */
  lemma MatchesIff(live: Admin, a: Admin)
    ensures Matches(live, EntitlementSnapshot(a)) <==>
      && live.dataLimit == a.dataLimit && live.expire == a.expire && live.services == a.services
      && live.usersLimit == a.usersLimit && live.role == a.role
      && NormalizeStatus(live.status) == NormalizeStatus(a.status)
  {
  }

  /** A user belongs to exactly the administrator it names; one without an owner to nobody. */
  lemma OwnerIff(u: User, admin: string)
    ensures VerifiedOwner(u, admin) <==> u.owner == Some(admin) && admin != ""
  {
  }

  /** Order and reseller row statuses (app/database/models.py). */
  datatype OrderStatus =
    | Pending | WaitingReceipt | WaitingPayment | Paid | Applying | Applied
    | Rejected | OrderExpired | Cancelled | Failed

  datatype ResellerStatus =
    | Provisioning | Trial | ResellerActive | LowQuota | ResellerExpired | Suspended | ResellerDisabled | Broken

  // An applied renewal brings an expired or disabled reseller back; every other status stays.
  function Reactivated(r: ResellerStatus): ResellerStatus {
    if r in {ResellerExpired, ResellerDisabled} then ResellerActive else r
  }
}
