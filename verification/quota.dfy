/** Renewal arithmetic (app/reseller/quota.py) and what a whole renewal history adds up to. */
module Quota {
  import opened Prelude

  function RenewalExpiry(current: Option<int>, now: int, days: int): int {
    Max(current.GetOr(now), now) + days * DAY
  }

  function RenewalDataLimit(limit: Option<int>, used: int, purchased: int): int {
    if limit.None? || limit.value <= 0 then used + purchased
    else if limit.value > used then limit.value + purchased
    else used + purchased
  }

  // A missing or zero limit means "unlimited" on the panel, so it never counts as exhausted.
  predicate Exhausted(expire: Option<int>, limit: Option<int>, used: int, now: int) {
    || (expire.Some? && expire.value <= now)
    || (limit.Some? && limit.value > 0 && limit.value - used <= 0)
  }

  predicate Unlimited(limit: Option<int>) {
    limit.None? || limit.value <= 0
  }

  // ----- Renewal histories -----

  /** One renewal: the clock and usage it was computed from, and what was bought. */
  datatype Renewal = Renewal(now: int, used: int, days: int, traffic: int)

  predicate Sound(r: Renewal) {
    r.used >= 0 && r.days > 0 && r.traffic > 0
  }

  predicate AllSound(rs: seq<Renewal>) {
    forall i :: 0 <= i < |rs| ==> Sound(rs[i])
  }

  function ExpiryAfter(e0: Option<int>, rs: seq<Renewal>): Option<int> {
    if rs == [] then e0
    else
      var last := rs[|rs| - 1];
      Some(RenewalExpiry(ExpiryAfter(e0, rs[..|rs| - 1]), last.now, last.days))
  }

  function LimitAfter(l0: Option<int>, rs: seq<Renewal>): Option<int> {
    if rs == [] then l0
    else
      var last := rs[|rs| - 1];
      Some(RenewalDataLimit(LimitAfter(l0, rs[..|rs| - 1]), last.used, last.traffic))
  }

  // Time, and traffic, bought by the renewals numbered i and later.
  function TimeFrom(rs: seq<Renewal>, i: nat): int {
    if i >= |rs| then 0 else TimeFrom(rs[..|rs| - 1], i) + rs[|rs| - 1].days * DAY
  }

  function TrafficFrom(rs: seq<Renewal>, i: nat): int {
    if i >= |rs| then 0 else TrafficFrom(rs[..|rs| - 1], i) + rs[|rs| - 1].traffic
  }

  function ExpiryCandidate(rs: seq<Renewal>, i: nat): int
    requires i < |rs|
  {
    rs[i].now + TimeFrom(rs, i)
  }

  function LimitCandidate(rs: seq<Renewal>, i: nat): int
    requires i < |rs|
  {
    rs[i].used + TrafficFrom(rs, i)
  }

  /** The expiry after any history is the largest of "start plus all the time bought" and, for each
      renewal, "its clock plus the time bought from it on". */
  lemma {:induction false} ExpiryClosedForm(e0: Option<int>, rs: seq<Renewal>)
    requires rs != []
    ensures ExpiryAfter(e0, rs).Some?
    ensures var x := ExpiryAfter(e0, rs).value;
      && (e0.Some? ==> e0.value + TimeFrom(rs, 0) <= x)
      && (forall i: nat :: i < |rs| ==> ExpiryCandidate(rs, i) <= x)
      && ((e0.Some? && x == e0.value + TimeFrom(rs, 0))
          || exists i: nat :: i < |rs| && x == ExpiryCandidate(rs, i))
  {
    var n := |rs| - 1;
    var front := rs[..n];
    var x := ExpiryAfter(e0, rs).value;
    var bought := rs[n].days * DAY;
    assert ExpiryCandidate(rs, n) == rs[n].now + bought by {
      assert TimeFrom(front, n) == 0;
    }
    assert forall i: nat :: i < n ==> ExpiryCandidate(rs, i) == ExpiryCandidate(front, i) + bought;
    if n > 0 {
      ExpiryClosedForm(e0, front);
      var y := ExpiryAfter(e0, front).value;
      if y > rs[n].now && !(e0.Some? && y == e0.value + TimeFrom(front, 0)) {
        var i: nat :| i < n && y == ExpiryCandidate(front, i);
        assert x == ExpiryCandidate(rs, i);
      }
    }
  }

  /** The data limit after any history is the largest of "start plus all the traffic bought" and, for
      each renewal, "the usage it read plus the traffic bought from it on". An unlimited start adds
      no candidate of its own. */
  lemma {:induction false} LimitClosedForm(l0: Option<int>, rs: seq<Renewal>)
    requires rs != [] && AllSound(rs)
    ensures LimitAfter(l0, rs).Some? && LimitAfter(l0, rs).value > 0
    ensures var x := LimitAfter(l0, rs).value;
      && (l0.Some? ==> l0.value + TrafficFrom(rs, 0) <= x)
      && (forall i: nat :: i < |rs| ==> LimitCandidate(rs, i) <= x)
      && ((!Unlimited(l0) && x == l0.value + TrafficFrom(rs, 0))
          || exists i: nat :: i < |rs| && x == LimitCandidate(rs, i))
  {
    var n := |rs| - 1;
    var front := rs[..n];
    var x := LimitAfter(l0, rs).value;
    assert LimitCandidate(rs, n) == rs[n].used + rs[n].traffic by {
      assert TrafficFrom(front, n) == 0;
    }
    assert forall i: nat :: i < n ==> LimitCandidate(rs, i) == LimitCandidate(front, i) + rs[n].traffic;
    if n > 0 {
      LimitClosedForm(l0, front);
      var y := LimitAfter(l0, front).value;
      if y > rs[n].used && !(!Unlimited(l0) && y == l0.value + TrafficFrom(front, 0)) {
        var i: nat :| i < n && y == LimitCandidate(front, i);
        assert x == LimitCandidate(rs, i);
      }
    }
  }

  /** A history never shortens: renewing again only adds. */
  lemma RenewalsOnlyAdd(e0: Option<int>, l0: Option<int>, rs: seq<Renewal>, r: Renewal)
    requires AllSound(rs + [r])
    ensures ExpiryAfter(e0, rs + [r]).Some? && LimitAfter(l0, rs + [r]).Some?
    ensures ExpiryAfter(e0, rs).Some? ==> ExpiryAfter(e0, rs + [r]).value >= ExpiryAfter(e0, rs).value + r.days * DAY
    ensures !Unlimited(LimitAfter(l0, rs)) ==> LimitAfter(l0, rs + [r]).value >= LimitAfter(l0, rs).value + r.traffic
    ensures var left := LimitAfter(l0, rs + [r]).value - r.used;
      left == r.traffic + if Unlimited(LimitAfter(l0, rs)) then 0 else Max(0, LimitAfter(l0, rs).value - r.used)
  {
  }

  /** What a renewal buys: it is exhausted exactly when the clock reaches the new expiry or usage
      reaches the new limit, and never at the moment it is computed. */
  lemma RenewalLastsUntilSpent(expire: Option<int>, limit: Option<int>, r: Renewal, used: int, now: int)
    requires Sound(r)
    ensures var e, l := Some(RenewalExpiry(expire, r.now, r.days)), Some(RenewalDataLimit(limit, r.used, r.traffic));
      && (Exhausted(e, l, used, now) <==> e.value <= now || l.value <= used)
      && !Exhausted(e, l, r.used, r.now)
  {
  }

  /** An entitlement is exhausted exactly when its expiry has come or a positive limit is used up; one
      without expiry and without a positive limit never is. */
  lemma ExhaustedIff(expire: Option<int>, limit: Option<int>, used: int, now: int)
    ensures Exhausted(expire, limit, used, now) <==>
      || (expire.Some? && expire.value <= now)
      || (limit.Some? && limit.value > 0 && limit.value <= used)
  {
  }

  /** One renewal in the program's own units: microseconds and bytes. */
  lemma RenewalInUnits(current: Option<int>, limit: Option<int>, used: int, now: int, days: int, gb: int)
    ensures current.None? ==> RenewalExpiry(current, now, days) == now + days * 86_400_000_000
    ensures current.Some? && current.value <= now ==> RenewalExpiry(current, now, days) == now + days * 86_400_000_000
    ensures current.Some? && current.value >= now ==>
      RenewalExpiry(current, now, days) == current.value + days * 86_400_000_000
    ensures limit.Some? && limit.value > 0 && limit.value > used ==>
      RenewalDataLimit(limit, used, gb * GIB) == limit.value + gb * 1_073_741_824
    ensures limit.None? || limit.value <= 0 || limit.value <= used ==>
      RenewalDataLimit(limit, used, gb * GIB) == used + gb * 1_073_741_824
  {
  }
}
