/** Whatever crashes, lost replies, partial, late or repeated updates happen, the panel never holds more
    than the starting entitlement (or the usage and clock some plan was computed from) plus what the
    orders with a committed target bought, each counted once. */
module NoOverCredit {
  import opened Prelude
  import opened Quota
  import opened Wire
  import opened Entitlement
  import opened OrderMachine

  function PeakUsed(base: int, rs: seq<Renewal>): (peak: int)
    ensures peak >= base
    ensures forall i :: 0 <= i < |rs| ==> rs[i].used <= peak
    ensures peak == base || exists i :: 0 <= i < |rs| && rs[i].used == peak
  {
    if rs == [] then base else Max(PeakUsed(base, rs[..|rs| - 1]), rs[|rs| - 1].used)
  }

  function LatestNow(base: int, rs: seq<Renewal>): (latest: int)
    ensures latest >= base
    ensures forall i :: 0 <= i < |rs| ==> rs[i].now <= latest
    ensures latest == base || exists i :: 0 <= i < |rs| && rs[i].now == latest
  {
    if rs == [] then base else Max(LatestNow(base, rs[..|rs| - 1]), rs[|rs| - 1].now)
  }

  function LimitBound(start: Admin, rs: seq<Renewal>): int {
    PeakUsed(start.dataLimit.GetOr(0), rs) + TrafficFrom(rs, 0)
  }

  function ExpiryBound(start: Admin, rs: seq<Renewal>): int {
    LatestNow(start.expire.GetOr(0), rs) + TimeFrom(rs, 0)
  }

  // Within the bounds, and unlimited only if the account started unlimited.
  predicate Fits(start: Admin, limit: Option<int>, expire: Option<int>, rs: seq<Renewal>) {
    && (if Unlimited(limit) then Unlimited(start.dataLimit) else limit.value <= LimitBound(start, rs))
    && (if expire.None? then start.expire.None? else expire.value <= ExpiryBound(start, rs))
  }

  lemma {:induction false} BoughtIsNonNegative(rs: seq<Renewal>)
    requires AllSound(rs)
    ensures TrafficFrom(rs, 0) >= 0 && TimeFrom(rs, 0) >= 0
  {
    if rs != [] {
      BoughtIsNonNegative(rs[..|rs| - 1]);
    }
  }

  lemma FitsGrows(start: Admin, limit: Option<int>, expire: Option<int>, rs: seq<Renewal>, r: Renewal)
    requires Fits(start, limit, expire, rs) && Sound(r)
    ensures Fits(start, limit, expire, rs + [r])
  {
  }

  lemma NewTargetFits(start: Admin, rs: seq<Renewal>, g: Grant)
    requires AllSound(rs) && SoundGrant(g)
    requires Fits(start, g.live.dataLimit, g.live.expire, rs)
    ensures var t := TargetSnapshot(g.live, g.product, g.now);
      Fits(start, t.dataLimit, t.expire, rs + [RenewalOf(g)])
  {
    BoughtIsNonNegative(rs);
    assert (rs + [RenewalOf(g)])[..|rs|] == rs;
  }

  predicate TargetFits(start: Admin, rs: seq<Renewal>, g: Grant) {
    var t := PlanOf(g).target;
    Fits(start, t.dataLimit, t.expire, rs)
  }

  predicate TargetsFit(start: Admin, ledger: seq<Grant>) {
    forall i :: 0 <= i < |ledger| ==> TargetFits(start, Renewals(ledger), ledger[i])
  }

  // The account some worker state still remembers.
  function Remembered(w: Worker): Option<Admin> {
    match w
    case Read(_, live) => Some(live)
    case Computed(g) => Some(g.live)
    case _ => None
  }

  predicate AdminFits(start: Admin, a: Admin, rs: seq<Renewal>) {
    Fits(start, a.dataLimit, a.expire, rs)
  }

  predicate Bounded(start: Admin, s: State) {
    && AdminFits(start, s.panel, Renewals(s.ledger))
    && TargetsFit(start, s.ledger)
    && (Remembered(s.worker).Some? ==> AdminFits(start, Remembered(s.worker).value, Renewals(s.ledger)))
  }

  lemma RenewalsAreSound(s: State)
    requires Inv(s)
    ensures AllSound(Renewals(s.ledger))
  {
  }

  lemma TargetsExtended(start: Admin, ledger: seq<Grant>, g: Grant)
    requires TargetsFit(start, ledger) && AllSound(Renewals(ledger)) && SoundGrant(g)
    requires AdminFits(start, g.live, Renewals(ledger))
    ensures TargetsFit(start, ledger + [g])
    ensures Renewals(ledger + [g]) == Renewals(ledger) + [RenewalOf(g)]
  {
    var rs := Renewals(ledger);
    assert Renewals(ledger + [g]) == rs + [RenewalOf(g)];
    NewTargetFits(start, rs, g);
    forall i | 0 <= i < |ledger| ensures TargetFits(start, rs + [RenewalOf(g)], ledger[i]) {
      assert TargetFits(start, rs, ledger[i]);
      var t := PlanOf(ledger[i]).target;
      FitsGrows(start, t.dataLimit, t.expire, rs, RenewalOf(g));
    }
  }

  lemma PersistKeepsBounds(start: Admin, s: State)
    requires Inv(s) && Bounded(start, s) && Can(s, Persist)
    ensures Bounded(start, Step(s, Persist))
  {
    var g := s.worker.grant;
    RenewalsAreSound(s);
    TargetsExtended(start, s.ledger, g);
    FitsGrows(start, s.panel.dataLimit, s.panel.expire, Renewals(s.ledger), RenewalOf(g));
  }

  lemma DeliveryKeepsBounds(start: Admin, s: State, r: Request, fields: set<Field>)
    requires Inv(s) && Bounded(start, s) && Can(s, Deliver(r, fields))
    ensures Bounded(start, Step(s, Deliver(r, fields)))
  {
    if r.Update? {
      assert RequestOk(s, r);
      assert InLedger(s.ledger, r.oid);
      var i :| 0 <= i < |s.ledger| && s.ledger[i].oid == r.oid;
      assert Recorded(s.db.orders, s.ledger[i]);
      assert TargetFits(start, Renewals(s.ledger), s.ledger[i]);
      PurchaseChanges(s.ledger[i].live, s.ledger[i].product, s.ledger[i].now);
      RoundTrip(r.target.expire.value);
    }
  }

  // Every other step leaves the ledger, the account's limit and expiry, and remembers only what it read.
  lemma OtherSteps(s: State, e: Event)
    requires Can(s, e) && !e.Persist? && !e.Deliver?
    ensures var s' := Step(s, e);
      && s'.ledger == s.ledger
      && s'.panel.dataLimit == s.panel.dataLimit && s'.panel.expire == s.panel.expire
      && Remembered(s'.worker) in {None, Some(s.panel), Remembered(s.worker)}
  {
  }

  lemma StepKeepsBounds(start: Admin, s: State, e: Event)
    requires Inv(s) && Bounded(start, s) && Can(s, e)
    ensures Bounded(start, Step(s, e))
  {
    match e
    case Persist => PersistKeepsBounds(start, s);
    case Deliver(r, fields) => DeliveryKeepsBounds(start, s, r, fields);
    case _ => OtherSteps(s, e);
  }

  lemma {:induction false} RunKeepsBounds(start: Admin, s: State, es: seq<Event>)
    requires Inv(s) && Bounded(start, s) && Valid(s, es)
    ensures Inv(Final(s, es)) && Bounded(start, Final(s, es))
    decreases |es|
  {
    if es != [] {
      StepKeepsInv(s, es[0]);
      StepKeepsBounds(start, s, es[0]);
      RunKeepsBounds(start, Step(s, es[0]), es[1..]);
    }
  }

  /** Main result: after any run, with any number of orders, the entitlement is bounded by what was
      there (or was read) plus the purchases of the orders that committed a target. Each such order
      appears once in the ledger, with the plan it still has in the database. */
  lemma NoOverCredit(s: State, es: seq<Event>)
    requires Init(s) && Valid(s, es)
    ensures var f := Final(s, es); var rs := Renewals(f.ledger);
      && (if Unlimited(f.panel.dataLimit) then Unlimited(s.panel.dataLimit)
          else f.panel.dataLimit.value <= LimitBound(s.panel, rs))
      && (if f.panel.expire.None? then s.panel.expire.None?
          else f.panel.expire.value <= ExpiryBound(s.panel, rs))
      && Distinct(f.ledger)
      && (forall k: nat :: k < |f.db.orders| ==> (f.db.orders[k].plan.Some? <==> InLedger(f.ledger, k)))
      && (forall i :: 0 <= i < |f.ledger| ==> Recorded(f.db.orders, f.ledger[i]))
  {
    RunKeepsBounds(s.panel, s, es);
  }

  /** A committed plan is never changed or removed, and an applied order stays applied. */
  lemma StepKeepsPlan(s: State, e: Event, oid: nat)
    requires Inv(s) && Can(s, e) && oid < |s.db.orders|
    ensures var d, d' := s.db.orders, Step(s, e).db.orders;
      && |d'| == |d|
      && (d[oid].plan.Some? ==> d'[oid].plan == d[oid].plan && d'[oid].status in {Applying, Applied})
      && (d[oid].status == Applied ==> d'[oid] == d[oid])
  {
  }

  lemma {:induction false} TargetIsWriteOnce(s: State, es: seq<Event>, oid: nat)
    requires Inv(s) && Valid(s, es) && oid < |s.db.orders|
    ensures var d, d' := s.db.orders, Final(s, es).db.orders;
      && |d'| == |d|
      && (d[oid].plan.Some? ==> d'[oid].plan == d[oid].plan && d'[oid].status in {Applying, Applied})
      && (d[oid].status == Applied ==> d'[oid] == d[oid])
    decreases |es|
  {
    if es != [] {
      StepKeepsInv(s, es[0]);
      StepKeepsPlan(s, es[0], oid);
      TargetIsWriteOnce(Step(s, es[0]), es[1..], oid);
    }
  }
}
