/** Where exactly-once ends: two orders open at once can share one credit, and a request that outlives its
    order can undo the next one's. */
module SharedCredit {
  import opened Prelude
  import opened Quota
  import opened Wire
  import opened Entitlement
  import opened OrderMachine
  import opened ExactlyOnce
  import opened Payments
  import opened Recovery

  // An active reseller account with a limit, not used up and not yet expired at that time.
  predicate InService(a: Admin, now: int) {
    && a.role == "reseller" && a.status == Active
    && a.expire.Some? && a.expire.value >= now && WholeSecond(a.expire.value)
    && !Unlimited(a.dataLimit) && a.dataLimit.value > a.used
  }

  // Two paid orders without a plan.
  predicate TwoPaid(s: State) {
    && Init(s) && |s.db.orders| == 2
    && s.db.orders[0] == s.db.orders[1] == Order(Paid, None)
    && s.db.reseller == ResellerActive
  }

  lemma TargetInService(a: Admin, p: Product, now: int)
    requires InService(a, now) && Purchase(p) && now >= SECOND
    ensures var t := TargetSnapshot(a, p, now);
      && Image(t.expire) == t.expire
      && t.expire == Some(a.expire.value + p.days * DAY)
      && t.dataLimit == Some(a.dataLimit.value + p.trafficGb * GIB)
      && forall later :: later <= a.expire.value ==> InService(Write(a, t, ALL_FIELDS), later)
  {
    assert a.expire.value + p.days * DAY == a.expire.value + p.days * 86_400 * SECOND;
    WholeSecondsAdd(a.expire.value, p.days * 86_400);
  }

  lemma WholeSecondsAdd(t: int, n: int)
    requires WholeSecond(t)
    ensures WholeSecond(t + n * SECOND)
  {
  }

  // The order commits its plan and is about to send its update.
  lemma OrderIsArmed(from: State, es0: seq<Event>, s: State, oid: nat, p: Product, now: int)
    returns (es: seq<Event>, f: State)
    requires Leads(Any, from, es0, s)
    requires s.worker.Idle? && Ready(s, oid) && s.mem.orders[oid] == Order(Paid, None)
    requires s.mem.reseller == ResellerActive && now >= SECOND && Purchase(p)
    ensures var g := Grant(oid, s.panel, p, now);
      var store := s.mem.(orders := s.mem.orders[oid := Order(Applying, Some(PlanOf(g)))]);
      && Leads(Any, from, es, f)
      && f == s.(db := store, mem := store, worker := Armed(oid), ledger := s.ledger + [g], effective := {})
  {
    hide Leads;
    es, f := Next(Any, from, es0, s, Begin(oid));
    es, f := Next(Any, from, es, f, Compute(p, now));
    es, f := Next(Any, from, es, f, Persist);
  }

  // The order is applied normally and committed; its one update may still be delivered again.
  lemma OrderApplies(from: State, es0: seq<Event>, s: State, oid: nat, p: Product, now: int)
    returns (es: seq<Event>, f: State)
    requires Leads(Any, from, es0, s)
    requires s.worker.Idle? && Ready(s, oid) && s.mem.orders[oid] == Order(Paid, None)
    requires s.mem.reseller == ResellerActive && now >= SECOND
    requires InService(s.panel, now) && Purchase(p)
    ensures var target := TargetSnapshot(s.panel, p, now);
      && Leads(Any, from, es, f) && f.worker.Idle?
      && f.panel == Write(s.panel, target, ALL_FIELDS)
      && f.db == f.mem
      && f.mem == s.mem.(orders := s.mem.orders[oid := Order(Applied, Some(PlanOf(Grant(oid, s.panel, p, now))))])
      && f.inflight == s.inflight + {Update(s.sent, oid, target)}
  {
    TargetInService(s.panel, p, now);
    var target := TargetSnapshot(s.panel, p, now);
    var panel := Write(s.panel, target, ALL_FIELDS);
    assert Matches(panel, target);
    hide Leads, InService, Matches;
    es, f := OrderIsArmed(from, es0, s, oid, p, now);
    hide TargetSnapshot;
    es, f := Next(Any, from, es, f, SendUpdate);
    es, f := Next(Any, from, es, f, Deliver(Update(s.sent, oid, target), ALL_FIELDS));
    assert f.panel == panel;
    hide Write;
    es, f := Next(Any, from, es, f, UpdateReturns);
    es, f := Next(Any, from, es, f, Verify);
    es, f := Next(Any, from, es, f, Commit);
  }

  // An open order finds its target in place and is settled.
  lemma OrderSettles(from: State, es0: seq<Event>, s: State, oid: nat, plan: Plan) returns (es: seq<Event>, f: State)
    requires Leads(Any, from, es0, s)
    requires s.worker.Idle? && Ready(s, oid) && s.mem.orders[oid] == Order(Applying, Some(plan)) && plan.before.Some?
    requires s.mem.reseller == ResellerActive && Matches(s.panel, plan.target)
    ensures Leads(Any, from, es, f) && f.panel == s.panel
    ensures f.db.orders == s.mem.orders[oid := Order(Applied, Some(plan))]
  {
    hide Leads, Matches;
    es, f := Next(Any, from, es0, s, Begin(oid));
    es, f := Next(Any, from, es, f, Settle);
    es, f := Next(Any, from, es, f, Commit);
  }

  /** For every such account and product, and any two clocks before its expiry, there is a run without
      any late or repeated request that marks both orders applied while the account was credited once. */
  lemma TwoOpenOrdersShareOneCredit(s: State, p: Product, now0: int, now1: int) returns (es: seq<Event>)
    requires TwoPaid(s) && Purchase(p) && SECOND <= now0 && SECOND <= now1
    requires InService(s.panel, now0) && InService(s.panel, now1)
    ensures Valid(s, es)
    ensures var f := Final(s, es);
      && |f.db.orders| == 2 && f.db.orders[0].status == Applied && f.db.orders[1].status == Applied
      && f.panel.dataLimit == Some(s.panel.dataLimit.value + p.trafficGb * GIB)
      && f.panel.expire == Some(s.panel.expire.value + p.days * DAY)
  {
    TargetInService(s.panel, p, now0);
    TargetInService(s.panel, p, now1);
    var f: State;
    var target := TargetSnapshot(s.panel, p, now1);
    es, f := OrderIsArmed(s, [], s, 0, p, now0);
    hide Leads;
    es, f := Next(Any, s, es, f, Fail);
    es, f := OrderApplies(s, es, f, 1, p, now1);
    assert Matches(f.panel, target);
    hide Matches, Write;
    es, f := Next(Any, s, es, f, Drop(Update(s.sent, 1, target)));
    es, f := OrderSettles(s, es, f, 0, PlanOf(Grant(0, s.panel, p, now0)));
  }

  /** When two open orders were planned from the same account, the second one to be looked at settles on
      the first one's credit exactly when their targets are equal; otherwise it stops for good as
      ambiguous. It never sends anything. */
  lemma SecondOrderSettlesIffSameTarget(r: Rows, g0: Grant, g1: Grant, name: string, product: Product, now: int,
                                        net: Net)
    requires OpenRow(r, g0) && SoundGrant(g1) && net.readable
    requires EntitlementSnapshot(g0.live) == EntitlementSnapshot(g1.live)
    requires Matches(r.account.value, Target(g1))
    ensures var a := Attempted(r, name, product, now, net);
      && (a.outcome == Changed <==> Target(g0) == Target(g1))
      && (a.outcome != Changed ==> a.outcome == Raised(Ambiguous) && a.rows.order == r.order)
      && a.calls == [] && a.rows.account == r.account
  {
  }

  /** For an account in service at both clocks the targets are equal exactly when the products sell the
      same: a caller can tell before the second order is planned. */
  lemma SameTargetIffSamePurchase(g0: Grant, g1: Grant)
    requires SoundGrant(g0) && SoundGrant(g1) && g1.live == g0.live
    requires InService(g0.live, g0.now) && InService(g0.live, g1.now)
    ensures Target(g0) == Target(g1) <==>
      && g0.product.days == g1.product.days && g0.product.trafficGb == g1.product.trafficGb
      && g0.product.services == g1.product.services && g0.product.usersLimit == g1.product.usersLimit
  {
  }

  /** For every such account and any two products there is a run in which the second order is planned
      while a copy of the first one's update is still under way: both end applied, and the late copy
      takes the second credit back. */
  lemma LateUpdateUndoesTheNextCredit(s: State, p0: Product, p1: Product, now0: int, now1: int) returns (es: seq<Event>)
    requires TwoPaid(s) && Purchase(p0) && Purchase(p1) && SECOND <= now0 && SECOND <= now1
    requires InService(s.panel, now0) && now1 <= s.panel.expire.value
    ensures Valid(s, es)
    ensures var f := Final(s, es);
      && |f.db.orders| == 2 && f.db.orders[0].status == Applied && f.db.orders[1].status == Applied
      && f.panel.dataLimit == Some(s.panel.dataLimit.value + p0.trafficGb * GIB)
      && f.panel.expire == Some(s.panel.expire.value + p0.days * DAY)
  {
    TargetInService(s.panel, p0, now0);
    var f: State;
    var target := TargetSnapshot(s.panel, p0, now0);
    es, f := OrderApplies(s, [], s, 0, p0, now0);
    es, f := OrderApplies(s, es, f, 1, p1, now1);
    hide Leads;
    es, f := Next(Any, s, es, f, Deliver(Update(s.sent, 0, target), ALL_FIELDS));
  }
}
