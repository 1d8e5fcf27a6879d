/** What one attempt does, seen from outside: the three-way recovery, its limits, and targets that are
    never recognised. */
module Recovery {
  import opened Prelude
  import opened Wire
  import opened Entitlement
  import opened RebeccaPanel
  import opened OrderMachine
  import opened ExactlyOnce
  import opened Payments

  // A row whose plan was computed from a sound read and is committed, but not applied.
  predicate OpenRow(r: Rows, g: Grant) {
    && SoundGrant(g)
    && r.order == Order(Applying, Some(PlanOf(g)))
    && r.savedOrder.order == r.order
    && r.account.Some?
    && r.reseller != Suspended
  }

  // What the panel must look like for a resent target to be recognisable afterwards.
  predicate Recognisable(live: Admin, target: Snapshot, reseller: ResellerStatus) {
    && target.expire.Some? && WholeSecond(target.expire.value)
    && live.role == target.role
    && (NormalizeStatus(live.status) == Active || reseller in {ResellerExpired, ResellerDisabled})
  }

  /** Recovery without faults, from any account state. Target found: settle, no call. "Before" found:
      resend, and settle exactly when the result is recognisable. Anything else: stop, touching nothing.
      The plan survives in every case. */
  lemma RecoveryIsThreeWay(r: Rows, g: Grant, name: string, product: Product, now: int)
    requires OpenRow(r, g)
    ensures var a := Attempted(r, name, product, now, CLEAN);
      var live := r.account.value;
      var before, target := EntitlementSnapshot(g.live), Target(g);
      && a.rows.order.plan == r.order.plan && a.rows.savedOrder == r.savedOrder
      && !(Matches(live, before) && Matches(live, target))
      && (Matches(live, target) ==>
            a.outcome == Changed && a.rows.order.status == Applied && a.rows.account == r.account && a.calls == [])
      && (Matches(live, before) ==>
            && |a.calls| > 0 && a.calls[0] == UpdateAdmin(name)
            && (a.outcome == Changed <==> Recognisable(live, target, r.reseller))
            && (a.outcome == Changed ==>
                  a.rows.order.status == Applied && Matches(a.rows.account.value, target))
            && (a.outcome != Changed ==> a.outcome == Raised(Mismatch) && a.rows.order == r.order))
      && (!Matches(live, target) && !Matches(live, before) ==>
            a.outcome == Raised(Ambiguous) && a.rows == r.(applyError := Some(Ambiguous)) && a.calls == [])
  {
  }

  /** A first attempt without faults settles exactly when its own target is recognisable, and then the
      account is what the purchase asked for. */
  lemma FirstAttempt(r: Rows, name: string, product: Product, now: int)
    requires r.order == Order(Paid, None) && r.account.Some? && r.reseller != Suspended
    requires Purchase(product) && now >= SECOND && r.account.value.used >= 0
    ensures var a := Attempted(r, name, product, now, CLEAN);
      var live := r.account.value;
      var target := TargetSnapshot(live, product, now);
      && a.rows.savedOrder.order == Order(Applying, Some(Plan(Some(EntitlementSnapshot(live)), target)))
      && (a.outcome == Changed <==> Recognisable(live, target, r.reseller))
      && (a.outcome == Changed ==>
            && EntitlementSnapshot(a.rows.account.value) == target
            && a.rows.order.status == Applied
            && a.rows.reseller == Reactivated(r.reseller))
  {
  }

  // ----- When an open renewal can still be settled -----

  // The account shows the target, or still the "before" in a state a resent target is recognisable from.
  predicate Settleable(live: Admin, g: Grant, reseller: ResellerStatus) {
    || Matches(live, Target(g))
    || (Matches(live, EntitlementSnapshot(g.live)) && Recognisable(live, Target(g), reseller))
  }

  lemma SettlesOnlyIfSettleable(r: Rows, g: Grant, name: string, product: Product, now: int, net: Net)
    requires OpenRow(r, g) && Attempted(r, name, product, now, net).outcome == Changed
    ensures Settleable(r.account.value, g, r.reseller)
  {
    PurchaseChanges(g.live, g.product, g.now);
    RoundTrip(Target(g).expire.value);
  }

  /** The exact condition: some attempt, whatever it meets, settles an open renewal if and only if its
      account shows the target, or "before" with a recognisable target. */
  lemma SomeAttemptSettlesIff(r: Rows, g: Grant, name: string, product: Product, now: int)
    requires OpenRow(r, g)
    ensures (exists net :: Attempted(r, name, product, now, net).outcome == Changed)
       <==> Settleable(r.account.value, g, r.reseller)
  {
    RecoveryIsThreeWay(r, g, name, product, now);
    if Settleable(r.account.value, g, r.reseller) {
      assert Attempted(r, name, product, now, CLEAN).outcome == Changed;
    }
    forall net | Attempted(r, name, product, now, net).outcome == Changed
      ensures Settleable(r.account.value, g, r.reseller)
    {
      SettlesOnlyIfSettleable(r, g, name, product, now, net);
    }
  }

  // What the panel must execute to get from the account to the target.
  predicate Differs(f: Field, live: Admin, target: Snapshot) {
    match f
    case DataLimit => live.dataLimit != target.dataLimit
    case Expire => live.expire != target.expire
    case Services => live.services != target.services
    case UsersLimit => live.usersLimit != target.usersLimit
  }

  predicate NeedsEnable(live: Admin) {
    NormalizeStatus(live.status) != Active
  }

  predicate EnableExecuted(net: Net) {
    net.updateAnswered && net.enable.executed
  }

  predicate AllExecuted(live: Admin, target: Snapshot, net: Net) {
    (forall f :: Differs(f, live, target) ==> f in net.fields) && (NeedsEnable(live) ==> EnableExecuted(net))
  }

  predicate NoneExecuted(live: Admin, target: Snapshot, net: Net) {
    (forall f :: Differs(f, live, target) ==> f !in net.fields) && (NeedsEnable(live) ==> !EnableExecuted(net))
  }

  // Neither snapshot: every later attempt stops there.
  predicate Unrecognised(live: Admin, g: Grant) {
    !Matches(live, EntitlementSnapshot(g.live)) && !Matches(live, Target(g))
  }

  lemma MutationStrandsIff(r: Rows, g: Grant, name: string, product: Product, now: int, net: Net)
    requires SoundGrant(g) && r.order.plan == Some(PlanOf(g)) && r.account.Some?
    requires Matches(r.account.value, EntitlementSnapshot(g.live))
    requires Recognisable(r.account.value, Target(g), r.reseller)
    ensures var live, a := r.account.value, Mutation(r, name, product, now, net);
      && a.rows.account.Some?
      && (Unrecognised(a.rows.account.value, g) <==>
            !AllExecuted(live, Target(g), net) && !NoneExecuted(live, Target(g), net))
  {
    var live, target := r.account.value, Target(g);
    PurchaseChanges(g.live, g.product, g.now);
    RoundTrip(target.expire.value);
    assert Differs(DataLimit, live, target) && Differs(Expire, live, target);
    assert AllExecuted(live, target, net) ==> DataLimit in net.fields && Expire in net.fields;
    var a := Mutation(r, name, product, now, net).rows.account.value;
    var enabled := r.reseller in {ResellerExpired, ResellerDisabled} && EnableExecuted(net);
    assert a == Write(live, target, net.fields).(status := if enabled then Active else live.status) by {
      hide Matches, Recognisable, TargetSnapshot;
    }
    hide Mutation;
    AccountStrandsIff(live, a, g, net, enabled);
  }

  lemma AccountStrandsIff(live: Admin, a: Admin, g: Grant, net: Net, enabled: bool)
    requires Matches(live, EntitlementSnapshot(g.live)) && live.role == Target(g).role
    requires SoundGrant(g) && Image(Target(g).expire) == Target(g).expire
    requires NeedsEnable(live) ==> enabled == EnableExecuted(net)
    requires a == Write(live, Target(g), net.fields).(status := if enabled then Active else live.status)
    ensures Unrecognised(a, g) <==> !AllExecuted(live, Target(g), net) && !NoneExecuted(live, Target(g), net)
  {
    PurchaseChanges(g.live, g.product, g.now);
    var target := Target(g);
    assert Differs(DataLimit, live, target) && Differs(Expire, live, target);
    assert Matches(a, target) <==> AllExecuted(live, target, net) by {
      assert forall f :: Differs(f, live, target) ==> f in net.fields <==> !Differs(f, a, target);
    }
  }

  /** Which faults of one attempt leave an open renewal that no attempt can settle: exactly those under
      which the panel executed some, but not all, of what separates the account from the target. A lost
      enable after a full update is one of them. */
  lemma AttemptStrandsIff(r: Rows, g: Grant, name: string, product: Product, now: int, net: Net)
    requires OpenRow(r, g) && net.readable && Matches(r.account.value, EntitlementSnapshot(g.live))
    requires Recognisable(r.account.value, Target(g), r.reseller)
    ensures var live, a := r.account.value, Attempted(r, name, product, now, net);
      && a.rows.account.Some?
      && (Unrecognised(a.rows.account.value, g) <==>
            !AllExecuted(live, Target(g), net) && !NoneExecuted(live, Target(g), net))
  {
    RecoveryIsThreeWay(r, g, name, product, now);
    MutationStrandsIff(r, g, name, product, now, net);
    hide Mutation, Matches, Recognisable, Unrecognised, AllExecuted, NoneExecuted;
  }

  /** The same of a first attempt, once its plan is committed. */
  lemma FirstAttemptStrandsIff(r: Rows, name: string, product: Product, now: int, net: Net)
    requires r.order == Order(Paid, None) && r.account.Some? && r.reseller != Suspended
    requires Purchase(product) && now >= SECOND && r.account.value.used >= 0 && net.readable && net.committed
    requires Recognisable(r.account.value, TargetSnapshot(r.account.value, product, now), r.reseller)
    ensures var live, a := r.account.value, Attempted(r, name, product, now, net);
      var g := Grant(0, live, product, now);
      && a.rows.account.Some?
      && (Unrecognised(a.rows.account.value, g) <==>
            !AllExecuted(live, Target(g), net) && !NoneExecuted(live, Target(g), net))
  {
    var live := r.account.value;
    var g := Grant(0, live, product, now);
    MutationStrandsIff(r.(order := Order(Applying, Some(PlanOf(g))), applyError := None).Saved(), g, name, product,
                       now, net);
    hide Mutation, Recognisable, Unrecognised, AllExecuted, NoneExecuted;
  }

  /** Settling sets the reseller's product only on the direct path. It is the bought one afterwards if and
      only if the attempt planned the order, or found its target not yet in place, or it was so before. */
  lemma ProductIsSetIff(r: Rows, name: string, product: Product, now: int, net: Net)
    ensures var a := Attempted(r, name, product, now, net);
      a.outcome == Changed ==>
        (a.rows.productId == Some(product.id) <==>
           || r.order.plan.None?
           || (r.account.Some? && !Matches(r.account.value, r.order.plan.value.target))
           || r.productId == Some(product.id))
  {
  }

  /** A target without a "before" (a first purchase's) is never applied here: whatever the account and the
      faults, the order stays as it is and nothing is sent. */
  lemma NoBeforeNeverApplies(r: Rows, name: string, product: Product, now: int, net: Net)
    requires r.order.plan.Some? && r.order.plan.value.before.None?
    ensures var a := Attempted(r, name, product, now, net);
      && a.rows == r.(applyError := a.rows.applyError) && a.calls == []
      && a.outcome != Changed
      && (r.order.status != Applied && r.reseller != Suspended && net.readable && r.account.Some? ==>
            a.outcome == Raised(NoBeforeSnapshot))
  {
  }

  /** What settling does to the rows, on either branch: the order is applied now and without error, and an
      expired or disabled reseller is ACTIVE again while any other status stays. */
  lemma SettlingBringsBack(r: Rows, name: string, product: Product, now: int, net: Net)
    ensures var a := Attempted(r, name, product, now, net);
      && (a.outcome == Changed ==>
            && a.rows.order.status == Applied && a.rows.appliedAt == Some(now) && a.rows.applyError == None
            && a.rows.reseller == if r.reseller == ResellerExpired || r.reseller == ResellerDisabled
                                  then ResellerActive else r.reseller)
      && (a.outcome == Skipped <==> r.order.status == Applied || r.reseller == Suspended)
      && (a.outcome == Skipped ==> a.rows == r)
      && (a.outcome.Raised? && a.outcome != Raised(NotCommitted) ==>
            a.rows.order.status == if r.order.plan.None? && a.rows.order.plan.Some? then Applying else r.order.status)
  {
  }

  /** What a failure leaves on the row: its reason, whenever it came after a mutation began or from the
      comparison; a read that is not answered leaves no trace. */
  lemma FailuresAreRecorded(r: Rows, name: string, product: Product, now: int, net: Net)
    requires r.order.status != Applied && r.reseller != Suspended
    ensures var a := Attempted(r, name, product, now, net);
      && (a.outcome in {Raised(NoBeforeSnapshot), Raised(Ambiguous), Raised(Mismatch)} ==>
            a.rows.applyError == Some(a.outcome.fault))
      && (a.outcome == Raised(NoAnswer) && !net.readable ==> a.rows == r)
      && (a.outcome == Raised(NoAnswer) && net.readable && net.verifiable ==> a.rows.applyError == Some(NoAnswer))
      && (a.outcome == Raised(ResellerMissing) <==> net.readable && r.account.None?)
      && (a.outcome == Raised(NotCommitted) ==>
            a.rows.order == r.savedOrder.order && a.rows.reseller == r.savedReseller.status && a.calls == [])
  {
  }

  /** No target, no call: a request reaches the panel only after the plan it carries is committed. */
  lemma CallsFollowCommit(r: Rows, name: string, product: Product, now: int, net: Net)
    requires r.savedOrder.order.plan == r.order.plan
    ensures var a := Attempted(r, name, product, now, net);
      && (a.calls != [] ==> a.rows.order.plan.Some?)
      && a.rows.savedOrder.order.plan == a.rows.order.plan
      && (a.rows.account != r.account ==> a.calls != [])
      && (r.order.plan.Some? ==> a.rows.order.plan == r.order.plan)
      && (r.reseller == Suspended ==> a.rows == r && a.calls == [])
  {
  }

  /** Renewing an account that has run out, or never had an expiry, starts from the clock. */
  lemma ExpiredRenewalsInheritTheClock(live: Admin, product: Product, now: int)
    requires live.expire.None? || live.expire.value <= now
    ensures WholeSecond(TargetSnapshot(live, product, now).expire.value) <==> WholeSecond(now)
  {
  }

  // ----- Fractional targets -----

  // The panel reports whole seconds only.
  predicate Reported(expire: Option<int>) {
    expire.Some? ==> WholeSecond(expire.value)
  }

  predicate NoFractionSettled(orders: seq<Order>) {
    forall k :: 0 <= k < |orders| && orders[k].status == Applied && orders[k].plan.Some? ==>
      Reported(orders[k].plan.value.target.expire)
  }

  predicate FractionInv(s: State) {
    && Reported(s.panel.expire) && (s.worker.Read? ==> Reported(s.worker.live.expire))
    && NoFractionSettled(s.db.orders) && NoFractionSettled(s.mem.orders)
  }

  lemma StepKeepsFractionInv(s: State, e: Event)
    requires Inv(s) && FractionInv(s) && Can(s, e)
    ensures FractionInv(Step(s, e))
  {
    hide BooksOk, RequestOk, PlanOf;
  }

  lemma {:induction false} RunKeepsFractionInv(s: State, es: seq<Event>)
    requires Inv(s) && FractionInv(s) && Valid(s, es)
    ensures Inv(Final(s, es)) && FractionInv(Final(s, es))
    decreases |es|
  {
    if es != [] {
      hide Inv, FractionInv, Can, Step;
      StepKeepsInv(s, es[0]);
      StepKeepsFractionInv(s, es[0]);
      RunKeepsFractionInv(Step(s, es[0]), es[1..]);
    }
  }

  /** An order whose target expiry is not a whole second is never recognised: in every run from an
      account as the panel reports it, with any number of orders and any faults, it stays APPLYING, even
      when the panel executed its update in full. */
  lemma FractionalTargetNeverSettles(s: State, es: seq<Event>, i: nat)
    requires Init(s) && Reported(s.panel.expire) && Valid(s, es)
    requires i < |Final(s, es).ledger| && !WholeSecond(Target(Final(s, es).ledger[i]).expire.value)
    ensures var f := Final(s, es); var oid := f.ledger[i].oid;
      && oid < |f.db.orders| && oid < |f.mem.orders|
      && f.db.orders[oid].status == f.mem.orders[oid].status == Applying
  {
    RunKeepsFractionInv(s, es);
    var f := Final(s, es);
    assert Recorded(f.db.orders, f.ledger[i]);
    assert Agree(f.db.orders[f.ledger[i].oid], f.mem.orders[f.ledger[i].oid]);
  }
}
