/** Paid renewals that the program leaves open for good: how they come about, and that nothing but the
    owner's switch gets them out. */
module StrandedRenewals {
  import opened Prelude
  import opened Wire
  import opened Entitlement
  import opened RebeccaPanel
  import opened OrderMachine
  import opened ExactlyOnce
  import opened Recovery
  import opened Series

  /** Order oid is open, nothing else is, and its account is switched off and neither "before" nor target. */
  predicate Stranded(v: View, oid: nat, plan: Plan) {
    && oid < |v.db.orders| && oid < |v.mem.orders|
    && v.db.orders[oid] == v.mem.orders[oid] == Order(Applying, Some(plan))
    && plan.before.Some? && plan.target.status == Active
    && NormalizeStatus(v.panel.status) == Disabled && !Matches(v.panel, plan.before.value)
    && ClosedBut(v.db.orders, oid) && ClosedBut(v.mem.orders, oid)
  }

  predicate ClosedBut(orders: seq<Order>, oid: nat) {
    forall k :: 0 <= k < |orders| && k != oid && orders[k].plan.Some? ==> orders[k].status == Applied
  }

  predicate NoOwner(ws: seq<Work>) {
    forall i :: 0 <= i < |ws| ==> !ws[i].OwnerSwitch?
  }

  // The account apart from usage, and from which word says that it is off.
  predicate SameAccount(a: Admin, b: Admin) {
    b == a.(used := b.used, status := b.status) && NormalizeStatus(b.status) == NormalizeStatus(a.status)
  }

  lemma SameAccountMatches(a: Admin, b: Admin, s: Snapshot)
    requires SameAccount(a, b)
    ensures Matches(a, s) <==> Matches(b, s)
  {
  }

  lemma StrandedAttempt(v: View, oid: nat, plan: Plan, admin: string, w: Work)
    requires Stranded(v, oid, plan) && w.Attempt?
    requires Selects(v, w.oid) && v.mem.orders[w.oid].plan.None? ==> NothingOpen(v.mem.orders)
    ensures Worked(v, admin, w) == v
  {
    if Selects(v, w.oid) {
      assert !NothingOpen(v.mem.orders);
      assert w.oid == oid;
      assert Worked(v, admin, w).mem.orders == v.mem.orders;
    }
  }

  lemma SyncOfSwitchedOff(v: View, admin: string, w: Work)
    requires w.Sync? && NormalizeStatus(v.panel.status) == Disabled
    ensures var v' := Worked(v, admin, w);
      SameAccount(v.panel, v'.panel) && v'.db == v.db && v'.mem.orders == v.mem.orders
  {
    hide AllOff, Resellers.AdminExhausted;
  }

  lemma StrandedStep(v: View, oid: nat, plan: Plan, admin: string, w: Work)
    requires Stranded(v, oid, plan) && !w.OwnerSwitch?
    requires w.Attempt? && Selects(v, w.oid) && v.mem.orders[w.oid].plan.None? ==> NothingOpen(v.mem.orders)
    ensures Stranded(Worked(v, admin, w), oid, plan) && SameAccount(v.panel, Worked(v, admin, w).panel)
  {
    hide Matches;
    match w
    case Attempt(_, _, _, _) => StrandedAttempt(v, oid, plan, admin, w);
    case Sync(_, _, _, _, _) =>
      SyncOfSwitchedOff(v, admin, w);
      SameAccountMatches(v.panel, Worked(v, admin, w).panel, plan.before.value);
      hide Worked;
    case Spend(_) => SameAccountMatches(v.panel, Worked(v, admin, w).panel, plan.before.value);
    case _ =>
  }

  /** A stranded renewal stays open, whatever the scheduler does, until the owner switches the account:
      no attempt settles it, no sync touches the account. */
  lemma {:induction false} StrandedUntilTheOwnerActs(v: View, oid: nat, plan: Plan, admin: string, ws: seq<Work>)
    requires Stranded(v, oid, plan) && NoOwner(ws) && OneAtATime(v, admin, ws)
    ensures var f := WorkedAll(v, admin, ws); Stranded(f, oid, plan) && SameAccount(v.panel, f.panel)
    decreases |ws|
  {
    if ws != [] {
      hide Stranded, Worked, NothingOpen, Selects;
      StrandedStep(v, oid, plan, admin, ws[0]);
      StrandedUntilTheOwnerActs(Worked(v, admin, ws[0]), oid, plan, admin, ws[1..]);
    }
  }

  // Order oid is open with this plan in both copies, and nothing else is.
  predicate OpenAlone(v: View, oid: nat, g: Grant) {
    && SoundGrant(g) && oid < |v.db.orders| && oid < |v.mem.orders|
    && v.db.orders[oid] == v.mem.orders[oid] == Order(Applying, Some(PlanOf(g)))
    && ClosedBut(v.db.orders, oid) && ClosedBut(v.mem.orders, oid)
    && Matches(v.panel, EntitlementSnapshot(g.live))
  }

  /** The program strands a renewal by expiring it: planned from an active account, its update lost, the
      next sync switches the exhausted account off. */
  lemma ExpiryStrands(v: View, oid: nat, g: Grant, admin: string, w: Work)
    requires OpenAlone(v, oid, g) && NormalizeStatus(v.panel.status) == Active
    requires w.Sync? && !w.hold && admin != "" && Resellers.Serving(v.mem.reseller)
    requires Resellers.AdminExhausted(v.panel, w.now) && !w.settings.dryRun && w.settings.allowDisable
    requires w.net.readable && w.net.disable.executed
    ensures Stranded(Worked(v, admin, w), oid, PlanOf(g))
  {
    hide AllOff, Resellers.AdminExhausted;
  }

  /** And by a part of an attempt: for a switched-off account any change without the enable. */
  lemma LostEnableStrands(v: View, oid: nat, g: Grant, admin: string, w: Work, f: Field)
    requires OpenAlone(v, oid, g) && NormalizeStatus(v.panel.status) == Disabled
    requires Recognisable(v.panel, Target(g), v.mem.reseller)
    requires w.Attempt? && w.oid == oid && w.faults.readable && !EnableExecuted(w.faults)
    requires f in w.faults.fields && Differs(f, v.panel, Target(g))
    ensures Stranded(Worked(v, admin, w), oid, PlanOf(g))
  {
    PurchaseChanges(g.live, g.product, g.now);
    RoundTrip(Target(g).expire.value);
  }
}
