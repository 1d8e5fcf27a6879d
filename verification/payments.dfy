/** apply_order (app/payments/service.py): one attempt to apply one paid order to an existing reseller. */
module Payments {
  import opened Prelude
  import opened Wire
  import opened Entitlement
  import opened RebeccaPanel
  import opened OrderMachine

  /** What the network and the database did during one attempt. */
  datatype Net = Net(
    readable: bool,
    committed: bool,
    fields: set<Field>,
    updateAnswered: bool,
    enable: Delivery,
    verifiable: bool)

  const CLEAN := Net(true, true, ALL_FIELDS, true, Delivery(true, true), true)

  /** The target a first purchase stores, as apply_order finds it: no role, no status, and no "before". */
  function ReservedPlan(t: Entitled): Plan {
    Plan(None, Snapshot(Some(t.dataLimit), Some(t.expire), t.services, t.usersLimit, "", Other("")))
  }

  datatype Fault =
    | NoAnswer | ResellerMissing | NotCommitted | NoBeforeSnapshot | Ambiguous | Mismatch
    | DeliveryPending                // recorded between a first purchase's grant and its delivery

  datatype Outcome = Skipped | Changed | Raised(fault: Fault)

  /** What the database holds of an order row and of a reseller row. */
  datatype OrderImage = OrderImage(order: Order, appliedAt: Option<int>, applyError: Option<Fault>)

  datatype ResellerImage = ResellerImage(status: ResellerStatus, productId: Option<int>)

  class OrderRow {
    var status: OrderStatus
    var plan: Option<Plan>           // before_snapshot and after_snapshot["target"]
    var appliedAt: Option<int>
    var applyError: Option<Fault>
    var saved: OrderImage            // the columns as last committed

    constructor (status: OrderStatus)
      ensures Image() == saved == OrderImage(Order(status, None), None, None)
    {
      this.status, plan, appliedAt, applyError := status, None, None, None;
      saved := OrderImage(Order(status, None), None, None);
    }

    function Image(): OrderImage
      reads this
    {
      OrderImage(Order(status, plan), appliedAt, applyError)
    }

    method Save()
      modifies this
      ensures Image() == old(Image()) == saved
    {
      saved := Image();
    }

    method Restore()
      modifies this
      ensures Image() == old(saved) == saved
    {
      status, plan, appliedAt, applyError := saved.order.status, saved.order.plan, saved.appliedAt, saved.applyError;
    }
  }

  class ResellerRow {
    var status: ResellerStatus
    var productId: Option<int>
    var admin: string                // rebecca_admin_username, "" while unset; set only together with a commit
    var hold: bool
    var saved: ResellerImage         // the other columns as last committed
    var received: Option<string>     // no column: the last password that reached the customer's chat

    constructor (status: ResellerStatus, admin: string)
      ensures Image() == saved == ResellerImage(status, None) && this.admin == admin && !hold && received == None
    {
      this.status, productId, this.admin, hold := status, None, admin, false;
      saved, received := ResellerImage(status, None), None;
    }

    function Image(): ResellerImage
      reads this
    {
      ResellerImage(status, productId)
    }

    method Save()
      modifies this`saved
      ensures saved == Image()
    {
      saved := Image();
    }

    method Restore()
      modifies this`status, this`productId
      ensures Image() == saved
    {
      status, productId := saved.status, saved.productId;
    }
  }

  /** The rows and the account an attempt may touch, and the rows as last committed. */
  datatype Rows = Rows(
    order: Order,
    appliedAt: Option<int>,
    applyError: Option<Fault>,
    reseller: ResellerStatus,
    productId: Option<int>,
    account: Option<Admin>,
    savedOrder: OrderImage,
    savedReseller: ResellerImage)
  {
    function Saved(): Rows {
      this.(savedOrder := OrderImage(order, appliedAt, applyError), savedReseller := ResellerImage(reseller, productId))
    }

    // A failed commit loses the session: the rows are the committed ones again.
    function Restored(): Rows {
      this.(order := savedOrder.order, appliedAt := savedOrder.appliedAt, applyError := savedOrder.applyError,
            reseller := savedReseller.status, productId := savedReseller.productId)
    }
  }

  datatype Attempt = Attempt(rows: Rows, calls: seq<Call>, outcome: Outcome)

  function Settled(r: Rows, now: int): Rows {
    r.(order := r.order.(status := Applied), appliedAt := Some(now), applyError := None,
       reseller := Reactivated(r.reseller))
  }

  function Refused(r: Rows, calls: seq<Call>, fault: Fault): Attempt {
    Attempt(r.(applyError := Some(fault)), calls, Raised(fault))
  }

  // Re-read and compare; only an exact match settles the order.
  function Verification(r: Rows, product: Product, now: int, net: Net, calls: seq<Call>): Attempt
    requires r.order.plan.Some?
  {
    if !net.verifiable then Attempt(r, calls, Raised(NoAnswer))
    else if r.account.None? || !Matches(r.account.value, r.order.plan.value.target) then Refused(r, calls, Mismatch)
    else Attempt(Settled(r, now).(productId := Some(product.id)), calls, Changed)
  }

  // The update, and the enable for an expired or disabled reseller.
  function Mutation(r: Rows, name: string, product: Product, now: int, net: Net): Attempt
    requires r.order.plan.Some? && r.account.Some?
  {
    var updated := r.(account := Some(Write(r.account.value, r.order.plan.value.target, net.fields)));
    var calls := [UpdateAdmin(name)];
    if !net.updateAnswered then Refused(updated, calls, NoAnswer)
    else if r.reseller in {ResellerExpired, ResellerDisabled} then
      var a := updated.account.value;
      var enabled := updated.(account := Some(if net.enable.executed then a.(status := Active) else a));
      if !net.enable.acknowledged then Refused(enabled, calls + [EnableAdmin(name)], NoAnswer)
      else Verification(enabled, product, now, net, calls + [EnableAdmin(name)])
    else Verification(updated, product, now, net, calls)
  }

  /** One attempt, as a function of the rows, the account and the faults. */
  function Attempted(r: Rows, name: string, product: Product, now: int, net: Net): Attempt {
    if r.order.status == Applied || r.reseller == Suspended then Attempt(r, [], Skipped)
    else if !net.readable then Attempt(r, [], Raised(NoAnswer))
    else if r.account.None? then Attempt(r, [], Raised(ResellerMissing))
    else
      var live := r.account.value;
      match r.order.plan
      case None =>
        var plan := Plan(Some(EntitlementSnapshot(live)), TargetSnapshot(live, product, now));
        var planned := r.(order := Order(Applying, Some(plan)), applyError := None);
        if !net.committed then Attempt(planned.Restored(), [], Raised(NotCommitted))
        else Mutation(planned.Saved(), name, product, now, net)
      case Some(plan) =>
        if plan.before.None? then Refused(r, [], NoBeforeSnapshot)
        else if Matches(live, plan.target) then Attempt(Settled(r, now), [], Changed)
        else if !Matches(live, plan.before.value) then Refused(r, [], Ambiguous)
        else Mutation(r, name, product, now, net)
  }

  ghost function RowsOf(order: OrderRow, reseller: ResellerRow, panel: Panel): Rows
    reads order, reseller, panel
  {
    Rows(Order(order.status, order.plan), order.appliedAt, order.applyError, reseller.status, reseller.productId,
         Lookup(panel.admins, reseller.admin), order.saved, reseller.saved)
  }

  // The order is applied; an expired or disabled reseller is back.
  method Settle(order: OrderRow, reseller: ResellerRow, now: int)
    modifies order`status, order`appliedAt, order`applyError, reseller`status
    ensures order.status == Applied && order.appliedAt == Some(now) && order.applyError == None
    ensures reseller.status == if old(reseller.status) == ResellerExpired || old(reseller.status) == ResellerDisabled
                               then ResellerActive else old(reseller.status)
  {
    if reseller.status in {ResellerExpired, ResellerDisabled} {
      reseller.status := ResellerActive;
    }
    order.status := Applied;
    order.appliedAt := Some(now);
    order.applyError := None;
  }

  // The re-read: only an exact match settles the order.
  method VerifyAndSettle(order: OrderRow, reseller: ResellerRow, product: Product, panel: Panel, now: int, net: Net,
                         ghost calls: seq<Call>)
    returns (outcome: Outcome)
    requires order.plan.Some?
    modifies order, reseller
    ensures var a := Verification(old(RowsOf(order, reseller, panel)), product, now, net, calls);
      RowsOf(order, reseller, panel) == a.rows && outcome == a.outcome && a.calls == calls
    ensures reseller.admin == old(reseller.admin) && reseller.hold == old(reseller.hold)
    ensures reseller.received == old(reseller.received)
    ensures outcome == Changed ==>
      && order.status == Applied && order.appliedAt == Some(now) && order.applyError == None
      && reseller.status == if old(reseller.status) == ResellerExpired || old(reseller.status) == ResellerDisabled
                            then ResellerActive else old(reseller.status)
  {
    hide Matches;
    var verified := panel.GetAdmin(reseller.admin, net.verifiable);
    if verified.Unavailable? {
      return Raised(NoAnswer);
    }
    if verified.value.None? || !Matches(verified.value.value, order.plan.value.target) {
      order.applyError := Some(Mismatch);
      return Raised(Mismatch);
    }
    Settle(order, reseller, now);
    reseller.productId := Some(product.id);
    return Changed;
  }

  // The second half of the attempt, entered only with a durable plan and the account present.
  method SendAndVerify(order: OrderRow, reseller: ResellerRow, product: Product, panel: Panel, now: int, net: Net)
    returns (outcome: Outcome)
    requires order.plan.Some? && reseller.admin in panel.admins
    modifies order, reseller, panel
    ensures var a := Mutation(old(RowsOf(order, reseller, panel)), old(reseller.admin), product, now, net);
      && RowsOf(order, reseller, panel) == a.rows
      && outcome == a.outcome
      && panel.calls == old(panel.calls) + a.calls
    ensures reseller.admin == old(reseller.admin) && reseller.hold == old(reseller.hold)
    ensures reseller.received == old(reseller.received)
    ensures outcome == Changed ==>
      && order.status == Applied && order.appliedAt == Some(now) && order.applyError == None
      && reseller.status == if old(reseller.status) == ResellerExpired || old(reseller.status) == ResellerDisabled
                            then ResellerActive else old(reseller.status)
    ensures panel.users == old(panel.users) && panel.passwords == old(panel.passwords)
    ensures panel.admins - {reseller.admin} == old(panel.admins) - {reseller.admin}
    ensures |old(panel.calls)| < |panel.calls|
  {
    hide Verification, Write;
    ghost var sent := [UpdateAdmin(reseller.admin)];
    var ok := panel.UpdateEntitlement(reseller.admin, order.plan.value.target, net.fields, net.updateAnswered);
    if ok && reseller.status in {ResellerExpired, ResellerDisabled} {
      ok := panel.SetAdminStatus(reseller.admin, Active, net.enable);
      sent := sent + [EnableAdmin(reseller.admin)];
    }
    if !ok {
      order.applyError := Some(NoAnswer);
      return Raised(NoAnswer);
    }
    outcome := VerifyAndSettle(order, reseller, product, panel, now, net, sent);
  }

  method ApplyOrder(order: OrderRow, reseller: ResellerRow, product: Product, panel: Panel, now: int, net: Net)
    returns (outcome: Outcome)
    modifies order, reseller, panel
    ensures var a := Attempted(old(RowsOf(order, reseller, panel)), old(reseller.admin), product, now, net);
      && RowsOf(order, reseller, panel) == a.rows
      && outcome == a.outcome
      && panel.calls == old(panel.calls) + a.calls
    ensures reseller.admin == old(reseller.admin) && reseller.hold == old(reseller.hold)
    ensures reseller.received == old(reseller.received)
    ensures outcome == Changed ==>
      && order.status == Applied && order.appliedAt == Some(now) && order.applyError == None
      && reseller.status == if old(reseller.status) == ResellerExpired || old(reseller.status) == ResellerDisabled
                            then ResellerActive else old(reseller.status)
    ensures panel.users == old(panel.users) && panel.passwords == old(panel.passwords)
    ensures panel.admins - {reseller.admin} == old(panel.admins) - {reseller.admin}
    ensures panel.calls == old(panel.calls) ==> panel.admins == old(panel.admins)
  {
    hide Matches, EntitlementSnapshot, TargetSnapshot, Mutation;
    if order.status == Applied || reseller.status == Suspended {
      return Skipped;
    }
    var read := panel.GetAdmin(reseller.admin, net.readable);
    if read.Unavailable? {
      return Raised(NoAnswer);
    }
    if read.value.None? {
      return Raised(ResellerMissing);
    }
    var live := read.value.value;
    if order.plan.None? {
      // Computed once; both snapshots are committed before the first external mutation.
      order.plan := Some(Plan(Some(EntitlementSnapshot(live)), TargetSnapshot(live, product, now)));
      order.status := Applying;
      order.applyError := None;
      if !net.committed {
        order.Restore();
        reseller.Restore();
        return Raised(NotCommitted);
      }
      order.Save();
      reseller.Save();
    } else {
      var plan := order.plan.value;
      if plan.before.None? {
        order.applyError := Some(NoBeforeSnapshot);
        return Raised(NoBeforeSnapshot);
      }
      if Matches(live, plan.target) {
        Settle(order, reseller, now);
        return Changed;
      }
      if !Matches(live, plan.before.value) {
        order.applyError := Some(Ambiguous);
        return Raised(Ambiguous);
      }
    }
    outcome := SendAndVerify(order, reseller, product, panel, now, net);
  }
}
