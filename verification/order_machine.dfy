/** The order protocol of one reseller as a state machine: the panel, the durable store, the session's
    volatile copy of it, one worker inside apply_order, and update requests still in flight.
    Crashes, lost replies, partial deliveries, delayed and repeated requests are all steps. */
module OrderMachine {
  import opened Prelude
  import opened Quota
  import opened Wire
  import opened Entitlement

  // before_snapshot and after_snapshot["target"] of one order row.
  datatype Plan = Plan(before: Option<Snapshot>, target: Snapshot)

  datatype Order = Order(status: OrderStatus, plan: Option<Plan>)

  datatype Store = Store(orders: seq<Order>, reseller: ResellerStatus)

  /** How an order's plan came about: the account read, the product row and the clock. */
  datatype Grant = Grant(oid: nat, live: Admin, product: Product, now: int)

  function PlanOf(g: Grant): Plan {
    Plan(Some(EntitlementSnapshot(g.live)), TargetSnapshot(g.live, g.product, g.now))
  }

  function RenewalOf(g: Grant): Renewal {
    Renewal(g.now, g.live.used, g.product.days, g.product.trafficGb * GIB)
  }

  function Renewals(gs: seq<Grant>): seq<Renewal> {
    seq(|gs|, i requires 0 <= i < |gs| => RenewalOf(gs[i]))
  }

  datatype Request =
    | Update(id: nat, oid: nat, target: Snapshot)
    | Enable

  /** Where the worker stands inside apply_order. */
  datatype Worker =
    | Idle
    | Read(oid: nat, live: Admin)   // first get_admin returned
    | Computed(grant: Grant)        // snapshots set on the row, not yet committed
    | Armed(oid: nat)               // about to call update_admin
    | Updating(oid: nat)            // update_admin called
    | Updated(oid: nat)             // update_admin returned
    | Enabling(oid: nat)            // enable_admin called
    | Verifying(oid: nat)           // about to re-read the account

  /** `sent` numbers update requests, `effective` holds the numbers of those that visibly changed the
      account since the newest plan was committed, `ledger` lists every committed plan's origin. */
  datatype State = State(
    panel: Admin,
    db: Store,
    mem: Store,
    worker: Worker,
    inflight: set<Request>,
    sent: nat,
    effective: set<nat>,
    ledger: seq<Grant>)

  datatype Event =
    | Begin(oid: nat)
    | Compute(product: Product, now: int)
    | Persist
    | Settle
    | Resume
    | SendUpdate
    | UpdateReturns
    | SendEnable
    | EnableReturns
    | Verify
    | Fail
    | Commit
    | Crash
    | Deliver(request: Request, fields: set<Field>)
    | Drop(request: Request)
    | Consume(used: int)
    | Pay(oid: nat)
    | SetPanelStatus(status: Status)
    | SetReseller(reseller: ResellerStatus)

  predicate Ready(s: State, oid: nat) {
    oid < |s.mem.orders| && oid < |s.db.orders|
  }

  predicate Planned(s: State, oid: nat) {
    Ready(s, oid) && s.mem.orders[oid].plan.Some?
  }

  predicate Can(s: State, e: Event) {
    match e
    case Begin(oid) =>
      && s.worker.Idle? && Ready(s, oid)
      && s.mem.orders[oid].status in {Paid, Applying}
      && s.mem.reseller != Suspended
    case Compute(p, now) =>
      && s.worker.Read? && Ready(s, s.worker.oid) && s.mem.orders[s.worker.oid].plan.None?
      && Purchase(p) && now >= SECOND
    case Persist => s.worker.Computed? && Ready(s, s.worker.grant.oid)
    case Settle =>
      && s.worker.Read? && Planned(s, s.worker.oid)
      && var plan := s.mem.orders[s.worker.oid].plan.value;
         plan.before.Some? && Matches(s.worker.live, plan.target)
    case Resume =>
      && s.worker.Read? && Planned(s, s.worker.oid)
      && var plan := s.mem.orders[s.worker.oid].plan.value;
         plan.before.Some? && !Matches(s.worker.live, plan.target) && Matches(s.worker.live, plan.before.value)
    case SendUpdate => s.worker.Armed? && Planned(s, s.worker.oid)
    case UpdateReturns => s.worker.Updating?
    case SendEnable => s.worker.Updated? && s.mem.reseller in {ResellerExpired, ResellerDisabled}
    case EnableReturns => s.worker.Enabling?
    case Verify =>
      && (s.worker.Verifying? || (s.worker.Updated? && s.mem.reseller !in {ResellerExpired, ResellerDisabled}))
      && Planned(s, s.worker.oid)
      && Matches(s.panel, s.mem.orders[s.worker.oid].plan.value.target)
    case Fail => !s.worker.Idle? && !s.worker.Computed?
    case Commit => s.worker.Idle?
    case Crash => true
    case Deliver(r, _) => r in s.inflight
    case Drop(r) => r in s.inflight
    case Consume(used) => used >= 0
    case Pay(oid) =>
      && Ready(s, oid)
      && s.db.orders[oid] == s.mem.orders[oid]
      && s.db.orders[oid].plan.None?
      && s.db.orders[oid].status in {WaitingReceipt, WaitingPayment}
    case SetPanelStatus(_) => true
    case SetReseller(_) => true
  }

  function SetStatus(st: Store, oid: nat, status: OrderStatus): Store
    requires oid < |st.orders|
  {
    st.(orders := st.orders[oid := st.orders[oid].(status := status)])
  }

  // The order is marked applied, and the reseller reactivated, in the session only.
  function MarkApplied(s: State, oid: nat): State
    requires oid < |s.mem.orders|
  {
    s.(mem := SetStatus(s.mem, oid, Applied).(reseller := Reactivated(s.mem.reseller)), worker := Idle)
  }

  function Delivered(s: State, r: Request, fields: set<Field>): State {
    match r
    case Enable => s.(panel := s.panel.(status := Active))
    case Update(id, oid, target) =>
      var panel := Write(s.panel, target, fields);
      s.(panel := panel, effective := if panel == s.panel then s.effective else s.effective + {id})
  }

  function Step(s: State, e: Event): State
    requires Can(s, e)
  {
    match e
    case Begin(oid) => s.(worker := Read(oid, s.panel))
    case Compute(p, now) => s.(worker := Computed(Grant(s.worker.oid, s.worker.live, p, now)))
    case Persist =>
      var g := s.worker.grant;
      var store := s.mem.(orders := s.mem.orders[g.oid := Order(Applying, Some(PlanOf(g)))]);
      s.(db := store, mem := store, worker := Armed(g.oid), ledger := s.ledger + [g], effective := {})
    case Settle => MarkApplied(s, s.worker.oid)
    case Resume => s.(worker := Armed(s.worker.oid))
    case SendUpdate =>
      var target := s.mem.orders[s.worker.oid].plan.value.target;
      s.(inflight := s.inflight + {Update(s.sent, s.worker.oid, target)}, sent := s.sent + 1,
         worker := Updating(s.worker.oid))
    case UpdateReturns => s.(worker := Updated(s.worker.oid))
    case SendEnable => s.(inflight := s.inflight + {Enable}, worker := Enabling(s.worker.oid))
    case EnableReturns => s.(worker := Verifying(s.worker.oid))
    case Verify => MarkApplied(s, s.worker.oid)
    case Fail => s.(worker := Idle)
    case Commit => s.(db := s.mem)
    case Crash => s.(mem := s.db, worker := Idle)
    case Deliver(r, fields) => Delivered(s, r, fields)
    case Drop(r) => s.(inflight := s.inflight - {r})
    case Consume(used) => s.(panel := s.panel.(used := used))
    case Pay(oid) => s.(db := SetStatus(s.db, oid, Paid), mem := SetStatus(s.mem, oid, Paid))
    case SetPanelStatus(status) => s.(panel := s.panel.(status := status))
    case SetReseller(reseller) => s.(mem := s.mem.(reseller := reseller))
  }

  // ----- Runs -----

  predicate Valid(s: State, es: seq<Event>)
    decreases |es|
  {
    es == [] || (Can(s, es[0]) && Valid(Step(s, es[0]), es[1..]))
  }

  function Final(s: State, es: seq<Event>): State
    requires Valid(s, es)
    decreases |es|
  {
    if es == [] then s else Final(Step(s, es[0]), es[1..])
  }

  // Runs whose every step meets a further condition.
  predicate RunOf(ok: (State, Event) -> bool, s: State, es: seq<Event>)
    decreases |es|
  {
    es == [] || (Can(s, es[0]) && ok(s, es[0]) && RunOf(ok, Step(s, es[0]), es[1..]))
  }

  predicate Any(s: State, e: Event) {
    true
  }

  lemma {:induction false} RunIsValid(ok: (State, Event) -> bool, s: State, es: seq<Event>)
    requires RunOf(ok, s, es)
    ensures Valid(s, es)
    decreases |es|
  {
    if es != [] {
      RunIsValid(ok, Step(s, es[0]), es[1..]);
    }
  }

  lemma {:induction false} RunOfMore(ok: (State, Event) -> bool, more: (State, Event) -> bool, s: State, es: seq<Event>)
    requires RunOf(ok, s, es) && forall t, e :: ok(t, e) ==> more(t, e)
    ensures RunOf(more, s, es)
    decreases |es|
  {
    if es != [] {
      RunOfMore(ok, more, Step(s, es[0]), es[1..]);
    }
  }

  /** A run under construction: `es` leads from `from` to `to`. */
  ghost predicate Leads(ok: (State, Event) -> bool, from: State, es: seq<Event>, to: State) {
    RunOf(ok, from, es) && Valid(from, es) && Final(from, es) == to
  }

  lemma {:induction false} Append(ok: (State, Event) -> bool, from: State, es: seq<Event>, to: State, e: Event)
    requires Leads(ok, from, es, to) && Can(to, e) && ok(to, e)
    ensures Leads(ok, from, es + [e], Step(to, e))
    decreases |es|
  {
    if es == [] {
      assert [e][1..] == [];
    } else {
      Append(ok, Step(from, es[0]), es[1..], to, e);
      assert (es + [e])[1..] == es[1..] + [e];
    }
  }

  lemma Next(ok: (State, Event) -> bool, from: State, es: seq<Event>, to: State, e: Event)
    returns (es': seq<Event>, to': State)
    requires Leads(ok, from, es, to) && Can(to, e) && ok(to, e)
    ensures to' == Step(to, e) && Leads(ok, from, es', to')
  {
    Append(ok, from, es, to, e);
    es', to' := es + [e], Step(to, e);
  }

  // No order has a plan yet and no request is pending.
  predicate Init(s: State) {
    && s.panel.used >= 0
    && s.mem == s.db && s.worker.Idle? && s.inflight == {} && s.effective == {} && s.ledger == []
    && forall k :: 0 <= k < |s.db.orders| ==>
         s.db.orders[k].plan.None? && s.db.orders[k].status !in {Applying, Applied}
  }

  // ----- What every step keeps -----

  predicate SoundGrant(g: Grant) {
    Purchase(g.product) && g.now >= SECOND && g.live.used >= 0
  }

  // The plan of every ledger entry is in the store, unchanged.
  predicate Recorded(orders: seq<Order>, g: Grant) {
    g.oid < |orders| && orders[g.oid].plan == Some(PlanOf(g))
  }

  predicate InLedger(ledger: seq<Grant>, oid: nat) {
    exists i :: 0 <= i < |ledger| && ledger[i].oid == oid
  }

  predicate Distinct(ledger: seq<Grant>) {
    forall i, j :: 0 <= i < j < |ledger| ==> ledger[i].oid != ledger[j].oid
  }

  // An order has a plan exactly when it is being applied or is applied; the session may only be ahead.
  predicate Agree(d: Order, m: Order) {
    && d.plan == m.plan
    && (d.plan.Some? <==> d.status in {Applying, Applied})
    && (d.status == m.status || (d.status == Applying && m.status == Applied))
  }

  predicate WorkerOk(s: State) {
    match s.worker
    case Idle => true
    case Read(oid, live) => Ready(s, oid) && live.used >= 0 && s.mem.orders[oid].status in {Paid, Applying}
    case Computed(g) => SoundGrant(g) && Ready(s, g.oid) && s.mem.orders[g.oid] == Order(Paid, None)
    case _ => Planned(s, s.worker.oid) && s.mem.orders[s.worker.oid].status == Applying
  }

  predicate RequestOk(s: State, r: Request) {
    r.Update? ==>
      && r.oid < |s.db.orders| && r.id < s.sent
      && s.db.orders[r.oid].plan.Some? && r.target == s.db.orders[r.oid].plan.value.target
  }

  // Rows agree and the ledger lists the committed plans, each once.
  predicate BooksOk(db: seq<Order>, mem: seq<Order>, ledger: seq<Grant>) {
    && |mem| == |db|
    && (forall k :: 0 <= k < |db| ==> Agree(db[k], mem[k]))
    && (forall i :: 0 <= i < |ledger| ==> SoundGrant(ledger[i]) && Recorded(db, ledger[i]))
    && (forall k: nat :: k < |db| && db[k].plan.Some? ==> InLedger(ledger, k))
    && Distinct(ledger)
  }

  predicate Inv(s: State) {
    && s.panel.used >= 0
    && BooksOk(s.db.orders, s.mem.orders, s.ledger)
    && WorkerOk(s)
    && (forall r :: r in s.inflight ==> RequestOk(s, r))
  }

  // Rows may change status; as long as plans stay, the books stay in order.
  lemma BooksKept(db: seq<Order>, mem: seq<Order>, ledger: seq<Grant>, db': seq<Order>, mem': seq<Order>)
    requires BooksOk(db, mem, ledger)
    requires |db'| == |mem'| == |db|
    requires forall k :: 0 <= k < |db| ==> db'[k].plan == db[k].plan && Agree(db'[k], mem'[k])
    ensures BooksOk(db', mem', ledger)
  {
  }

  lemma BooksExtended(db: seq<Order>, mem: seq<Order>, ledger: seq<Grant>, g: Grant)
    requires BooksOk(db, mem, ledger) && SoundGrant(g) && g.oid < |mem| && mem[g.oid].plan.None?
    ensures var store := mem[g.oid := Order(Applying, Some(PlanOf(g)))]; BooksOk(store, store, ledger + [g])
  {
    var store := mem[g.oid := Order(Applying, Some(PlanOf(g)))];
    assert Agree(db[g.oid], mem[g.oid]);
    assert forall k :: 0 <= k < |db| ==> Agree(db[k], mem[k]);
    forall i | 0 <= i < |ledger + [g]|
      ensures SoundGrant((ledger + [g])[i]) && Recorded(store, (ledger + [g])[i])
      ensures i < |ledger| ==> ledger[i].oid != g.oid
    {
      if i < |ledger| {
        assert Recorded(db, ledger[i]);
      }
    }
    forall k: nat | k < |store| && store[k].plan.Some? ensures InLedger(ledger + [g], k) {
      if k == g.oid {
        assert (ledger + [g])[|ledger|].oid == k;
      } else {
        var i :| 0 <= i < |ledger| && ledger[i].oid == k;
        assert (ledger + [g])[i].oid == k;
      }
    }
  }

  lemma StepKeepsInv(s: State, e: Event)
    requires Inv(s) && Can(s, e)
    ensures Inv(Step(s, e))
  {
    BooksStay(s, e);
    RequestsKept(s, e);
    WorkerStays(s, e);
    hide RequestOk, BooksOk, WorkerOk, Can;
  }

  lemma BooksStay(s: State, e: Event)
    requires Inv(s) && Can(s, e)
    ensures var s' := Step(s, e); BooksOk(s'.db.orders, s'.mem.orders, s'.ledger)
  {
    var s' := Step(s, e);
    if e.Persist? {
      BooksExtended(s.db.orders, s.mem.orders, s.ledger, s.worker.grant);
    } else {
      BooksKept(s.db.orders, s.mem.orders, s.ledger, s'.db.orders, s'.mem.orders);
    }
  }

  lemma WorkerStays(s: State, e: Event)
    requires Inv(s) && Can(s, e)
    ensures WorkerOk(Step(s, e))
  {
  }

  lemma RequestsKept(s: State, e: Event)
    requires Inv(s) && Can(s, e)
    ensures var s' := Step(s, e); forall r :: r in s'.inflight ==> RequestOk(s', r)
  {
  }

  lemma {:induction false} RunKeepsInv(s: State, es: seq<Event>)
    requires Inv(s) && Valid(s, es)
    ensures Inv(Final(s, es))
    decreases |es|
  {
    if es != [] {
      hide Inv, Can, Step;
      StepKeepsInv(s, es[0]);
      RunKeepsInv(Step(s, es[0]), es[1..]);
    }
  }
}
