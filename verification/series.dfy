/** Everything that happens to one reseller's orders, in the program's own terms: attempts, syncs, the
    owner's switches, payments, spending, commits and crashes, in any series. Each is a run of the order
    machine, so what is proved of its runs holds of every series. */
module Series {
  import opened Prelude
  import opened Quota
  import opened Wire
  import opened Entitlement
  import opened RebeccaPanel
  import opened OrderMachine
  import opened NoOverCredit
  import opened ExactlyOnce
  import opened CalmRuns
  import opened Payments
  import opened Children
  import Recovery
  import Resellers

  /** The account and the two copies of the rows. */
  datatype View = View(panel: Admin, db: Store, mem: Store)

  function ViewOf(s: State): View {
    View(s.panel, s.db, s.mem)
  }

  // ----- One attempt -----

  // The view shows the rows r of order oid.
  predicate Shows(v: View, oid: nat, r: Rows) {
    && oid < |v.mem.orders| && oid < |v.db.orders|
    && v.mem.orders[oid] == r.order
    && v.db.orders[oid] == r.savedOrder.order
    && v.mem.reseller == r.reseller
    && v.db.reseller == r.savedReseller.status
    && r.account == Some(v.panel)
  }

  // The session's rows and the account after an attempt without a commit.
  function Put(v: View, oid: nat, rows: Rows): View
    requires oid < |v.mem.orders| && rows.account.Some?
  {
    View(rows.account.value, v.db, v.mem.(orders := v.mem.orders[oid := rows.order], reseller := rows.reseller))
  }

  // A commit makes the whole session durable; a failed one loses it.
  function AfterAttempt(v: View, oid: nat, a: Payments.Attempt): View
    requires oid < |v.mem.orders| && a.rows.account.Some?
  {
    if a.outcome == Raised(NotCommitted) then v.(mem := v.db)
    else if v.mem.orders[oid].plan.None? && a.rows.order.plan.Some? then
      var store := v.mem.(orders := v.mem.orders[oid := Order(Applying, a.rows.order.plan)]);
      Put(v.(db := store, mem := store), oid, a.rows)
    else Put(v, oid, a.rows)
  }

  /** The runs an attempt is to be part of: calm ones, where its requests are resolved with it, or any,
      where they stay under way and may arrive again later. */
  function Rule(calm: bool): (State, Event) -> bool {
    if calm then Calm else Any
  }

  // Requests under way after some part of an attempt.
  predicate Pending(calm: bool, before: set<Request>, after: set<Request>) {
    if calm then after == {} else before <= after
  }

  lemma VerificationIsRun(calm: bool, from: State, es: seq<Event>, s: State, oid: nat, r: Rows, product: Product,
                          now: int, net: Net, calls: seq<Call>)
    returns (es': seq<Event>, f: State)
    requires Leads(Rule(calm), from, es, s) && Shows(ViewOf(s), oid, r) && (calm ==> s.inflight == {})
    requires s.worker == Verifying(oid) ||
             (s.worker == Updated(oid) && s.mem.reseller !in {ResellerExpired, ResellerDisabled})
    requires r.order.plan.Some?
    ensures Leads(Rule(calm), from, es', f) && f.worker.Idle? && Pending(calm, s.inflight, f.inflight)
    ensures ViewOf(f) == Put(ViewOf(s), oid, Verification(r, product, now, net, calls).rows)
  {
    hide Leads, Matches;
    var settled := net.verifiable && Matches(s.panel, r.order.plan.value.target);
    es', f := Next(Rule(calm), from, es, s, if settled then Verify else Fail);
  }

  lemma UpdateIsRun(calm: bool, from: State, es: seq<Event>, s: State, oid: nat, r: Rows, fields: set<Field>)
    returns (es': seq<Event>, f: State)
    requires Leads(Rule(calm), from, es, s) && Shows(ViewOf(s), oid, r) && (calm ==> s.inflight == {})
    requires s.worker == Armed(oid) && r.order.plan.Some?
    ensures Leads(Rule(calm), from, es', f) && f.worker == Updating(oid) && Pending(calm, s.inflight, f.inflight)
    ensures ViewOf(f) == ViewOf(s).(panel := Write(s.panel, r.order.plan.value.target, fields))
  {
    hide Leads, Write;
    var request := Update(s.sent, oid, r.order.plan.value.target);
    es', f := Next(Rule(calm), from, es, s, SendUpdate);
    es', f := Next(Rule(calm), from, es', f, Deliver(request, fields));
    if calm {
      es', f := Next(Rule(calm), from, es', f, Drop(request));
    }
  }

  lemma EnableIsRun(calm: bool, from: State, es: seq<Event>, s: State, oid: nat, executed: bool)
    returns (es': seq<Event>, f: State)
    requires Leads(Rule(calm), from, es, s) && (calm ==> s.inflight == {}) && s.worker == Updated(oid)
    requires s.mem.reseller in {ResellerExpired, ResellerDisabled}
    ensures Leads(Rule(calm), from, es', f) && f.worker == Enabling(oid) && Pending(calm, s.inflight, f.inflight)
    ensures ViewOf(f) == ViewOf(s).(panel := if executed then s.panel.(status := Active) else s.panel)
  {
    hide Leads;
    es', f := Next(Rule(calm), from, es, s, SendEnable);
    if executed {
      es', f := Next(Rule(calm), from, es', f, Deliver(Enable, {}));
    }
    if calm {
      es', f := Next(Rule(calm), from, es', f, Drop(Enable));
    }
  }

  lemma MutationIsRun(calm: bool, from: State, es: seq<Event>, s: State, oid: nat, r: Rows, name: string,
                      product: Product, now: int, net: Net)
    returns (es': seq<Event>, f: State)
    requires Leads(Rule(calm), from, es, s) && Shows(ViewOf(s), oid, r) && (calm ==> s.inflight == {})
    requires s.worker == Armed(oid) && r.order.plan.Some?
    ensures Leads(Rule(calm), from, es', f) && f.worker.Idle? && Pending(calm, s.inflight, f.inflight)
    ensures ViewOf(f) == Put(ViewOf(s), oid, Mutation(r, name, product, now, net).rows)
  {
    hide Leads, Verification, Write;
    var a := Write(s.panel, r.order.plan.value.target, net.fields);
    var updated := r.(account := Some(a));
    es', f := UpdateIsRun(calm, from, es, s, oid, r, net.fields);
    if !net.updateAnswered {
      es', f := Next(Rule(calm), from, es', f, Fail);
      return;
    }
    es', f := Next(Rule(calm), from, es', f, UpdateReturns);
    if r.reseller !in {ResellerExpired, ResellerDisabled} {
      es', f := VerificationIsRun(calm, from, es', f, oid, updated, product, now, net, [UpdateAdmin(name)]);
      return;
    }
    es', f := EnableIsRun(calm, from, es', f, oid, net.enable.executed);
    var enabled := updated.(account := Some(if net.enable.executed then a.(status := Active) else a));
    if !net.enable.acknowledged {
      es', f := Next(Rule(calm), from, es', f, Fail);
      return;
    }
    es', f := Next(Rule(calm), from, es', f, EnableReturns);
    es', f := VerificationIsRun(calm, from, es', f, oid, enabled, product, now, net,
                                [UpdateAdmin(name)] + [EnableAdmin(name)]);
  }

  // From the first read on, an order without a plan.
  lemma PlanningIsRun(calm: bool, from: State, es: seq<Event>, s: State, oid: nat, r: Rows, name: string,
                      product: Product, now: int, net: Net)
    returns (es': seq<Event>, f: State)
    requires Leads(Rule(calm), from, es, s) && Shows(ViewOf(s), oid, r) && s.worker == Read(oid, s.panel)
    requires calm ==> s.inflight == {} && AllDone(s.mem.orders, s.ledger)
    requires r.order.plan.None? && Purchase(product) && now >= SECOND
    requires net.readable && r.order.status in {Paid, Applying} && r.reseller != Suspended
    ensures Leads(Rule(calm), from, es', f) && f.worker.Idle? && Pending(calm, s.inflight, f.inflight)
    ensures ViewOf(f) == AfterAttempt(ViewOf(s), oid, Attempted(r, name, product, now, net))
  {
    hide Leads, Mutation, AllDone, EntitlementSnapshot, TargetSnapshot;
    es', f := Next(Rule(calm), from, es, s, Compute(product, now));
    if !net.committed {
      es', f := Next(Rule(calm), from, es', f, OrderMachine.Crash);
      return;
    }
    es', f := Next(Rule(calm), from, es', f, Persist);
    var plan := Plan(Some(EntitlementSnapshot(s.panel)), TargetSnapshot(s.panel, product, now));
    var planned := r.(order := Order(Applying, Some(plan)), applyError := None).Saved();
    MutationKeepsPlan(planned, name, product, now, net);
    es', f := MutationIsRun(calm, from, es', f, oid, planned, name, product, now, net);
  }

  lemma MutationKeepsPlan(r: Rows, name: string, product: Product, now: int, net: Net)
    requires r.order.plan.Some? && r.account.Some?
    ensures var a := Mutation(r, name, product, now, net);
      a.rows.order.plan == r.order.plan && a.rows.account.Some? && a.outcome != Raised(NotCommitted)
  {
  }

  // From the first read on, an order with a plan.
  lemma ResumingIsRun(calm: bool, from: State, es: seq<Event>, s: State, oid: nat, r: Rows, name: string,
                      product: Product, now: int, net: Net)
    returns (es': seq<Event>, f: State)
    requires Leads(Rule(calm), from, es, s) && Shows(ViewOf(s), oid, r) && s.worker == Read(oid, s.panel)
    requires calm ==> s.inflight == {}
    requires r.order.plan.Some? && net.readable && r.order.status in {Paid, Applying} && r.reseller != Suspended
    ensures Leads(Rule(calm), from, es', f) && f.worker.Idle? && Pending(calm, s.inflight, f.inflight)
    ensures ViewOf(f) == AfterAttempt(ViewOf(s), oid, Attempted(r, name, product, now, net))
  {
    hide Leads, Mutation, Matches;
    MutationKeepsPlan(r, name, product, now, net);
    var plan := r.order.plan.value;
    if plan.before.None? {
      es', f := Next(Rule(calm), from, es, s, Fail);
    } else if Matches(s.panel, plan.target) {
      es', f := Next(Rule(calm), from, es, s, Settle);
    } else if !Matches(s.panel, plan.before.value) {
      es', f := Next(Rule(calm), from, es, s, Fail);
    } else {
      es', f := Next(Rule(calm), from, es, s, Resume);
      es', f := MutationIsRun(calm, from, es', f, oid, r, name, product, now, net);
    }
  }

  /** Every attempt, under any combination of unread, uncommitted, partial, unanswered and unverified
      calls, is a run of the order machine, whatever other orders are open and whatever requests are still
      under way. It is a calm run if none is under way and, for an order without a plan, none other open. */
  lemma AttemptIsRun(calm: bool, from: State, es0: seq<Event>, s: State, oid: nat, r: Rows, name: string,
                     product: Product, now: int, net: Net)
    returns (es: seq<Event>, f: State)
    requires Leads(Rule(calm), from, es0, s) && s.worker.Idle? && Shows(ViewOf(s), oid, r)
    requires r.order.status in {Paid, Applying}
    requires r.order.plan.None? ==> Purchase(product) && now >= SECOND
    requires calm ==> s.inflight == {} && (r.order.plan.None? ==> AllDone(s.mem.orders, s.ledger))
    ensures Leads(Rule(calm), from, es, f) && f.worker.Idle? && Pending(calm, s.inflight, f.inflight)
    ensures Attempted(r, name, product, now, net).rows.account.Some?
    ensures ViewOf(f) == AfterAttempt(ViewOf(s), oid, Attempted(r, name, product, now, net))
  {
    es, f := es0, s;
    if r.reseller == Suspended || !net.readable {
      return;
    }
    AccountStays(r, name, product, now, net);
    hide Leads, Attempted;
    es, f := Next(Rule(calm), from, es, f, Begin(oid));
    if r.order.plan.None? {
      es, f := PlanningIsRun(calm, from, es, f, oid, r, name, product, now, net);
    } else {
      es, f := ResumingIsRun(calm, from, es, f, oid, r, name, product, now, net);
    }
  }

  lemma AccountStays(r: Rows, name: string, product: Product, now: int, net: Net)
    requires r.account.Some?
    ensures Attempted(r, name, product, now, net).rows.account.Some?
  {
    hide Matches, EntitlementSnapshot, TargetSnapshot;
  }

  // ----- Syncs and switches -----

  /** A reseller's sync is a switch of its account and a change of its status, as far as orders go. */
  lemma SyncIsRun(calm: bool, from: State, es0: seq<Event>, s: State, hold: bool, admin: string,
                  admins: map<string, Admin>, users: map<string, User>, now: int, settings: Settings,
                  net: Resellers.ResellerNet)
    returns (es: seq<Event>, f: State)
    requires Leads(Rule(calm), from, es0, s) && s.worker.Idle?
    requires admin in admins && admins[admin] == s.panel
    ensures var r := Resellers.SyncedReseller(s.mem.reseller, hold, admin, admins, users, now, settings, net);
      && admin in r.admins
      && Leads(Rule(calm), from, es, f)
      && f == s.(panel := r.admins[admin], mem := s.mem.(reseller := r.status))
  {
    var r := Resellers.SyncedReseller(s.mem.reseller, hold, admin, admins, users, now, settings, net);
    SyncSwitches(s.mem.reseller, hold, admin, admins, users, now, settings, net);
    hide Leads, Resellers.SyncedReseller;
    es, f := Next(Rule(calm), from, es0, s, SetPanelStatus(r.admins[admin].status));
    es, f := Next(Rule(calm), from, es, f, SetReseller(r.status));
  }

  lemma SyncSwitches(status: ResellerStatus, hold: bool, admin: string, admins: map<string, Admin>,
                     users: map<string, User>, now: int, s: Settings, net: Resellers.ResellerNet)
    requires admin in admins
    ensures var r := Resellers.SyncedReseller(status, hold, admin, admins, users, now, s, net);
      admin in r.admins && r.admins[admin] == admins[admin].(status := r.admins[admin].status)
  {
    hide AllOff, Resellers.AdminExhausted, NormalizeStatus;
  }

  // ----- Series of work -----

  /** What may happen, one after the other, to a reseller that has an account: the scheduler's work on an
      order and on the row, the owner's switch, a payment, spending, and the session's commit or loss. */
  datatype Work =
    | Attempt(oid: nat, product: Product, when: int, faults: Net)
    | Sync(hold: bool, users: map<string, User>, now: int, settings: Settings, net: Resellers.ResellerNet)
    | OwnerSwitch(suspend: bool, executed: bool, confirmed: bool)
    | Payment(order: nat)
    | Spend(used: nat)
    | Commit
    | Crash

  function RowsAt(v: View, oid: nat): Rows
    requires oid < |v.mem.orders| && oid < |v.db.orders|
  {
    Rows(v.mem.orders[oid], None, None, v.mem.reseller, None, Some(v.panel), OrderImage(v.db.orders[oid], None, None),
         ResellerImage(v.db.reseller, None))
  }

  predicate Selects(v: View, oid: nat) {
    oid < |v.mem.orders| && oid < |v.db.orders| && v.mem.orders[oid].status in {Paid, Applying}
  }

  function AttemptAt(v: View, oid: nat, admin: string, product: Product, now: int, net: Net): (a: Payments.Attempt)
    requires Selects(v, oid)
    ensures a.rows.account.Some?
  {
    AccountStays(RowsAt(v, oid), admin, product, now, net);
    Attempted(RowsAt(v, oid), admin, product, now, net)
  }

  // A payment confirmed by the owner or the provider; the row is the same in both copies.
  predicate Payable(v: View, oid: nat) {
    && oid < |v.mem.orders| && oid < |v.db.orders| && v.db.orders[oid] == v.mem.orders[oid]
    && v.db.orders[oid].plan.None? && v.db.orders[oid].status in {WaitingReceipt, WaitingPayment}
  }

  // The owner's handler: the switch, and the status once the panel shows it, in a transaction of its own.
  function Switched(v: View, suspend: bool, executed: bool, confirmed: bool): View {
    var status := if suspend then Disabled else Active;
    var panel := if executed then v.panel.(status := status) else v.panel;
    var row := if confirmed && NormalizeStatus(panel.status) == status
               then v.db.(reseller := if suspend then Suspended else ResellerActive) else v.db;
    View(panel, row, row)
  }

  /** The owner's switch acts on the panel if executed, and on the row exactly when the panel then shows what
      was asked; a session that was not committed is lost to it. */
  lemma OwnerSwitchMoves(v: View, suspend: bool, executed: bool, confirmed: bool)
    ensures var f := Switched(v, suspend, executed, confirmed);
      var shown := f.panel.status in (if suspend then {Disabled, Inactive} else {Active, Enabled});
      && f.panel == (if !executed then v.panel else v.panel.(status := if suspend then Disabled else Active))
      && f.mem == f.db && f.db.orders == v.db.orders
      && f.db.reseller == (if !confirmed || !shown then v.db.reseller
                           else if suspend then Suspended else ResellerActive)
  {
  }

  function Worked(v: View, admin: string, w: Work): View {
    match w
    case Attempt(oid, product, now, net) =>
      if Selects(v, oid) then AfterAttempt(v, oid, AttemptAt(v, oid, admin, product, now, net)) else v
    case Sync(hold, users, now, settings, net) =>
      var admins := map[admin := v.panel];
      var r := Resellers.SyncedReseller(v.mem.reseller, hold, admin, admins, users, now, settings, net);
      v.(panel := Lookup(r.admins, admin).GetOr(v.panel), mem := v.mem.(reseller := r.status))
    case OwnerSwitch(suspend, executed, confirmed) => Switched(v, suspend, executed, confirmed)
    case Payment(oid) =>
      if Payable(v, oid) then v.(db := SetStatus(v.db, oid, Paid), mem := SetStatus(v.mem, oid, Paid)) else v
    case Spend(used) => v.(panel := v.panel.(used := used))
    case Commit => v.(db := v.mem)
    case Crash => v.(mem := v.db)
  }

  function WorkedAll(v: View, admin: string, ws: seq<Work>): View
    decreases |ws|
  {
    if ws == [] then v else WorkedAll(Worked(v, admin, ws[0]), admin, ws[1..])
  }

  // Products sell something, and the clock is past the epoch.
  predicate Sound(w: Work) {
    w.Attempt? ==> Purchase(w.product) && w.when >= SECOND
  }

  predicate NothingOpen(orders: seq<Order>) {
    forall k :: 0 <= k < |orders| && orders[k].plan.Some? ==> orders[k].status == Applied
  }

  // An order is planned only while no other one is open.
  predicate OneAtATime(v: View, admin: string, ws: seq<Work>)
    decreases |ws|
  {
    ws == [] ||
      (&& (ws[0].Attempt? && Selects(v, ws[0].oid) && v.mem.orders[ws[0].oid].plan.None? ==> NothingOpen(v.mem.orders))
       && OneAtATime(Worked(v, admin, ws[0]), admin, ws[1..]))
  }

  lemma NothingOpenIsAllDone(s: State)
    requires Inv(s) && NothingOpen(s.mem.orders)
    ensures AllDone(s.mem.orders, s.ledger)
  {
    forall i | 0 <= i < |s.ledger|
      ensures s.ledger[i].oid < |s.mem.orders| && s.mem.orders[s.ledger[i].oid].status == Applied
    {
      assert Recorded(s.db.orders, s.ledger[i]);
      assert Agree(s.db.orders[s.ledger[i].oid], s.mem.orders[s.ledger[i].oid]);
    }
  }

  lemma OwnerSwitchIsRun(calm: bool, from: State, es0: seq<Event>, s: State, w: Work) returns (es: seq<Event>, f: State)
    requires Leads(Rule(calm), from, es0, s) && s.worker.Idle? && w.OwnerSwitch?
    ensures Leads(Rule(calm), from, es, f) && f.worker.Idle? && f.inflight == s.inflight
    ensures ViewOf(f) == Switched(ViewOf(s), w.suspend, w.executed, w.confirmed)
  {
    hide Leads;
    var v := Switched(ViewOf(s), w.suspend, w.executed, w.confirmed);
    es, f := Next(Rule(calm), from, es0, s, OrderMachine.Crash);
    es, f := Next(Rule(calm), from, es, f, SetPanelStatus(v.panel.status));
    es, f := Next(Rule(calm), from, es, f, SetReseller(v.db.reseller));
    es, f := Next(Rule(calm), from, es, f, OrderMachine.Commit);
  }

  lemma AttemptWorkIsRun(calm: bool, from: State, es0: seq<Event>, s: State, admin: string, w: Work)
    returns (es: seq<Event>, f: State)
    requires Leads(Rule(calm), from, es0, s) && s.worker.Idle? && Inv(s) && (calm ==> s.inflight == {})
    requires w.Attempt? && Sound(w) && Selects(ViewOf(s), w.oid)
    requires calm && s.mem.orders[w.oid].plan.None? ==> NothingOpen(s.mem.orders)
    ensures Leads(Rule(calm), from, es, f) && f.worker.Idle? && (calm ==> f.inflight == {})
    ensures ViewOf(f) == Worked(ViewOf(s), admin, w)
  {
    if NothingOpen(s.mem.orders) {
      NothingOpenIsAllDone(s);
    }
    hide Leads, Inv, Attempted, NothingOpen, AllDone;
    var r := RowsAt(ViewOf(s), w.oid);
    es, f := AttemptIsRun(calm, from, es0, s, w.oid, r, admin, w.product, w.when, w.faults);
  }

  lemma WorkIsRun(calm: bool, from: State, es0: seq<Event>, s: State, admin: string, w: Work)
    returns (es: seq<Event>, f: State)
    requires Leads(Rule(calm), from, es0, s) && s.worker.Idle? && Inv(s) && (calm ==> s.inflight == {}) && Sound(w)
    requires calm && w.Attempt? && Selects(ViewOf(s), w.oid) && s.mem.orders[w.oid].plan.None? ==>
      NothingOpen(s.mem.orders)
    ensures Leads(Rule(calm), from, es, f) && f.worker.Idle? && (calm ==> f.inflight == {})
    ensures ViewOf(f) == Worked(ViewOf(s), admin, w)
  {
    hide Leads, Inv, NothingOpen, AttemptAt, AfterAttempt;
    es, f := es0, s;
    match w {
      case Attempt(_, _, _, _) =>
        if Selects(ViewOf(s), w.oid) {
          es, f := AttemptWorkIsRun(calm, from, es0, s, admin, w);
        }
      case Sync(hold, users, now, settings, net) =>
        hide Resellers.SyncedReseller;
        es, f := SyncIsRun(calm, from, es0, s, hold, admin, map[admin := s.panel], users, now, settings, net);
      case OwnerSwitch(_, _, _) => es, f := OwnerSwitchIsRun(calm, from, es0, s, w);
      case Payment(oid) =>
        if Payable(ViewOf(s), oid) {
          es, f := Next(Rule(calm), from, es0, s, Pay(oid));
        }
      case Spend(used) => es, f := Next(Rule(calm), from, es0, s, Consume(used));
      case Commit => es, f := Next(Rule(calm), from, es0, s, OrderMachine.Commit);
      case Crash => es, f := Next(Rule(calm), from, es0, s, OrderMachine.Crash);
    }
  }

  /** Any series of work is a run of the order machine; and a calm run if orders are planned one at a time. */
  lemma {:induction false} SeriesIsRun(calm: bool, from: State, es0: seq<Event>, s: State, admin: string, ws: seq<Work>)
    returns (es: seq<Event>, f: State)
    requires Leads(Rule(calm), from, es0, s) && Inv(from) && s.worker.Idle? && (calm ==> s.inflight == {})
    requires (forall i :: 0 <= i < |ws| ==> Sound(ws[i])) && (calm ==> OneAtATime(ViewOf(s), admin, ws))
    ensures Leads(Rule(calm), from, es, f) && ViewOf(f) == WorkedAll(ViewOf(s), admin, ws) && f.worker.Idle?
    decreases |ws|
  {
    es, f := es0, s;
    if ws != [] {
      RunKeepsInv(from, es0);
      hide Leads, Inv, Worked, Sound, NothingOpen;
      es, f := WorkIsRun(calm, from, es0, s, admin, ws[0]);
      es, f := SeriesIsRun(calm, from, es, f, admin, ws[1..]);
    }
  }

  // ----- What holds of every series -----

  // The machine at rest, showing the view.
  function AtRest(v: View): State {
    State(v.panel, v.db, v.mem, Idle, {}, 0, {}, [])
  }

  // No order has been planned yet.
  predicate Start(v: View) {
    Init(AtRest(v))
  }

  // The orders that committed a target, each once, with the account, product and clock it came from.
  ghost predicate Books(orders: seq<Order>, gs: seq<Grant>) {
    && Distinct(gs)
    && (forall k: nat :: k < |orders| ==> (orders[k].plan.Some? <==> InLedger(gs, k)))
    && forall i :: 0 <= i < |gs| ==> Recorded(orders, gs[i])
  }

  lemma BooksOfRun(s: State, es: seq<Event>)
    requires Init(s) && Valid(s, es)
    ensures Books(Final(s, es).db.orders, Final(s, es).ledger)
  {
    NoOverCredit.NoOverCredit(s, es);
    hide LimitBound, ExpiryBound;
  }

  // With nothing open, the listed orders are the applied ones.
  lemma ListedIsApplied(s: State, es: seq<Event>)
    requires Init(s) && Valid(s, es) && NothingOpen(Final(s, es).db.orders)
    ensures var f := Final(s, es);
      && AllDone(f.db.orders, f.ledger)
      && forall k: nat :: k < |f.db.orders| ==> (f.db.orders[k].status == Applied <==> InLedger(f.ledger, k))
  {
    RunKeepsInv(s, es);
    BooksOfRun(s, es);
    var f := Final(s, es);
    forall k: nat | k < |f.db.orders| ensures f.db.orders[k].status == Applied ==> f.db.orders[k].plan.Some? {
      assert Agree(f.db.orders[k], f.mem.orders[k]);
    }
    forall i | 0 <= i < |f.ledger|
      ensures f.ledger[i].oid < |f.db.orders| && f.db.orders[f.ledger[i].oid].status == Applied
    {
      assert Recorded(f.db.orders, f.ledger[i]);
    }
  }

  /** No over-credit, of the program's own work: whatever series of attempts at any orders, syncs, switches,
      commits and crashes, under whatever faults, the account never exceeds the closed form over the
      orders that committed a target. */
  lemma SeriesNeverOverCredits(v: View, admin: string, ws: seq<Work>)
    requires Start(v) && forall i :: 0 <= i < |ws| ==> Sound(ws[i])
    ensures var f := WorkedAll(v, admin, ws);
      exists gs ::
        && Books(f.db.orders, gs)
        && (if Unlimited(f.panel.dataLimit) then Unlimited(v.panel.dataLimit)
            else f.panel.dataLimit.value <= LimitBound(v.panel, Renewals(gs)))
        && (if f.panel.expire.None? then v.panel.expire.None?
            else f.panel.expire.value <= ExpiryBound(v.panel, Renewals(gs)))
  {
    var es, f := SeriesIsRun(false, AtRest(v), [], AtRest(v), admin, ws);
    NoOverCredit.NoOverCredit(AtRest(v), es);
    BooksOfRun(AtRest(v), es);
    hide WorkedAll, LimitBound, ExpiryBound, Books;
  }

  /** Exactly once, of the program's own work: if orders are planned one at a time, then after any series,
      under whatever faults, with no order open in the database, the account holds exactly the fold of the
      applied orders, each once. */
  lemma SeriesCreditsOnce(v: View, admin: string, ws: seq<Work>)
    requires Start(v) && OneAtATime(v, admin, ws) && forall i :: 0 <= i < |ws| ==> Sound(ws[i])
    requires NothingOpen(WorkedAll(v, admin, ws).db.orders)
    ensures var f := WorkedAll(v, admin, ws);
      exists gs ::
        && Books(f.db.orders, gs)
        && (forall k: nat :: k < |f.db.orders| ==> (f.db.orders[k].status == Applied <==> InLedger(gs, k)))
        && f.panel.dataLimit == LimitAfter(v.panel.dataLimit, Renewals(gs))
        && f.panel.expire == ExpiryAfter(v.panel.expire, Renewals(gs))
  {
    var es, f := SeriesIsRun(true, AtRest(v), [], AtRest(v), admin, ws);
    CalmIsOrderly(AtRest(v), es);
    EveryAppliedOrderCountsOnce(AtRest(v), es);
    BooksOfRun(AtRest(v), es);
    ListedIsApplied(AtRest(v), es);
    hide WorkedAll, OneAtATime, Books, AllDone, InLedger, RunOf;
  }

  /** Coming back, in any reachable series: an attempt that settles its order leaves no reseller EXPIRED or
      DISABLED, and changes no other status. */
  lemma SettledRenewalBringsBack(v: View, admin: string, ws: seq<Work>, w: Work)
    requires Start(v) && w.Attempt? && forall i :: 0 <= i < |ws| ==> Sound(ws[i])
    requires var u := WorkedAll(v, admin, ws);
      Selects(u, w.oid) && Worked(u, admin, w).mem.orders[w.oid].status == Applied
    ensures var u, f := WorkedAll(v, admin, ws), Worked(WorkedAll(v, admin, ws), admin, w);
      f.mem.reseller == if u.mem.reseller == ResellerExpired || u.mem.reseller == ResellerDisabled
                        then ResellerActive else u.mem.reseller
  {
    ReachedAgrees(v, admin, ws, w.oid);
    AppliedAttemptIsSettled(WorkedAll(v, admin, ws), admin, w);
    hide WorkedAll, Worked;
  }

  /** The next sync of that account before it is spent, outside dry run, then runs the loop that revives the
      reseller's children. */
  lemma NextSyncRevives(v: View, admin: string, ws: seq<Work>, w: Work, users: map<string, User>, now: int,
                        settings: Settings, net: Resellers.ResellerNet)
    requires Start(v) && w.Attempt? && forall i :: 0 <= i < |ws| ==> Sound(ws[i])
    requires var u := WorkedAll(v, admin, ws);
      && u.mem.reseller in {ResellerActive, ResellerExpired, ResellerDisabled}
      && Selects(u, w.oid) && Worked(u, admin, w).mem.orders[w.oid].status == Applied
    requires admin != "" && net.readable && !settings.dryRun
    requires var a := Worked(WorkedAll(v, admin, ws), admin, w).panel;
      && (a.expire.None? || now < a.expire.value)
      && (a.dataLimit.None? || a.dataLimit.value <= 0 || a.used < a.dataLimit.value)
    ensures var f := Worked(WorkedAll(v, admin, ws), admin, w);
      && var r := Resellers.SyncedReseller(f.mem.reseller, false, admin, map[admin := f.panel], users, now, settings,
                                           net);
      && r.revive && r.status == ResellerActive && !r.aborted
  {
    SettledRenewalBringsBack(v, admin, ws, w);
    hide WorkedAll, Worked, Start, Sound;
    var f := Worked(WorkedAll(v, admin, ws), admin, w);
    Resellers.LiveAccountStartsRevival(f.mem.reseller, false, admin, map[admin := f.panel], users, now, settings, net);
    hide Resellers.SyncedReseller;
  }

  lemma ReachedAgrees(v: View, admin: string, ws: seq<Work>, oid: nat)
    requires Start(v) && forall i :: 0 <= i < |ws| ==> Sound(ws[i])
    ensures var u := WorkedAll(v, admin, ws);
      oid < |u.db.orders| && oid < |u.mem.orders| ==> Agree(u.db.orders[oid], u.mem.orders[oid])
  {
    var es, s := SeriesIsRun(false, AtRest(v), [], AtRest(v), admin, ws);
    RunKeepsInv(AtRest(v), es);
    hide WorkedAll;
  }

  lemma AppliedAttemptIsSettled(u: View, admin: string, w: Work)
    requires w.Attempt? && Selects(u, w.oid) && Agree(u.db.orders[w.oid], u.mem.orders[w.oid])
    requires Worked(u, admin, w).mem.orders[w.oid].status == Applied
    ensures Worked(u, admin, w).mem.reseller
         == if u.mem.reseller == ResellerExpired || u.mem.reseller == ResellerDisabled
            then ResellerActive else u.mem.reseller
  {
    Recovery.SettlingBringsBack(RowsAt(u, w.oid), admin, w.product, w.when, w.faults);
    hide Attempted;
  }
}
