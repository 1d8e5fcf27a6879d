/** Orderly runs: one order is open at a time, and the next one is planned only when no request of the
    last is still under way. Crashes, lost replies, partial, late and repeated deliveries are all allowed,
    and the account may be switched on or off at any moment. In these runs the whole protocol implements
    "credit each applied order once, atomically". */
module ExactlyOnce {
  import opened Prelude
  import opened Quota
  import opened Wire
  import opened Entitlement
  import opened OrderMachine

  // The first n listed orders are applied in this copy of the rows.
  predicate Done(orders: seq<Order>, ledger: seq<Grant>, n: int) {
    forall i :: 0 <= i < |ledger| && i < n ==>
      ledger[i].oid < |orders| && orders[ledger[i].oid].status == Applied
  }

  predicate AllDone(orders: seq<Order>, ledger: seq<Grant>) {
    Done(orders, ledger, |ledger|)
  }

  predicate Orderly(s: State, e: Event) {
    match e
    case Compute(_, _) => s.inflight == {} && AllDone(s.mem.orders, s.ledger)
    case _ => true
  }

  predicate OrderlyRun(s: State, es: seq<Event>) {
    RunOf(Orderly, s, es)
  }

  // ----- The invariant -----

  // Everything an order controls, status aside.
  function Held(a: Admin): Snapshot {
    EntitlementSnapshot(a).(status := Active)
  }

  function Last(ledger: seq<Grant>): Grant
    requires ledger != []
  {
    ledger[|ledger| - 1]
  }

  function Target(g: Grant): Snapshot {
    PlanOf(g).target
  }

  // Each plan was computed from what its predecessor left.
  predicate Chain(start: Admin, ledger: seq<Grant>) {
    if ledger == [] then true
    else
      var front := ledger[..|ledger| - 1];
      && Chain(start, front)
      && Held(Last(ledger).live) == if front == [] then Held(start) else Target(Last(front))
  }

  predicate Wired(g: Grant) {
    Image(Target(g).expire) == Target(g).expire
  }

  predicate WiredUpTo(ledger: seq<Grant>, n: int) {
    forall i :: 0 <= i < |ledger| && i < n ==> Wired(ledger[i])
  }

  /** Each of the five fields an order alone controls holds its value from before the order or its target
      value, as the wire carries it. */
  predicate FieldWise(a: Admin, before: Snapshot, target: Snapshot) {
    && a.dataLimit in {before.dataLimit, target.dataLimit}
    && a.expire in {before.expire, Image(target.expire)}
    && a.services in {before.services, target.services}
    && a.usersLimit in {before.usersLimit, target.usersLimit}
    && a.role == before.role
  }

  predicate AtTarget(s: State, g: Grant) {
    Held(s.panel) == Target(g) && Wired(g)
  }

  // Updates under way carry the last plan's target.
  predicate Carried(s: State, g: Grant) {
    forall r :: r in s.inflight && r.Update? ==> r.oid == g.oid && r.target == Target(g)
  }

  predicate OpenOk(s: State, g: Grant, settled: bool) {
    FieldWise(s.panel, EntitlementSnapshot(g.live), Target(g)) && (settled ==> AtTarget(s, g))
  }

  predicate PanelOk(start: Admin, s: State) {
    if s.ledger == [] then s.inflight == {} && Held(s.panel) == Held(start)
    else
      var g := Last(s.ledger);
      && g.oid < |s.db.orders| && g.oid < |s.mem.orders|
      && Carried(s, g)
      && if s.db.orders[g.oid].status == Applied then AtTarget(s, g)
         else OpenOk(s, g, s.mem.orders[g.oid].status == Applied)
  }

  predicate BooksOrderly(start: Admin, s: State) {
    && Chain(start, s.ledger)
    && Done(s.db.orders, s.ledger, |s.ledger| - 1)
    && WiredUpTo(s.ledger, |s.ledger| - 1)
  }

  predicate SameNow(s: State, live: Admin) {
    Held(live) == Held(s.panel)
  }

  // What was read is still true, status apart, when nothing is open, and when it was the last target.
  predicate ReadOk(s: State, live: Admin) {
    && (AllDone(s.mem.orders, s.ledger) ==> SameNow(s, live))
    && (s.ledger != [] && Held(live) == Target(Last(s.ledger)) ==> SameNow(s, live))
  }

  predicate WorkerOrderly(s: State) {
    match s.worker
    case Idle => true
    case Read(_, live) => ReadOk(s, live)
    case Computed(g) => s.inflight == {} && SameNow(s, g.live) && AllDone(s.mem.orders, s.ledger)
    case _ => s.ledger != [] && Last(s.ledger).oid == s.worker.oid
  }

  predicate OrderlyParts(start: Admin, s: State) {
    BooksOrderly(start, s) && PanelOk(start, s) && WorkerOrderly(s)
  }

  predicate OrderlyInv(start: Admin, s: State) {
    Inv(s) && OrderlyParts(start, s)
  }

  // An order with a plan that is not applied is the last one in the ledger.
  lemma OpenIsLast(start: Admin, s: State, oid: nat)
    requires Inv(s) && BooksOrderly(start, s) && Planned(s, oid) && s.mem.orders[oid].status != Applied
    ensures s.ledger != [] && Last(s.ledger).oid == oid
    ensures s.mem.orders[oid].plan == Some(PlanOf(Last(s.ledger)))
    ensures s.db.orders[oid].status != Applied
  {
  }

  // An account that is at the target of a purchase shows that the target fits the wire.
  lemma TargetReachedIsWired(a: Admin, g: Grant)
    requires SoundGrant(g) && FieldWise(a, EntitlementSnapshot(g.live), Target(g))
    requires Held(a) == Target(g)
    ensures Wired(g)
  {
  }

  // ----- One lemma per kind of step -----

  lemma PersistIsOrderly(start: Admin, s: State)
    requires OrderlyParts(start, s) && Can(s, Persist)
    requires forall i :: 0 <= i < |s.ledger| ==> s.ledger[i].oid != s.worker.grant.oid
    requires s.ledger != [] ==> AtTarget(s, Last(s.ledger))
    requires WiredUpTo(s.ledger, |s.ledger|)
    ensures OrderlyParts(start, Step(s, Persist))
  {
    var s' := Step(s, Persist);
    assert s'.ledger[..|s.ledger|] == s.ledger;
  }

  lemma AllDoneIsSettled(start: Admin, s: State)
    requires OrderlyInv(start, s) && Can(s, Persist)
    ensures forall i :: 0 <= i < |s.ledger| ==> s.ledger[i].oid != s.worker.grant.oid
    ensures s.ledger != [] ==> AtTarget(s, Last(s.ledger))
    ensures WiredUpTo(s.ledger, |s.ledger|)
  {
    hide FieldWise, Chain;
  }

  lemma SettlingKeepsParts(start: Admin, s: State, e: Event)
    requires OrderlyParts(start, s) && Can(s, e) && (e.Settle? || e.Verify?)
    requires s.ledger != [] && Last(s.ledger).oid == s.worker.oid && AtTarget(s, Last(s.ledger))
    requires s.db.orders[s.worker.oid].status != Applied
    ensures OrderlyParts(start, Step(s, e))
  {
    hide FieldWise, Chain, Matches;
  }

  lemma SettlingIsOrderly(start: Admin, s: State, e: Event)
    requires OrderlyInv(start, s) && Can(s, e) && (e.Settle? || e.Verify?)
    ensures OrderlyInv(start, Step(s, e))
  {
    StepKeepsInv(s, e);
    OpenIsLast(start, s, s.worker.oid);
    var g := Last(s.ledger);
    assert SoundGrant(g) by { assert s.ledger[|s.ledger| - 1] == g; }
    assert Held(s.panel) == Target(g);
    hide Inv, FieldWise, Chain, Step;
    TargetReachedIsWired(s.panel, g);
    SettlingKeepsParts(start, s, e);
  }

  lemma ResumeIsOrderly(start: Admin, s: State)
    requires OrderlyInv(start, s) && Can(s, Resume)
    ensures OrderlyInv(start, Step(s, Resume))
  {
    StepKeepsInv(s, Resume);
    OpenIsLast(start, s, s.worker.oid);
    hide Inv, FieldWise, BooksOk;
  }

  lemma SendKeepsParts(start: Admin, s: State, e: Event)
    requires OrderlyParts(start, s) && Can(s, e) && (e.SendUpdate? || e.SendEnable?)
    requires s.ledger != [] && Last(s.ledger).oid == s.worker.oid
    requires Planned(s, s.worker.oid) && s.mem.orders[s.worker.oid].plan == Some(PlanOf(Last(s.ledger)))
    requires s.db.orders[s.worker.oid].status != Applied && s.mem.orders[s.worker.oid].status != Applied
    ensures OrderlyParts(start, Step(s, e))
  {
    hide FieldWise, Chain;
  }

  lemma SendIsOrderly(start: Admin, s: State, e: Event)
    requires OrderlyInv(start, s) && Can(s, e) && (e.SendUpdate? || e.SendEnable?)
    ensures OrderlyInv(start, Step(s, e))
  {
    StepKeepsInv(s, e);
    OpenIsLast(start, s, s.worker.oid);
    hide Inv, BooksOrderly, PanelOk, WorkerOrderly, Step;
    SendKeepsParts(start, s, e);
  }

  // Executing any part of the update keeps the account field-wise, and a visible change is a change.
  lemma WriteStaysFieldWise(a: Admin, before: Snapshot, target: Snapshot, fields: set<Field>)
    requires FieldWise(a, before, target)
    ensures var a' := Write(a, target, fields);
      FieldWise(a', before, target) && (a' != a ==> !SameFour(a', before))
  {
  }

  // Any request of the last order leaves an account at its target where it is.
  lemma TargetAbsorbs(s: State, r: Request, fields: set<Field>, g: Grant)
    requires Carried(s, g) && AtTarget(s, g) && r in s.inflight
    ensures Held(Step(s, Deliver(r, fields)).panel) == Held(s.panel)
  {
  }

  lemma DeliveryKeepsParts(start: Admin, s: State, r: Request, fields: set<Field>, g: Grant)
    requires OrderlyParts(start, s) && Can(s, Deliver(r, fields)) && s.ledger != [] && g == Last(s.ledger)
    requires AtTarget(s, g)
    ensures OrderlyParts(start, Step(s, Deliver(r, fields)))
  {
    TargetAbsorbs(s, r, fields, g);
    var s' := Step(s, Deliver(r, fields));
    assert s'.panel.expire == s.panel.expire;
    hide Write, Delivered;
  }

  lemma OpenDeliveryKeepsParts(start: Admin, s: State, r: Request, fields: set<Field>, g: Grant)
    requires OrderlyParts(start, s) && Can(s, Deliver(r, fields)) && s.ledger != [] && g == Last(s.ledger)
    requires OpenOk(s, g, false) && s.db.orders[g.oid].status != Applied && s.mem.orders[g.oid].status != Applied
    requires Held(s.panel) != Target(g)
    ensures OrderlyParts(start, Step(s, Deliver(r, fields)))
  {
    WriteStaysFieldWise(s.panel, EntitlementSnapshot(g.live), Target(g), fields);
    assert r.Enable? ==> FieldWise(s.panel.(status := Active), EntitlementSnapshot(g.live), Target(g));
    assert !AllDone(s.mem.orders, s.ledger) by {
      assert s.ledger[|s.ledger| - 1] == g;
    }
    hide FieldWise, Write;
  }

  lemma DeliveryIsOrderly(start: Admin, s: State, r: Request, fields: set<Field>)
    requires OrderlyInv(start, s) && Can(s, Deliver(r, fields))
    ensures OrderlyInv(start, Step(s, Deliver(r, fields)))
  {
    StepKeepsInv(s, Deliver(r, fields));
    var g := Last(s.ledger);
    assert Recorded(s.db.orders, g) by { assert s.ledger[|s.ledger| - 1] == g; }
    assert SoundGrant(g) by { assert s.ledger[|s.ledger| - 1] == g; }
    assert Agree(s.db.orders[g.oid], s.mem.orders[g.oid]);
    hide Inv, Step, BooksOrderly, WorkerOrderly, Write, Chain;
    if Held(s.panel) == Target(g) {
      if s.db.orders[g.oid].status != Applied {
        TargetReachedIsWired(s.panel, g);
      }
      DeliveryKeepsParts(start, s, r, fields, g);
    } else {
      OpenDeliveryKeepsParts(start, s, r, fields, g);
    }
  }

  lemma CommitKeepsParts(start: Admin, s: State, e: Event)
    requires OrderlyParts(start, s) && Can(s, e) && (e.Commit? || e.Crash?)
    requires Done(Step(s, e).db.orders, s.ledger, |s.ledger| - 1)
    requires s.ledger != [] ==>
      var oid := Last(s.ledger).oid;
      && oid < |s.mem.orders| && oid < |s.db.orders|
      && (s.db.orders[oid].status == Applied ==> s.mem.orders[oid].status == Applied)
    ensures OrderlyParts(start, Step(s, e))
  {
    hide FieldWise, Chain, WiredUpTo, Done;
  }

  lemma CommitIsOrderly(start: Admin, s: State, e: Event)
    requires OrderlyInv(start, s) && Can(s, e) && (e.Commit? || e.Crash?)
    ensures OrderlyInv(start, Step(s, e))
  {
    StepKeepsInv(s, e);
    if s.ledger != [] {
      var g := Last(s.ledger);
      assert Agree(s.db.orders[g.oid], s.mem.orders[g.oid]);
      forall i | 0 <= i < |s.ledger| - 1
        ensures s.ledger[i].oid < |Step(s, e).db.orders| && Step(s, e).db.orders[s.ledger[i].oid].status == Applied
      {
        var oid := s.ledger[i].oid;
        assert Agree(s.db.orders[oid], s.mem.orders[oid]);
      }
    }
    hide Inv, BooksOrderly, PanelOk, WorkerOrderly;
    CommitKeepsParts(start, s, e);
  }

  lemma PayIsOrderly(start: Admin, s: State, oid: nat)
    requires OrderlyParts(start, s) && Can(s, Pay(oid))
    requires forall i :: 0 <= i < |s.ledger| ==> s.ledger[i].oid != oid
    requires |s.mem.orders| == |s.db.orders|
    ensures OrderlyParts(start, Step(s, Pay(oid)))
  {
  }

  lemma PaidOrderIsNew(s: State, oid: nat)
    requires Inv(s) && Can(s, Pay(oid))
    ensures |s.mem.orders| == |s.db.orders|
    ensures forall i :: 0 <= i < |s.ledger| ==> s.ledger[i].oid != oid
  {
  }

  lemma SwitchIsOrderly(start: Admin, s: State, status: Status)
    requires OrderlyInv(start, s)
    ensures OrderlyInv(start, Step(s, SetPanelStatus(status)))
  {
    StepKeepsInv(s, SetPanelStatus(status));
    assert Held(s.panel.(status := status)) == Held(s.panel);
    hide Inv, Chain, WiredUpTo, Done, PlanOf;
  }

  lemma MovingIsOrderly(start: Admin, s: State, e: Event)
    requires OrderlyParts(start, s) && Can(s, e) && Orderly(s, e)
    requires e.Begin? || e.Compute? || e.UpdateReturns? || e.EnableReturns? || e.Fail? || e.SetReseller?
    ensures OrderlyParts(start, Step(s, e))
  {
    hide FieldWise, Chain;
  }

  lemma DropIsOrderly(start: Admin, s: State, e: Event)
    requires OrderlyParts(start, s) && Can(s, e) && (e.Drop? || e.Consume?)
    ensures OrderlyParts(start, Step(s, e))
  {
    hide Chain;
  }

  lemma StepIsOrderly(start: Admin, s: State, e: Event)
    requires OrderlyInv(start, s) && Can(s, e) && Orderly(s, e)
    ensures OrderlyInv(start, Step(s, e))
  {
    hide Inv, Can, Orderly, Step, BooksOrderly, PanelOk, WorkerOrderly;
    StepKeepsInv(s, e);
    match e
    case Persist =>
      AllDoneIsSettled(start, s);
      PersistIsOrderly(start, s);
    case Settle => SettlingIsOrderly(start, s, e);
    case Verify => SettlingIsOrderly(start, s, e);
    case Resume => ResumeIsOrderly(start, s);
    case SendUpdate => SendIsOrderly(start, s, e);
    case SendEnable => SendIsOrderly(start, s, e);
    case Deliver(r, fields) => DeliveryIsOrderly(start, s, r, fields);
    case Commit => CommitIsOrderly(start, s, e);
    case Crash => CommitIsOrderly(start, s, e);
    case Pay(oid) =>
      PaidOrderIsNew(s, oid);
      PayIsOrderly(start, s, oid);
    case SetPanelStatus(status) => SwitchIsOrderly(start, s, status);
    case Drop(_) => DropIsOrderly(start, s, e);
    case Consume(_) => DropIsOrderly(start, s, e);
    case _ => MovingIsOrderly(start, s, e);
  }

  lemma {:induction false} RunIsOrderly(start: Admin, s: State, es: seq<Event>)
    requires OrderlyInv(start, s) && OrderlyRun(s, es)
    ensures Valid(s, es) && OrderlyInv(start, Final(s, es))
    decreases |es|
  {
    if es != [] {
      hide OrderlyInv, Can, Orderly, Step;
      StepIsOrderly(start, s, es[0]);
      RunIsOrderly(start, Step(s, es[0]), es[1..]);
    }
  }

  lemma InitIsOrderly(s: State)
    requires Init(s)
    ensures OrderlyInv(s.panel, s)
  {
  }

  // ----- Main results -----

  /** While an order is open, every one of the five fields it alone controls is its old or its target
      value. The sixth, the status, is AccountStatus's. */
  lemma OpenOrderIsFieldWise(s: State, es: seq<Event>)
    requires Init(s) && OrderlyRun(s, es)
    ensures Valid(s, es)
    ensures var f := Final(s, es);
      f.ledger != [] ==>
        var g := Last(f.ledger);
        && Recorded(f.db.orders, g)
        && (f.db.orders[g.oid].status != Applied ==> FieldWise(f.panel, EntitlementSnapshot(g.live), Target(g)))
  {
    InitIsOrderly(s);
    RunIsOrderly(s.panel, s, es);
    var f := Final(s, es);
    if f.ledger != [] {
      assert Recorded(f.db.orders, f.ledger[|f.ledger| - 1]);
    }
  }

  /** The abstract account: an entitlement, status apart; the status; and the purchases credited, in order. */
  datatype Account = Account(entitlement: Snapshot, status: Status, credited: seq<Grant>)

  // What an orderly state stands for: an order that is not durably applied has not happened yet.
  function Abstract(s: State): Account {
    var status := NormalizeStatus(s.panel.status);
    if s.ledger != [] && !AllDone(s.db.orders, s.ledger) then
      Account(Held(Last(s.ledger).live), status, s.ledger[..|s.ledger| - 1])
    else
      Account(Held(s.panel), status, s.ledger)
  }

  // One atomic purchase, of an order not credited before, on exactly the current entitlement.
  ghost predicate Credits(a: Account, a': Account) {
    exists g ::
      && SoundGrant(g)
      && Held(g.live) == a.entitlement
      && !InLedger(a.credited, g.oid)
      && a' == a.(entitlement := TargetSnapshot(g.live, g.product, g.now), credited := a.credited + [g])
  }

  predicate Switches(a: Account, a': Account) {
    a' == a.(status := a'.status)
  }

  ghost predicate AccountStep(a: Account, a': Account) {
    a' == a || Credits(a, a') || Switches(a, a')
  }

  ghost predicate AccountRun(a: Account, a': Account, steps: nat)
    decreases steps
  {
    if steps == 0 then a == a'
    else exists m :: AccountStep(a, m) && AccountRun(m, a', steps - 1)
  }

  lemma LastIsCredited(start: Admin, s: State)
    requires OrderlyInv(start, s) && s.ledger != []
    ensures forall status :: Credits(Account(Held(Last(s.ledger).live), status, s.ledger[..|s.ledger| - 1]),
                                     Account(Target(Last(s.ledger)), status, s.ledger))
  {
    var n := |s.ledger| - 1;
    var g, front := s.ledger[n], s.ledger[..n];
    assert SoundGrant(g) && !InLedger(front, g.oid);
    hide OrderlyInv, SoundGrant, InLedger;
    assert s.ledger == front + [g];
  }

  predicate Closed(s: State) {
    AllDone(s.db.orders, s.ledger)
  }

  // Closed or not is a matter of the last order alone.
  lemma ClosedByLast(start: Admin, s: State)
    requires OrderlyInv(start, s)
    ensures s.ledger != [] ==>
      var oid := Last(s.ledger).oid;
      && oid < |s.db.orders| && oid < |s.mem.orders|
      && (Closed(s) <==> s.db.orders[oid].status == Applied)
      && (!Closed(s) && s.mem.orders[oid].status == Applied ==> Held(s.panel) == Target(Last(s.ledger)))
      && (Closed(s) ==> s.mem.orders[oid].status == Applied)
    ensures Closed(s) && s.inflight != {} ==>
      s.ledger != [] && AtTarget(s, Last(s.ledger)) && Carried(s, Last(s.ledger))
    ensures s.ledger == [] ==> Closed(s)
  {
  }

  lemma CommitRefines(start: Admin, s: State)
    requires OrderlyInv(start, s) && Can(s, Commit) && OrderlyInv(start, Step(s, Commit))
    ensures AccountStep(Abstract(s), Abstract(Step(s, Commit)))
  {
    hide OrderlyInv, Credits;
    ClosedByLast(start, s);
    ClosedByLast(start, Step(s, Commit));
    if s.ledger != [] && !Closed(s) {
      LastIsCredited(start, s);
    }
  }

  // The state after a plan was committed stands for the account the plan was computed from.
  lemma PersistIsOpen(s: State)
    requires Can(s, Persist)
    ensures var g, s' := s.worker.grant, Step(s, Persist);
      Abstract(s') == Account(Held(g.live), NormalizeStatus(s.panel.status), s.ledger)
  {
    var g, s' := s.worker.grant, Step(s, Persist);
    assert s'.ledger[|s.ledger|] == g && s'.ledger[..|s.ledger|] == s.ledger;
    assert s'.db.orders[g.oid].status != Applied;
    hide Held, NormalizeStatus;
  }

  lemma PersistRefines(start: Admin, s: State)
    requires OrderlyInv(start, s) && Can(s, Persist)
    ensures AccountStep(Abstract(s), Abstract(Step(s, Persist)))
  {
    var g := s.worker.grant;
    assert SameNow(s, g.live) && AllDone(s.mem.orders, s.ledger);
    ClosedByLast(start, s);
    PersistIsOpen(s);
    if s.ledger != [] && !Closed(s) {
      assert s.mem.orders[s.ledger[|s.ledger| - 1].oid].status == Applied;
      LastIsCredited(start, s);
    }
    hide OrderlyInv, Credits, Step, AtTarget, Carried, PlanOf, Done;
  }

  lemma DoneIgnoresOthers(orders: seq<Order>, ledger: seq<Grant>, oid: nat, order: Order)
    requires oid < |orders| && forall i :: 0 <= i < |ledger| ==> ledger[i].oid != oid
    ensures AllDone(orders[oid := order], ledger) <==> AllDone(orders, ledger)
  {
  }

  lemma PayRefines(start: Admin, s: State, oid: nat)
    requires OrderlyInv(start, s) && Can(s, Pay(oid))
    ensures Abstract(Step(s, Pay(oid))) == Abstract(s)
  {
    PaidOrderIsNew(s, oid);
    hide OrderlyInv, AllDone, Done;
    DoneIgnoresOthers(s.db.orders, s.ledger, oid, s.db.orders[oid].(status := Paid));
  }

  // What Abstract looks at, status apart: the account counts only while everything is applied.
  lemma SameAbstract(s: State, s': State)
    requires s'.ledger == s.ledger && s'.db.orders == s.db.orders
    requires Closed(s) ==> Held(s'.panel) == Held(s.panel)
    requires s.ledger == [] ==> Closed(s)
    ensures Switches(Abstract(s), Abstract(s'))
  {
    hide Held;
  }

  lemma QuietKeeps(s: State, e: Event)
    requires Can(s, e) && !e.Persist? && !e.Commit? && !e.Pay? && !e.Deliver?
    ensures var s' := Step(s, e);
      && s'.ledger == s.ledger && s'.db.orders == s.db.orders
      && Held(s'.panel) == Held(s.panel)
  {
    hide Matches;
  }

  lemma DeliveryKeeps(start: Admin, s: State, r: Request, fields: set<Field>)
    requires OrderlyInv(start, s) && Can(s, Deliver(r, fields))
    ensures var s' := Step(s, Deliver(r, fields));
      && s'.ledger == s.ledger && s'.db.orders == s.db.orders
      && (Closed(s) ==> Held(s'.panel) == Held(s.panel))
  {
    ClosedByLast(start, s);
    if Closed(s) {
      TargetAbsorbs(s, r, fields, Last(s.ledger));
    }
    hide OrderlyInv, Carried, Write, AtTarget;
  }

  lemma QuietRefines(start: Admin, s: State, e: Event)
    requires OrderlyInv(start, s) && Can(s, e)
    requires !e.Persist? && !e.Commit? && !e.Pay?
    ensures Switches(Abstract(s), Abstract(Step(s, e)))
  {
    ClosedByLast(start, s);
    if e.Deliver? {
      DeliveryKeeps(start, s, e.request, e.fields);
    } else {
      QuietKeeps(s, e);
    }
    hide OrderlyInv, Can, Step, Closed, Abstract, Held, AtTarget, Carried, Switches;
    SameAbstract(s, Step(s, e));
  }

  lemma {:induction false} RunRefinesFrom(start: Admin, s: State, es: seq<Event>)
    requires OrderlyInv(start, s) && OrderlyRun(s, es)
    ensures Valid(s, es)
    ensures AccountRun(Abstract(s), Abstract(Final(s, es)), |es|)
    decreases |es|
  {
    hide OrderlyInv, Orderly, Can, Step, Abstract, AccountStep, AccountRun;
    if es == [] {
      AccountRests(Abstract(s));
    } else {
      var s' := Step(s, es[0]);
      StepIsOrderly(start, s, es[0]);
      StepRefines(start, s, es[0]);
      RunRefinesFrom(start, s', es[1..]);
      AccountRunFrom(Abstract(s), Abstract(s'), Abstract(Final(s', es[1..])), |es| - 1);
    }
  }

  lemma AccountRests(a: Account)
    ensures AccountRun(a, a, 0)
  {
  }

  lemma AccountRunFrom(a: Account, mid: Account, a': Account, n: nat)
    requires AccountStep(a, mid) && AccountRun(mid, a', n)
    ensures AccountRun(a, a', n + 1)
  {
    hide AccountStep;
  }

  lemma SwitchesAreSteps(a: Account, a': Account)
    requires Switches(a, a')
    ensures AccountStep(a, a')
  {
  }

  lemma StuttersAreSteps(a: Account)
    ensures AccountStep(a, a)
  {
  }

  lemma StepRefines(start: Admin, s: State, e: Event)
    requires OrderlyInv(start, s) && Can(s, e) && Orderly(s, e)
    ensures AccountStep(Abstract(s), Abstract(Step(s, e)))
  {
    hide OrderlyInv, Orderly, Can, Step, Abstract, AccountStep;
    StepIsOrderly(start, s, e);
    match e
    case Persist => PersistRefines(start, s);
    case Commit => CommitRefines(start, s);
    case Pay(oid) =>
      PayRefines(start, s, oid);
      StuttersAreSteps(Abstract(s));
    case _ =>
      QuietRefines(start, s, e);
      SwitchesAreSteps(Abstract(s), Abstract(Step(s, e)));
  }

  /** Refinement: under every schedule of crashes and faults, an orderly run of the protocol is a run of the
      abstract account, whose only moves are crediting one new order atomically, at the terms its plan
      recorded, and switching the account on or off, which may happen at any moment and leaves the
      entitlement alone. */
  lemma RunRefines(s: State, es: seq<Event>)
    requires Init(s) && OrderlyRun(s, es)
    ensures Valid(s, es)
    ensures AccountRun(Account(Held(s.panel), NormalizeStatus(s.panel.status), []), Abstract(Final(s, es)), |es|)
  {
    InitIsOrderly(s);
    RunRefinesFrom(s.panel, s, es);
  }

  lemma {:induction false} ChainFolds(start: Admin, ledger: seq<Grant>)
    requires Chain(start, ledger) && ledger != []
    ensures Target(Last(ledger)).dataLimit == LimitAfter(start.dataLimit, Renewals(ledger))
    ensures Target(Last(ledger)).expire == ExpiryAfter(start.expire, Renewals(ledger))
  {
    var front := ledger[..|ledger| - 1];
    var rs := Renewals(ledger);
    assert rs[..|rs| - 1] == Renewals(front);
    assert Held(Last(ledger).live).dataLimit == Last(ledger).live.dataLimit;
    if front != [] {
      ChainFolds(start, front);
    } else {
      assert Renewals(front) == [];
    }
  }

  /** Exactly once: whenever no order is open, the account holds precisely what renewing with every
      applied order, once each and in ledger order, gives; and its expiry is a whole second. */
  lemma EveryAppliedOrderCountsOnce(s: State, es: seq<Event>)
    requires Init(s) && OrderlyRun(s, es)
    ensures Valid(s, es)
    ensures var f := Final(s, es);
      && Distinct(f.ledger)
      && (forall k: nat :: k < |f.db.orders| && f.db.orders[k].status == Applied ==> InLedger(f.ledger, k))
      && (AllDone(f.db.orders, f.ledger) ==>
            && f.panel.dataLimit == LimitAfter(s.panel.dataLimit, Renewals(f.ledger))
            && f.panel.expire == ExpiryAfter(s.panel.expire, Renewals(f.ledger))
            && (f.ledger != [] ==>
                  && f.panel.services == Last(f.ledger).product.services
                  && f.panel.usersLimit == Last(f.ledger).product.usersLimit
                  && f.panel.role == "reseller" && WholeSecond(f.panel.expire.value)))
  {
    InitIsOrderly(s);
    RunIsOrderly(s.panel, s, es);
    var f := Final(s, es);
    forall k: nat | k < |f.db.orders| && f.db.orders[k].status == Applied ensures InLedger(f.ledger, k) {
      assert Agree(f.db.orders[k], f.mem.orders[k]);
    }
    if AllDone(f.db.orders, f.ledger) && f.ledger != [] {
      var g := f.ledger[|f.ledger| - 1];
      assert f.db.orders[g.oid].status == Applied;
      ChainFolds(s.panel, f.ledger);
      assert Held(f.panel) == Target(g);
      RoundTrip(Target(g).expire.value);
    }
  }
}
