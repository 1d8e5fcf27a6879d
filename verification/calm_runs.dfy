/** Calm runs: orderly runs in which, besides, no request of an attempt is still under way when the
    account is next read, and nobody switches the account in the middle of an attempt. Within one open
    order at most one update then ever takes effect. */
module CalmRuns {
  import opened Prelude
  import opened Entitlement
  import opened OrderMachine
  import opened ExactlyOnce

  predicate Calm(s: State, e: Event) {
    Orderly(s, e) && (e.Begin? || e.Verify? ==> s.inflight == {}) && (e.SetPanelStatus? ==> s.worker.Idle?)
  }

  predicate CalmRun(s: State, es: seq<Event>) {
    RunOf(Calm, s, es)
  }

  lemma CalmIsOrderly(s: State, es: seq<Event>)
    requires CalmRun(s, es)
    ensures OrderlyRun(s, es)
  {
    RunOfMore(Calm, Orderly, s, es);
  }

  // ----- The invariant, on top of the orderly one -----

  predicate Fresh(s: State, live: Admin) {
    s.inflight == {} && EntitlementSnapshot(live) == EntitlementSnapshot(s.panel)
  }

  // At most the newest update is under way, and only it can have changed anything.
  predicate OneUpdate(s: State, g: Grant) {
    && (s.effective == {} <==> SameFour(s.panel, EntitlementSnapshot(g.live)))
    && (forall id :: id in s.effective ==> id + 1 == s.sent)
    && (forall r :: r in s.inflight && r.Update? ==> r.id + 1 == s.sent)
  }

  predicate QuietPanel(s: State) {
    s.ledger != [] ==>
      var g := Last(s.ledger);
      && g.oid < |s.db.orders| && g.oid < |s.mem.orders|
      && (s.mem.orders[g.oid].status == Applied ==> s.inflight == {})
      && (s.db.orders[g.oid].status != Applied ==> OneUpdate(s, g))
  }

  predicate QuietWorker(s: State) {
    match s.worker
    case Read(_, live) => Fresh(s, live)
    case Computed(g) => Fresh(s, g.live)
    case Armed(_) => s.ledger != [] && Fresh(s, Last(s.ledger).live)
    case _ => true
  }

  predicate CalmInv(start: Admin, s: State) {
    OrderlyInv(start, s) && QuietPanel(s) && QuietWorker(s)
  }

  lemma DeliveryKeepsOneUpdate(s: State, r: Request, fields: set<Field>, g: Grant)
    requires OneUpdate(s, g) && Carried(s, g) && FieldWise(s.panel, EntitlementSnapshot(g.live), Target(g))
    requires Can(s, Deliver(r, fields))
    ensures OneUpdate(Step(s, Deliver(r, fields)), g)
  {
    WriteStaysFieldWise(s.panel, EntitlementSnapshot(g.live), Target(g), fields);
    hide FieldWise, Write;
  }

  lemma DeliveryIsQuiet(start: Admin, s: State, r: Request, fields: set<Field>)
    requires CalmInv(start, s) && Can(s, Deliver(r, fields))
    ensures QuietPanel(Step(s, Deliver(r, fields))) && QuietWorker(Step(s, Deliver(r, fields)))
  {
    var g := Last(s.ledger);
    assert Agree(s.db.orders[g.oid], s.mem.orders[g.oid]);
    assert s.mem.orders[g.oid].status != Applied && s.db.orders[g.oid].status != Applied;
    assert FieldWise(s.panel, EntitlementSnapshot(g.live), Target(g)) && Carried(s, g) && OneUpdate(s, g);
    hide Inv, OrderlyInv, FieldWise, Carried, OneUpdate;
    DeliveryKeepsOneUpdate(s, r, fields, g);
  }

  lemma WorkerStepKeeps(s: State, e: Event)
    requires QuietPanel(s) && QuietWorker(s) && Can(s, e) && (e.Settle? || e.Resume? || e.SendUpdate? || e.SendEnable?)
    requires s.ledger != [] && Last(s.ledger).oid == s.worker.oid
    requires Planned(s, s.worker.oid) && s.mem.orders[s.worker.oid].plan == Some(PlanOf(Last(s.ledger)))
    requires s.mem.orders[s.worker.oid].status != Applied
    ensures QuietPanel(Step(s, e)) && QuietWorker(Step(s, e))
  {
  }

  lemma WorkerStepIsQuiet(start: Admin, s: State, e: Event)
    requires CalmInv(start, s) && Can(s, e) && (e.Settle? || e.Resume? || e.SendUpdate? || e.SendEnable?)
    ensures QuietPanel(Step(s, e)) && QuietWorker(Step(s, e))
  {
    OpenIsLast(start, s, s.worker.oid);
    assert Planned(s, s.worker.oid) && s.mem.orders[s.worker.oid].status != Applied;
    hide OrderlyInv, QuietPanel, QuietWorker, Step;
    WorkerStepKeeps(s, e);
  }

  // Which copy an order's status is read from matters only to the status.
  lemma SameSide(s: State, s': State)
    requires QuietPanel(s) && QuietWorker(s)
    requires s' == s.(db := s'.db, mem := s'.mem, worker := s'.worker) && s'.worker in {Idle, s.worker}
    requires s.ledger != [] ==>
      var oid := Last(s.ledger).oid;
      && oid < |s.db.orders| && oid < |s.mem.orders| && oid < |s'.db.orders| && oid < |s'.mem.orders|
      && (s'.mem.orders[oid].status == Applied ==> s.mem.orders[oid].status == Applied)
      && (s'.db.orders[oid].status != Applied ==> s.db.orders[oid].status != Applied)
    ensures QuietPanel(s') && QuietWorker(s')
  {
  }

  lemma CommitIsQuiet(start: Admin, s: State, e: Event)
    requires CalmInv(start, s) && Can(s, e) && (e.Commit? || e.Crash? || e.Pay?)
    ensures QuietPanel(Step(s, e)) && QuietWorker(Step(s, e))
  {
    if s.ledger != [] {
      var g := s.ledger[|s.ledger| - 1];
      assert Agree(s.db.orders[g.oid], s.mem.orders[g.oid]);
      assert Recorded(s.db.orders, g);
    }
    hide FieldWise, Chain, QuietPanel, QuietWorker, PlanOf;
    SameSide(s, Step(s, e));
  }

  lemma OtherStepIsQuiet(start: Admin, s: State, e: Event)
    requires CalmInv(start, s) && Can(s, e) && Calm(s, e)
    requires !e.Deliver? && !e.Settle? && !e.Resume? && !e.SendUpdate? && !e.SendEnable? && !e.Commit? && !e.Crash?
    requires !e.Pay?
    ensures QuietPanel(Step(s, e)) && QuietWorker(Step(s, e))
  {
    hide FieldWise, Chain, BooksOk;
  }

  lemma StepIsCalm(start: Admin, s: State, e: Event)
    requires CalmInv(start, s) && Can(s, e) && Calm(s, e)
    ensures CalmInv(start, Step(s, e))
  {
    StepIsOrderly(start, s, e);
    hide OrderlyInv, QuietPanel, QuietWorker, Step, Can;
    match e
    case Deliver(r, fields) => DeliveryIsQuiet(start, s, r, fields);
    case Settle => WorkerStepIsQuiet(start, s, e);
    case Resume => WorkerStepIsQuiet(start, s, e);
    case SendUpdate => WorkerStepIsQuiet(start, s, e);
    case SendEnable => WorkerStepIsQuiet(start, s, e);
    case Commit => CommitIsQuiet(start, s, e);
    case Crash => CommitIsQuiet(start, s, e);
    case Pay(_) => CommitIsQuiet(start, s, e);
    case _ => OtherStepIsQuiet(start, s, e);
  }

  lemma {:induction false} RunIsCalm(start: Admin, s: State, es: seq<Event>)
    requires CalmInv(start, s) && CalmRun(s, es)
    ensures Valid(s, es) && CalmInv(start, Final(s, es))
    decreases |es|
  {
    if es != [] {
      hide CalmInv, Calm, Can, Step;
      StepIsCalm(start, s, es[0]);
      RunIsCalm(start, Step(s, es[0]), es[1..]);
    }
  }

  // ----- Main results -----

  /** While an order is open, at most one of the update requests ever sent for it has changed anything. */
  lemma AtMostOneUpdateTakesEffect(s: State, es: seq<Event>)
    requires Init(s) && CalmRun(s, es)
    ensures Valid(s, es)
    ensures var f := Final(s, es);
      f.ledger != [] ==>
        var oid := Last(f.ledger).oid;
        && oid < |f.db.orders|
        && (f.db.orders[oid].status != Applied ==> forall a, b :: a in f.effective && b in f.effective ==> a == b)
  {
    InitIsOrderly(s);
    RunIsCalm(s.panel, s, es);
  }

  /** An update is sent only while the account equals the durable "before" on all six fields and no
      earlier request for the order had any effect; what it carries is the durable target. */
  lemma UpdatesOnlyFromBefore(s: State, es: seq<Event>)
    requires Init(s) && CalmRun(s, es) && Valid(s, es) && Can(Final(s, es), SendUpdate)
    ensures var f := Final(s, es); var oid := f.worker.oid;
      && oid < |f.db.orders| && f.db.orders[oid].plan.Some?
      && var plan := f.db.orders[oid].plan.value;
      && plan.before == Some(EntitlementSnapshot(f.panel))
      && f.effective == {}
      && Step(f, SendUpdate).inflight == {Update(f.sent, oid, plan.target)}
  {
    InitIsOrderly(s);
    RunIsCalm(s.panel, s, es);
    var f := Final(s, es);
    OpenIsLast(s.panel, f, f.worker.oid);
    assert Agree(f.db.orders[f.worker.oid], f.mem.orders[f.worker.oid]);
  }
}
