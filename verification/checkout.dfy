/** The status of one order over every handler that may write it: the customer's and the owner's
    (app/bot/handlers/common.py, app/bot/handlers/owner/console.py), the payment callback
    (app/payments/webhook.py) and the scheduler (app/scheduler/jobs.py). */
module Checkout {
  import opened Prelude
  import opened Entitlement
  import opened RebeccaPanel
  import OrderMachine
  import Payments
  import Provisioning
  import FirstPurchase

  // What was fixed when the order was created; the transaction id only for crypto payments.
  datatype Invoice = Invoice(number: string, amount: real, currency: string, txn: Option<string>)

  /** A statement by the payment provider: a callback, or a transaction looked up. The amount is None
      when it is no decimal number. */
  datatype Statement = Statement(number: string, txn: string, currency: string, amount: Option<real>, status: string)

  // after_snapshot["target"], by the branch that computed it.
  datatype Target = Renewal(plan: OrderMachine.Plan) | Reservation(target: Entitled)

  /** Why the order moved. */
  datatype Deed = Receipted | Approved | Declined | Retried | Confirmed(statement: Statement, currency: string)

  datatype Ticket = Ticket(status: OrderStatus, paidAt: Option<int>, target: Option<Target>, log: seq<Deed>)

  function UpperChar(c: char): char {
    if 'a' <= c <= 'z' then c - 'a' + 'A' else c
  }

  function Upper(s: string): string {
    seq(|s|, i requires 0 <= i < |s| => UpperChar(s[i]))
  }

  /** A completed payment of exactly this order, in the given currency. */
  predicate Pays(s: Statement, inv: Invoice, currency: string) {
    && s.number == inv.number
    && inv.txn == Some(s.txn) && s.txn != ""
    && Upper(s.currency) == Upper(currency)
    && s.amount == Some(inv.amount)
    && s.status == "completed"
  }

  // ----- The handlers, as functions of the order -----

  function Moved(t: Ticket, status: OrderStatus, deed: Deed): Ticket {
    t.(status := status, log := t.log + [deed])
  }

  function Received(t: Ticket): Ticket {
    if t.status == Pending then Moved(t, WaitingReceipt, Receipted) else t
  }

  function ApprovedBy(t: Ticket, now: int): Ticket {
    if t.status == WaitingReceipt then Moved(t, Paid, Approved).(paidAt := Some(now)) else t
  }

  function RejectedBy(t: Ticket): Ticket {
    if t.status == WaitingReceipt then Moved(t, Rejected, Declined) else t
  }

  function RetriedBy(t: Ticket): Ticket {
    if t.status == Failed && t.paidAt.Some? then Moved(t, Paid, Retried) else t
  }

  datatype Verdict = Accepted | Idempotent | NotCompleted | Refused(code: int)

  // The callback's checks, in its order.
  function Judged(inv: Invoice, status: OrderStatus, s: Statement, authentic: bool, configured: string): Verdict {
    if !authentic then Refused(400)
    else if s.number != inv.number then Refused(404)
    else if inv.txn in {None, Some("")} then Refused(400)
    else if inv.txn.value != s.txn then Refused(400)
    else if s.txn == "" then Refused(400)
    else if Upper(s.currency) != Upper(configured) then Refused(400)
    else if s.amount.None? then Refused(500)
    else if s.amount.value != inv.amount then Refused(400)
    else if s.status != "completed" then NotCompleted
    else if status in {Paid, Applying, Applied} then Idempotent
    else if status != WaitingPayment then Refused(409)
    else Accepted
  }

  function CalledBack(inv: Invoice, t: Ticket, s: Statement, authentic: bool, configured: string, now: int): Ticket {
    if Judged(inv, t.status, s, authentic, configured) == Accepted then
      Moved(t, Paid, Confirmed(s, configured)).(paidAt := Some(now))
    else t
  }

  // _reconcile_plisio; None is a lookup that failed. The looked-up currency is already upper case.
  function LookedUp(inv: Invoice, t: Ticket, s: Option<Statement>, now: int): Ticket {
    if t.status == WaitingPayment && inv.txn !in {None, Some("")} && s.Some?
       && s.value.number == inv.number && s.value.txn == inv.txn.value
       && Upper(s.value.currency) == Upper(inv.currency)
       && s.value.amount == Some(inv.amount) && s.value.status == "completed"
    then Moved(t, Paid, Confirmed(s.value, inv.currency)).(paidAt := Some(now))
    else t
  }

  // card_order, crypto_order: an invoice that cannot be created leaves a failed order behind.
  function ByCard(): Ticket { Ticket(Pending, None, None, []) }
  function ByCrypto(invoiced: bool): Ticket { Ticket(if invoiced then WaitingPayment else Failed, None, None, []) }

  // ----- What the handlers do -----

  /** Case is folded letter by letter, and nothing else is. */
  lemma UpperFoldsAscii(s: string, i: nat)
    requires i < |s|
    ensures |Upper(s)| == |s|
    ensures 'a' <= s[i] <= 'z' ==> Upper(s)[i] as int == s[i] as int - 32
    ensures !('a' <= s[i] <= 'z') ==> Upper(s)[i] == s[i]
  {
  }

  /** The receipt, the owner's decision and the retry: each moves exactly the orders in its own status,
      an approval dates the payment, and everything else stays. */
  lemma HandlersMove(t: Ticket, now: int)
    ensures Received(t)
         == if t.status == Pending then Ticket(WaitingReceipt, t.paidAt, t.target, t.log + [Receipted]) else t
    ensures ApprovedBy(t, now)
         == if t.status == WaitingReceipt then Ticket(Paid, Some(now), t.target, t.log + [Approved]) else t
    ensures RejectedBy(t)
         == if t.status == WaitingReceipt then Ticket(Rejected, t.paidAt, t.target, t.log + [Declined]) else t
    ensures RetriedBy(t)
         == if t.status == Failed && t.paidAt.Some? then Ticket(Paid, t.paidAt, t.target, t.log + [Retried]) else t
  {
  }

  /** An accepted callback pays the order now; any other verdict leaves it as it is. */
  lemma AcceptedMeansPaid(inv: Invoice, t: Ticket, s: Statement, authentic: bool, configured: string, now: int)
    ensures var t' := CalledBack(inv, t, s, authentic, configured, now);
      if Judged(inv, t.status, s, authentic, configured) == Accepted
      then t' == Ticket(Paid, Some(now), t.target, t.log + [Confirmed(s, configured)])
      else t' == t
  {
  }

  /** A look-up that finds a completed payment of the order, in its own currency, pays it now; any other
      leaves it as it is. */
  lemma FoundMeansPaid(inv: Invoice, t: Ticket, s: Option<Statement>, now: int)
    ensures LookedUp(inv, t, s, now)
         == if t.status == WaitingPayment && s.Some? && s.value.number == inv.number
               && inv.txn == Some(s.value.txn) && s.value.txn != "" && Upper(s.value.currency) == Upper(inv.currency)
               && s.value.amount == Some(inv.amount) && s.value.status == "completed"
            then Ticket(Paid, Some(now), t.target, t.log + [Confirmed(s.value, inv.currency)])
            else t
  {
  }

  /** What each order starts as. */
  lemma OrdersStart(invoiced: bool)
    ensures ByCard().status == Pending && ByCrypto(true).status == WaitingPayment && ByCrypto(false).status == Failed
    ensures ByCard().paidAt == ByCrypto(invoiced).paidAt == None && ByCard().log == ByCrypto(invoiced).log == []
  {
  }

  // ----- The callback's promises -----

  /** What counts as a payment, check by check. */
  lemma PaysIff(s: Statement, inv: Invoice, currency: string)
    ensures Pays(s, inv, currency)
       <==> s.number == inv.number && inv.txn == Some(s.txn) && s.txn != "" && Upper(s.currency) == Upper(currency)
            && s.amount == Some(inv.amount) && s.status == "completed"
  {
  }

  /** The callback accepts exactly an authentic, completed payment of this order in the configured
      currency while the order waits for it; repeated, it is recognised and changes nothing. */
  lemma CallbackAcceptsExactlyPayments(inv: Invoice, t: Ticket, s: Statement, authentic: bool, configured: string,
                                       now: int)
    ensures Judged(inv, t.status, s, authentic, configured) == Accepted
       <==> authentic && Pays(s, inv, configured) && t.status == WaitingPayment
    ensures Judged(inv, t.status, s, authentic, configured) == Idempotent
       <==> authentic && Pays(s, inv, configured) && t.status in {Paid, Applying, Applied}
    ensures var t' := CalledBack(inv, t, s, authentic, configured, now);
      t' != t ==> forall later :: Judged(inv, t'.status, s, authentic, configured) == Idempotent
                                  && CalledBack(inv, t', s, authentic, configured, later) == t'
  {
    hide Upper;
    if Judged(inv, t.status, s, authentic, configured) == Accepted {
      var t' := CalledBack(inv, t, s, authentic, configured, now);
      assert t'.status == Paid;
      assert Judged(inv, Paid, s, authentic, configured) == Idempotent;
    }
  }

  /** The callback compares with the configured currency, the scheduler with the order's own. An
      accepted callback is in the order's currency if and only if the two still agree. */
  lemma CallbackCurrencyIsTheOrdersIff(inv: Invoice, t: Ticket, s: Statement, configured: string)
    requires Judged(inv, t.status, s, true, configured) == Accepted
    ensures Pays(s, inv, inv.currency) <==> Upper(configured) == Upper(inv.currency)
  {
  }

  // ----- The order over whole runs -----

  /** `mem` is the scheduler's session while a pass runs. */
  datatype State = State(inv: Invoice, db: Ticket, mem: Option<Ticket>)

  datatype Event =
    | SendReceipt
    | Approve(now: int)
    | Reject
    | Retry
    | Callback(statement: Statement, authentic: bool, configured: string, at: int)
    | BeginPass
    | Attempt(rows: Payments.Rows, product: Product, when: int, net: Payments.Net)
    | Visit(purchase: FirstPurchase.State, visit: FirstPurchase.Visit)
    | Inquire(answer: Option<Statement>, asked: int)
    | EndPass
    | Crash

  // The order row apply_order finds; a reservation has a target but no "before".
  function RowFor(t: Ticket): OrderMachine.Order {
    OrderMachine.Order(t.status,
      match t.target
      case None => None
      case Some(Renewal(plan)) => Some(plan)
      case Some(Reservation(e)) => Some(Payments.ReservedPlan(e)))
  }

  function Reserved(e: Option<Entitled>, was: Option<Target>): Option<Target> {
    if e.Some? then Some(Reservation(e.value))
    else if was.Some? && was.value.Reservation? then None
    else was
  }

  // The rows of a first purchase show this order.
  predicate Shows(r: FirstPurchase.Rows, t: Ticket) {
    && r.order == t.status
    && (r.target == match t.target case Some(Reservation(e)) => Some(e) case _ => None)
    && (r.username.None? ==> t.target.None?)
    && !(t.target.Some? && t.target.value.Renewal? && r.reseller == Provisioning)
  }

  predicate Can(s: State, e: Event) {
    match e
    // The owner's and the customer's handlers, and the callback, do not interleave with a pass.
    case SendReceipt => s.mem.None? && s.inv.txn.None?
    case Approve(_) => s.mem.None?
    case Reject => s.mem.None?
    case Retry => s.mem.None?
    case Callback(_, _, _, _) => s.mem.None?
    case BeginPass => s.mem.None?
    // A pass asks the payment provider last.
    case Attempt(_, _, _, _) =>
      && s.mem.Some? && s.mem.value.status in {Paid, Applying}
      && s.mem.value.log == s.db.log && s.mem.value.paidAt == s.db.paidAt
    case Visit(f, _) =>
      && s.mem.Some? && s.mem.value.status in {Paid, Applying}
      && s.mem.value.log == s.db.log && s.mem.value.paidAt == s.db.paidAt
      && Shows(f.mem, s.mem.value) && Shows(f.db, s.db)
    case Inquire(_, _) => s.mem.Some?
    case EndPass => s.mem.Some?
    case Crash => true
  }

  function AttemptOf(s: State, e: Event): Payments.Attempt
    requires e.Attempt? && s.mem.Some?
  {
    var rows := e.rows.(order := RowFor(s.mem.value), savedOrder := e.rows.savedOrder.(order := RowFor(s.db)));
    Payments.Attempted(rows, "", e.product, e.when, e.net)
  }

  // apply_order: a plan computed here is durable once its commit succeeds; a failed one loses the session.
  function Attempted(s: State, e: Event): State
    requires e.Attempt? && s.mem.Some?
  {
    var m := s.mem.value;
    var a := AttemptOf(s, e);
    if a.outcome == Payments.Raised(Payments.NotCommitted) then s.(mem := Some(s.db))
    else if m.target.None? && a.rows.order.plan.Some? then
      var target := Some(Renewal(a.rows.order.plan.value));
      s.(mem := Some(m.(status := a.rows.order.status, target := target)),
         db := m.(status := Applying, target := target))
    else s.(mem := Some(m.(status := a.rows.order.status)))
  }

  function Visited(s: State, e: Event): State
    requires e.Visit? && s.mem.Some?
  {
    var f := FirstPurchase.Visited(e.purchase, e.visit);
    s.(mem := Some(s.mem.value.(status := f.mem.order, target := Reserved(f.mem.target, s.mem.value.target))),
       db := s.db.(status := f.db.order, target := Reserved(f.db.target, s.db.target)))
  }

  function Step(s: State, e: Event): State
    requires Can(s, e)
  {
    match e
    case SendReceipt => s.(db := Received(s.db))
    case Approve(now) => s.(db := ApprovedBy(s.db, now))
    case Reject => s.(db := RejectedBy(s.db))
    case Retry => s.(db := RetriedBy(s.db))
    case Callback(r, authentic, configured, now) => s.(db := CalledBack(s.inv, s.db, r, authentic, configured, now))
    case BeginPass => s.(mem := Some(s.db))
    case Attempt(_, _, _, _) => Attempted(s, e)
    case Visit(_, _) => Visited(s, e)
    case Inquire(answer, now) => s.(mem := Some(LookedUp(s.inv, s.mem.value, answer, now)))
    case EndPass => s.(db := s.mem.value, mem := None)
    case Crash => s.(mem := None)
  }

  predicate Valid(s: State, es: seq<Event>)
    decreases |es|
  {
    es == [] || (Can(s, es[0]) && Valid(Step(s, es[0]), es[1..]))
  }

  function Final(s: State, es: seq<Event>): State
    requires Valid(s, es)
    decreases |es|
  {
    if es == [] then s else Final(Step(s, es[0]), es[1..])
  }

  predicate Created(s: State) {
    s.mem.None? && if s.inv.txn.None? then s.db in {ByCard(), ByCrypto(false)} else s.db == ByCrypto(true)
  }

  // ----- What every step keeps -----

  // The customer's receipt, then the owner's approval; or a completed payment of this order.
  predicate Evidence(log: seq<Deed>, inv: Invoice) {
    || (exists i, j :: 0 <= i < j < |log| && log[i].Receipted? && log[j].Approved?)
    || (exists j :: 0 <= j < |log| && log[j].Confirmed? && Pays(log[j].statement, inv, log[j].currency))
  }

  predicate TicketOk(t: Ticket, inv: Invoice) {
    && (t.status in {Paid, Applying, Applied} <==> t.paidAt.Some?)
    && (t.status in {Paid, Applying, Applied} ==> Evidence(t.log, inv))
    && (t.status == WaitingReceipt ==> Receipted in t.log)
    && (t.target.Some? <==> t.status in {Applying, Applied})
  }

  // The session may only be ahead of the database.
  predicate Ahead(d: Ticket, m: Ticket) {
    && (d.status == m.status || (d.status == WaitingPayment && m.status == Paid)
        || (d.status in {Paid, Applying} && m.status in {Applying, Applied}))
    && (d.target.Some? ==> m.target == d.target)
    && (d.paidAt.Some? ==> m.paidAt == d.paidAt && m.log == d.log)
  }

  predicate Inv(s: State) {
    TicketOk(s.db, s.inv) && (s.mem.Some? ==> TicketOk(s.mem.value, s.inv) && Ahead(s.db, s.mem.value))
  }

  lemma EvidenceStays(log: seq<Deed>, deed: Deed, inv: Invoice)
    ensures Evidence(log, inv) ==> Evidence(log + [deed], inv)
    ensures Receipted in log && deed == Approved ==> Evidence(log + [deed], inv)
    ensures deed.Confirmed? && Pays(deed.statement, inv, deed.currency) ==> Evidence(log + [deed], inv)
  {
    var log' := log + [deed];
    assert log'[|log|] == deed;
    assert forall i :: 0 <= i < |log| ==> log'[i] == log[i];
    if Receipted in log && deed == Approved {
      var i :| 0 <= i < |log| && log[i] == Receipted;
      assert log'[i].Receipted? && log'[|log|].Approved?;
    }
  }

  lemma HandlersKeepTicket(t: Ticket, inv: Invoice, e: Event)
    requires TicketOk(t, inv)
    ensures TicketOk(Received(t), inv)
    ensures e.Approve? ==> TicketOk(ApprovedBy(t, e.now), inv)
    ensures TicketOk(RejectedBy(t), inv)
    ensures RetriedBy(t) == t
    ensures e.Callback? ==> TicketOk(CalledBack(inv, t, e.statement, e.authentic, e.configured, e.at), inv)
    ensures e.Inquire? ==> TicketOk(LookedUp(inv, t, e.answer, e.asked), inv)
  {
    hide Evidence, Pays;
    EvidenceStays(t.log, Approved, inv);
    assert Received(t).status == WaitingReceipt && Received(t) != t ==> Received(t).log[|t.log|] == Receipted;
    if e.Callback? {
      CallbackAcceptsExactlyPayments(inv, t, e.statement, e.authentic, e.configured, e.at);
      EvidenceStays(t.log, Confirmed(e.statement, e.configured), inv);
    }
    if e.Inquire? && e.answer.Some? {
      EvidenceStays(t.log, Confirmed(e.answer.value, inv.currency), inv);
      InquiryFindsPayments(inv, t, e.answer, e.asked);
    }
  }

  /** The scheduler's own look-up marks the order paid exactly for a completed payment in the order's
      currency. */
  lemma InquiryFindsPayments(inv: Invoice, t: Ticket, s: Option<Statement>, now: int)
    ensures LookedUp(inv, t, s, now) != t <==> t.status == WaitingPayment && s.Some? && Pays(s.value, inv, inv.currency)
  {
  }

  // An attempt keeps a plan that is there; a new plan goes with APPLYING; APPLIED needs a plan; a failed
  // commit brings the committed row back.
  lemma AttemptMoves(r: Payments.Rows, name: string, product: Product, now: int, net: Payments.Net)
    requires r.order.status in {Paid, Applying}
    ensures var a := Payments.Attempted(r, name, product, now, net); var o := a.rows.order;
      if a.outcome == Payments.Raised(Payments.NotCommitted) then r.order.plan.None? && o == r.savedOrder.order
      else
        && (o.status == r.order.status || o.status in {Applying, Applied})
        && (r.order.plan.Some? ==> o.plan == r.order.plan && o.status in {r.order.status, Applied})
        && (r.order.plan.None? && o.plan.Some? ==>
              o.status in {Applying, Applied} && a.rows.savedOrder.order == OrderMachine.Order(Applying, o.plan))
        && (o.plan.None? ==> o.status == r.order.status)
  {
  }

  // The same of a visit to a first purchase.
  lemma VisitMoves(f: FirstPurchase.State, v: FirstPurchase.Visit)
    requires f.mem.username.None? ==> f.mem.target.None? && f.db.target.None?
    requires f.mem.order in {Paid, Applying}
    ensures var f' := FirstPurchase.Visited(f, v);
      && (f'.db == f.db || f'.db == f.mem
          || (f.mem.username.None? && f'.db.order == Applying && f'.db.target == Some(v.target)))
      && (f'.mem == f.mem
          || f'.mem == f'.db
          || (f'.mem.order == Applied && f'.mem.target == f'.db.target && f'.mem.target.Some?))
  {
    hide Provisioning.Provisioned;
  }

  lemma StepKeepsInv(s: State, e: Event)
    requires Inv(s) && Can(s, e)
    ensures Inv(Step(s, e))
  {
    hide Evidence;
    if e.Attempt? {
      AttemptMoves(e.rows.(order := RowFor(s.mem.value), savedOrder := e.rows.savedOrder.(order := RowFor(s.db))), "",
                   e.product, e.when, e.net);
      hide Payments.Attempted;
    } else if e.Visit? {
      var f, m, s' := e.purchase, s.mem.value, Step(s, e);
      VisitMoves(f, e.visit);
      var f' := FirstPurchase.Visited(f, e.visit);
      assert s'.db.log == s.db.log == s'.mem.value.log && s'.db.paidAt == s'.mem.value.paidAt == s.db.paidAt;
      hide FirstPurchase.Visited;
      assert f'.db == f.db ==> s'.db == s.db;
      assert f'.db == f.mem ==> s'.db == m;
      assert f'.mem == f.mem ==> s'.mem == s.mem;
      assert f'.mem == f'.db ==> s'.mem.value == s'.db;
      assert TicketOk(s'.db, s.inv);
      assert TicketOk(s'.mem.value, s.inv);
      assert Ahead(s'.db, s'.mem.value);
    } else {
      HandlersKeepTicket(if e.Inquire? then s.mem.value else s.db, s.inv, e);
      hide TicketOk;
    }
  }

  /** Nothing an order has reached in the database is undone: a settled, rejected or failed order stays
      so, a payment is recorded once, and a target is never computed again. */
  predicate Onward(d: Ticket, d': Ticket) {
    && (d.status in {Applied, Rejected, Failed} ==> d'.status == d.status)
    && (d.paidAt.Some? ==> d'.paidAt == d.paidAt && d'.status in {Paid, Applying, Applied})
    && (d.target.Some? ==> d'.target == d.target && d'.status in {Applying, Applied})
  }

  lemma AttemptIsOnward(s: State, e: Event)
    requires Inv(s) && Can(s, e) && e.Attempt?
    ensures Onward(s.db, Step(s, e).db)
  {
    hide Evidence, Pays, Payments.Attempted;
  }

  lemma VisitIsOnward(s: State, e: Event)
    requires Inv(s) && Can(s, e) && e.Visit?
    ensures Onward(s.db, Step(s, e).db)
  {
    VisitMoves(e.purchase, e.visit);
    hide Evidence, Pays, FirstPurchase.Visited;
  }

  lemma StepIsOnward(s: State, e: Event)
    requires Inv(s) && Can(s, e)
    ensures Onward(s.db, Step(s, e).db)
  {
    hide Evidence, Pays, Attempted, Visited;
    if e.Attempt? {
      AttemptIsOnward(s, e);
    } else if e.Visit? {
      VisitIsOnward(s, e);
    }
  }

  lemma {:induction false} RunKeepsInv(s: State, es: seq<Event>)
    requires Inv(s) && Valid(s, es)
    ensures Inv(Final(s, es)) && Onward(s.db, Final(s, es).db) && Final(s, es).inv == s.inv
    decreases |es|
  {
    if es != [] {
      hide Inv, Can, Step, Onward;
      StepKeepsInv(s, es[0]);
      StepIsOnward(s, es[0]);
      StepKeepsInvoice(s, es[0]);
      RunKeepsInv(Step(s, es[0]), es[1..]);
      OnwardTwice(s.db, Step(s, es[0]).db, Final(s, es).db);
    } else {
      assert Onward(s.db, s.db) by { OnwardFromItself(s); }
    }
  }

  lemma StepKeepsInvoice(s: State, e: Event)
    requires Can(s, e)
    ensures Step(s, e).inv == s.inv
  {
    hide Payments.Attempted, FirstPurchase.Visited;
  }

  lemma OnwardFromItself(s: State)
    requires Inv(s)
    ensures Onward(s.db, s.db)
  {
    hide Evidence;
  }

  lemma OnwardTwice(a: Ticket, b: Ticket, c: Ticket)
    requires Onward(a, b) && Onward(b, c)
    ensures Onward(a, c)
  {
  }

  /** Paid before applied: in every run of all handlers an order that is PAID, APPLYING or APPLIED has a
      payment date, and either the customer's receipt and then the owner's approval, or a completed
      payment of exactly this order; APPLYING and APPLIED orders have a durable target. */
  lemma PaidBeforeApplied(s: State, es: seq<Event>)
    requires Created(s) && Valid(s, es)
    ensures var d := Final(s, es).db;
      && (d.status in {Paid, Applying, Applied} ==> d.paidAt.Some? && Evidence(d.log, s.inv))
      && (d.status in {Applying, Applied} ==> d.target.Some?)
      && (d.status == Failed ==> d.paidAt.None?)
  {
    CreatedIsInv(s);
    RunKeepsInv(s, es);
    hide Evidence, Valid, Final;
  }

  lemma CreatedIsInv(s: State)
    requires Created(s)
    ensures Inv(s)
  {
  }

  lemma {:induction false} Split(s: State, es: seq<Event>, more: seq<Event>)
    requires Valid(s, es + more)
    ensures Valid(s, es) && Valid(Final(s, es), more) && Final(s, es + more) == Final(Final(s, es), more)
    decreases |es|
  {
    if es == [] {
      assert es + more == more;
    } else {
      assert (es + more)[0] == es[0] && (es + more)[1..] == es[1..] + more;
      hide Can, Step;
      Split(Step(s, es[0]), es[1..], more);
    }
  }

  /** From any moment of a run on, whatever happens next, what the order has reached stays. */
  lemma NothingIsUndone(s: State, es: seq<Event>, more: seq<Event>)
    requires Created(s) && Valid(s, es + more)
    ensures Valid(s, es) && Onward(Final(s, es).db, Final(s, es + more).db)
  {
    CreatedIsInv(s);
    Split(s, es, more);
    RunKeepsInv(s, es);
    RunKeepsInv(Final(s, es), more);
  }

  // ----- The handlers on the row -----

  class OrderRecord {
    const inv: Invoice
    var status: OrderStatus
    var paidAt: Option<int>
    var target: Option<Target>
    ghost var log: seq<Deed>

    constructor (inv: Invoice, status: OrderStatus)
      ensures this.inv == inv && Image() == Ticket(status, None, None, [])
    {
      this.inv, this.status, paidAt, target, log := inv, status, None, None, [];
    }

    ghost function Image(): Ticket
      reads this
    {
      Ticket(status, paidAt, target, log)
    }

    method Receive() returns (changed: bool)
      modifies this
      ensures Image() == Received(old(Image())) && changed == (old(status) == Pending)
      ensures status == if changed then WaitingReceipt else old(status)
    {
      if status != Pending {
        return false;
      }
      status, log := WaitingReceipt, log + [Receipted];
      return true;
    }

    // card_approve and order_approve update only a waiting row; approve_card tests first.
    method ApproveCard(now: int) returns (changed: bool)
      modifies this
      ensures Image() == ApprovedBy(old(Image()), now) && changed == (old(status) == WaitingReceipt)
      ensures changed ==> status == Paid && paidAt == Some(now)
      ensures !changed ==> status == old(status) && paidAt == old(paidAt)
    {
      if status in {Paid, Applying, Applied} {
        return false;
      }
      if status != WaitingReceipt {
        return false;
      }
      status, paidAt, log := Paid, Some(now), log + [Approved];
      return true;
    }

    method RejectCard() returns (changed: bool)
      modifies this
      ensures Image() == RejectedBy(old(Image())) && changed == (old(status) == WaitingReceipt)
      ensures status == (if changed then Rejected else old(status)) && paidAt == old(paidAt)
    {
      if status != WaitingReceipt {
        return false;
      }
      status, log := Rejected, log + [Declined];
      return true;
    }

    method RetryApply() returns (eligible: bool)
      modifies this
      ensures Image() == RetriedBy(old(Image())) && eligible == (status in {Paid, Applying})
    {
      if status == Failed && paidAt.Some? {
        status, log := Paid, log + [Retried];
      }
      return status in {Paid, Applying};
    }

    method Confirm(s: Statement, currency: string, now: int)
      modifies this
      ensures Image() == Moved(old(Image()), Paid, Confirmed(s, currency)).(paidAt := Some(now))
    {
      status, paidAt, log := Paid, Some(now), log + [Confirmed(s, currency)];
    }

    method CheckProvider(answer: Option<Statement>, now: int)
      modifies this
      ensures Image() == LookedUp(inv, old(Image()), answer, now)
    {
      if status != WaitingPayment || inv.txn.None? || inv.txn.value == "" || answer.None? {
        return;
      }
      var s := answer.value;
      var valid := s.number == inv.number && s.txn == inv.txn.value
                   && Upper(s.currency) == Upper(inv.currency) && s.amount == Some(inv.amount);
      if valid && s.status == "completed" {
        Confirm(s, inv.currency, now);
      }
    }
  }

  /** The payment callback over all stored orders; no other order changes. */
  method ReceiveCallback(orders: map<string, OrderRecord>, s: Statement, authentic: bool, configured: string, now: int)
    returns (verdict: Verdict)
    requires forall n :: n in orders ==> orders[n].inv.number == n
    modifies orders.Values
    ensures s.number !in orders ==> verdict == Refused(if authentic then 404 else 400)
    ensures s.number in orders ==>
      var o := orders[s.number];
      && verdict == Judged(o.inv, old(o.status), s, authentic, configured)
      && (verdict == Accepted ==>
            && o.status == Paid && o.paidAt == Some(now) && o.target == old(o.target)
            && o.log == old(o.log) + [Confirmed(s, configured)])
      && (verdict != Accepted ==> o.Image() == old(o.Image()))
      && o.Image() == CalledBack(o.inv, old(o.Image()), s, authentic, configured, now)
    ensures forall n :: n in orders && n != s.number ==> orders[n].Image() == old(orders[n].Image())
  {
    if !authentic {
      return Refused(400);
    }
    if s.number !in orders {
      return Refused(404);
    }
    var o := orders[s.number];
    if o.inv.txn.None? || o.inv.txn.value == "" || o.inv.txn.value != s.txn || s.txn == "" {
      return Refused(400);
    }
    if Upper(s.currency) != Upper(configured) {
      return Refused(400);
    }
    if s.amount.None? {
      return Refused(500);
    }
    if s.amount.value != o.inv.amount {
      return Refused(400);
    }
    if s.status != "completed" {
      return NotCompleted;
    }
    if o.status in {Paid, Applying, Applied} {
      return Idempotent;
    }
    if o.status != WaitingPayment {
      return Refused(409);
    }
    o.Confirm(s, configured, now);
    return Accepted;
  }
}
