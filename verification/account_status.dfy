/** The account's status, the one field of an entitlement that orders share with the scheduler's and the
    owner's switches. */
module AccountStatus {
  import opened Prelude
  import opened Wire
  import opened Entitlement
  import opened OrderMachine

  // The state after the first n events.
  function At(s: State, es: seq<Event>, n: nat): State
    requires Valid(s, es) && n <= |es|
    decreases n
  {
    if n == 0 then s else At(Step(s, es[0]), es[1..], n - 1)
  }

  lemma {:induction false} AtNext(s: State, es: seq<Event>, n: nat)
    requires Valid(s, es) && n < |es|
    ensures Can(At(s, es, n), es[n]) && At(s, es, n + 1) == Step(At(s, es, n), es[n])
    decreases n
  {
    if n > 0 {
      hide Can, Step;
      AtNext(Step(s, es[0]), es[1..], n - 1);
    }
  }

  lemma {:induction false} AtTheEnd(s: State, es: seq<Event>)
    requires Valid(s, es)
    ensures At(s, es, |es|) == Final(s, es)
    decreases |es|
  {
    if es != [] {
      AtTheEnd(Step(s, es[0]), es[1..]);
    }
  }

  /** The status the last switch, or the last executed enable, among the events from j to n set. */
  function LastSwitch(es: seq<Event>, j: nat, n: nat): Option<Status>
    requires n <= |es|
  {
    if n <= j then None
    else
      match es[n - 1]
      case SetPanelStatus(status) => Some(status)
      case Deliver(Enable, _) => Some(Active)
      case _ => LastSwitch(es, j, n - 1)
  }

  lemma {:induction false} StatusFollows(s: State, es: seq<Event>, j: nat, n: nat)
    requires Valid(s, es) && j <= n <= |es|
    ensures At(s, es, n).panel.status == LastSwitch(es, j, n).GetOr(At(s, es, j).panel.status)
  {
    if j < n {
      StatusFollows(s, es, j, n - 1);
      AtNext(s, es, n - 1);
      hide At, Can;
    }
  }

  // The account was read off the panel at some earlier moment.
  predicate WasThere(s: State, es: seq<Event>, n: nat, live: Admin)
    requires Valid(s, es) && n <= |es|
  {
    exists j: nat :: j <= n && At(s, es, j).panel == live
  }

  lemma ReadsComeFromThePanel(t: State, e: Event)
    requires Can(t, e)
    ensures var u := Step(t, e);
      && (u.worker.Read? ==> u.worker.live == t.panel || (t.worker.Read? && u.worker.live == t.worker.live))
      && (u.worker.Computed? ==>
            || (t.worker.Read? && u.worker.grant.live == t.worker.live)
            || (t.worker.Computed? && u.worker == t.worker))
      && (u.ledger == t.ledger || (t.worker.Computed? && u.ledger == t.ledger + [t.worker.grant]))
  {
    hide Matches;
  }

  lemma {:induction false} ReadsWereThere(s: State, es: seq<Event>, n: nat)
    requires Init(s) && Valid(s, es) && n <= |es|
    ensures var t := At(s, es, n);
      && (t.worker.Read? ==> WasThere(s, es, n, t.worker.live))
      && (t.worker.Computed? ==> WasThere(s, es, n, t.worker.grant.live))
      && forall i :: 0 <= i < |t.ledger| ==> WasThere(s, es, n, t.ledger[i].live)
  {
    if n > 0 {
      ReadsWereThere(s, es, n - 1);
      AtNext(s, es, n - 1);
      assert forall live :: WasThere(s, es, n - 1, live) ==> WasThere(s, es, n, live);
      assert WasThere(s, es, n, At(s, es, n - 1).panel);
      ReadsComeFromThePanel(At(s, es, n - 1), es[n - 1]);
      hide WasThere, At, Step, Can;
    }
  }

  /** In every run, the status an order finds is the one it was planned from, or what the last switch or
      enable since then left. */
  lemma StatusIsBeforeOrSwitched(s: State, es: seq<Event>, i: nat)
    requires Init(s) && Valid(s, es) && i < |Final(s, es).ledger|
    ensures var f := Final(s, es); var live := f.ledger[i].live;
      exists j: nat ::
        && j <= |es| && At(s, es, j).panel == live
        && f.panel.status == LastSwitch(es, j, |es|).GetOr(live.status)
  {
    AtTheEnd(s, es);
    ReadsWereThere(s, es, |es|);
    var live := Final(s, es).ledger[i].live;
    assert WasThere(s, es, |es|, live);
    var j: nat :| j <= |es| && At(s, es, j).panel == live;
    StatusFollows(s, es, j, |es|);
  }
}
