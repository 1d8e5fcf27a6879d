/** One service user over whole runs of the scheduler: what its row can look like, and what must have
    happened before automation switches it on or deletes it. */
module ChildMachine {
  import opened Prelude
  import opened Entitlement
  import opened RebeccaPanel
  import opened Children

  /** The row's history as the database keeps it: rolled back with the row. */
  datatype Entry =
    | WasScheduled(at: int, grace: int, seen: User)
    | WasCancelled(at: int)

  datatype Store = Store(row: Option<Child>, parent: ResellerStatus, hold: bool, history: seq<Entry>)

  /** `calls` is the panel's side of the story and survives every crash. */
  datatype State = State(
    name: string, admin: string, user: Option<User>, db: Store, mem: Store, calls: seq<Call>)

  datatype Event =
    | Sync(live: User, now: int, grace: int, settings: Settings, net: SyncNet)
    | Due(now: int, settings: Settings, delivered: bool, deleteNet: DeleteNet)
    | DisableAll(settings: Settings, answered: bool)
    | ReviveOne(now: int, settings: Settings, reviveNet: SyncNet)
    | Commit
    | Crash
    | Outside(user: Option<User>)
    | Owner(parent: ResellerStatus, hold: bool)
    | Scheduler(parent: ResellerStatus)

  predicate GraceOk(grace: int) {
    1 <= grace <= 720
  }

  predicate Can(s: State, e: Event) {
    match e
    case Sync(live, _, grace, _, _) =>
      !s.mem.hold && live.username == s.name && VerifiedOwner(live, s.admin) && GraceOk(grace)
    case Due(now, _, _, _) => s.mem.row.Some? && Selected(s.mem.row.value, now)
    case DisableAll(settings, _) =>
      !s.mem.hold && s.mem.parent in {ResellerActive, Trial, LowQuota} && !settings.dryRun && settings.allowDisable
    case ReviveOne(_, settings, _) =>
      !s.mem.hold && s.mem.parent == ResellerActive && !settings.dryRun && s.mem.row.Some? && s.mem.row.value.byParent
    case _ => true
  }

  // The session's row, panel and log after one row's work.
  function After(s: State, r: Synced, history: seq<Entry>): State {
    s.(mem := s.mem.(row := Some(r.row), history := history), user := r.user, calls := s.calls + r.calls)
  }

  function Row(st: Store): Child {
    st.row.GetOr(NEW_CHILD)
  }

  function SyncResult(s: State, live: User, now: int, grace: int, settings: Settings, net: SyncNet): Synced {
    SyncedChild(Row(s.mem), s.mem.parent, live, s.user, now, grace, settings, net)
  }

  function Noted(before: Child, after: Child, history: seq<Entry>, now: int, grace: int, seen: User): seq<Entry> {
    if before.detectedAt.None? && after.detectedAt.Some? then history + [WasScheduled(now, grace, seen)]
    else if before.deleteAfter.Some? && after.deleteAfter.None? then history + [WasCancelled(now)]
    else history
  }

  function Step(s: State, e: Event): State
    requires Can(s, e)
  {
    match e
    case Sync(live, now, grace, settings, net) =>
      var r := SyncResult(s, live, now, grace, settings, net);
      After(s, r, Noted(Row(s.mem), r.row, s.mem.history, now, grace, live))
    case Due(now, settings, delivered, net) =>
      After(s, DueChild(s.mem.row.value, s.name, s.admin, s.mem.hold, s.user, now, settings, delivered, net),
            s.mem.history)
    case DisableAll(_, answered) =>
      var marked := if s.mem.row.Some? && s.mem.row.value.local == LocalActive
                    then Some(s.mem.row.value.(byParent := true)) else s.mem.row;
      s.(mem := if answered then s.mem.(row := marked) else s.mem, calls := s.calls + [DisableAdminUsers(s.admin)])
    case ReviveOne(now, _, net) =>
      After(s, RevivedChild(s.mem.row.value, s.name, s.admin, s.user, now, net), s.mem.history)
    case Commit => s.(db := s.mem)
    case Crash => s.(mem := s.db)
    case Outside(user) => s.(user := user)
    case Owner(parent, hold) =>
      s.(db := s.db.(parent := parent, hold := hold), mem := s.mem.(parent := parent, hold := hold))
    case Scheduler(parent) => s.(mem := s.mem.(parent := parent))
  }

  predicate Valid(s: State, es: seq<Event>)
    decreases |es|
  {
    es == [] || (Can(s, es[0]) && Valid(Step(s, es[0]), es[1..]))
  }

  function Final(s: State, es: seq<Event>): State
    requires Valid(s, es)
    decreases |es|
  {
    if es == [] then s else Final(Step(s, es[0]), es[1..])
  }

  predicate Init(s: State) {
    s.db == s.mem && s.db.row.None? && s.db.history == [] && s.calls == []
  }

  // ----- The shape of a row -----

  /** The three dates and the local status always tell the same story. */
  predicate Shape(c: Child) {
    && (c.local == LocalActive <==> c.detectedAt.None?)
    && (c.local == LocalExpired <==> c.detectedAt.Some? && c.deleteAfter.Some?)
    && (c.local == LocalDeleted <==> c.detectedAt.Some? && c.deleteAfter.None?)
    && (c.deleteAfter.Some? ==> c.detectedAt.Some?)
    && (c.byOwn ==> c.detectedAt.Some?)
  }

  // Entry i scheduled the deletion the row carries, and no later entry cancelled it.
  predicate Origin(c: Child, history: seq<Entry>, admin: string, i: int) {
    && 0 <= i < |history| && history[i].WasScheduled?
    && var e := history[i];
    && c.detectedAt == Some(e.at) && c.deleteAfter == Some(e.at + e.grace * HOUR) && GraceOk(e.grace)
    && VerifiedOwner(e.seen, admin) && UserExhausted(e.seen, e.at)
    && forall k :: i < k < |history| ==> !history[k].WasCancelled?
  }

  predicate Traceable(c: Child, history: seq<Entry>, admin: string) {
    c.deleteAfter.Some? ==> exists i :: 0 <= i < |history| && Origin(c, history, admin, i)
  }

  predicate StoreOk(st: Store, admin: string) {
    st.row.Some? ==> Shape(st.row.value) && Traceable(st.row.value, st.history, admin)
  }

  predicate Flagged(st: Store, calls: seq<Call>, name: string, admin: string) {
    st.row.Some? ==>
      && (st.row.value.byOwn ==> DisableUser(name) in calls)
      && (st.row.value.byParent ==> DisableAdminUsers(admin) in calls)
  }

  predicate Inv(s: State) {
    && StoreOk(s.db, s.admin) && StoreOk(s.mem, s.admin)
    && Flagged(s.db, s.calls, s.name, s.admin) && Flagged(s.mem, s.calls, s.name, s.admin)
  }

  // A step that leaves the schedule and its history alone keeps its origin.
  lemma OriginKept(c: Child, c': Child, history: seq<Entry>, admin: string)
    requires Traceable(c, history, admin)
    requires c'.deleteAfter.Some? ==> c'.deleteAfter == c.deleteAfter && c'.detectedAt == c.detectedAt
    ensures Traceable(c', history, admin)
  {
    if c'.deleteAfter.Some? {
      var i :| 0 <= i < |history| && Origin(c, history, admin, i);
      assert Origin(c', history, admin, i);
    }
  }

  lemma SyncKeepsStore(s: State, live: User, now: int, grace: int, settings: Settings, net: SyncNet)
    requires StoreOk(s.mem, s.admin) && Can(s, Sync(live, now, grace, settings, net))
    ensures StoreOk(Step(s, Sync(live, now, grace, settings, net)).mem, s.admin)
  {
    var s' := Step(s, Sync(live, now, grace, settings, net));
    var before, after := Row(s.mem), s'.mem.row.value;
    if before.detectedAt.None? && after.detectedAt.Some? {
      assert Origin(after, s'.mem.history, s.admin, |s.mem.history|);
    } else if after.deleteAfter.Some? {
      OriginKept(before, after, s.mem.history, s.admin);
    }
  }

  lemma DueKeepsStore(s: State, now: int, settings: Settings, delivered: bool, net: DeleteNet)
    requires StoreOk(s.mem, s.admin) && Can(s, Due(now, settings, delivered, net))
    ensures StoreOk(Step(s, Due(now, settings, delivered, net)).mem, s.admin)
  {
    hide SafeDeletion;
    OriginKept(s.mem.row.value, Step(s, Due(now, settings, delivered, net)).mem.row.value, s.mem.history, s.admin);
  }

  lemma MarkKeepsStore(s: State, e: Event)
    requires StoreOk(s.mem, s.admin) && Can(s, e) && (e.DisableAll? || e.ReviveOne?)
    ensures StoreOk(Step(s, e).mem, s.admin)
  {
    if s.mem.row.Some? {
      OriginKept(s.mem.row.value, Step(s, e).mem.row.value, s.mem.history, s.admin);
    }
  }

  lemma StepKeepsStores(s: State, e: Event)
    requires StoreOk(s.db, s.admin) && StoreOk(s.mem, s.admin) && Can(s, e)
    ensures StoreOk(Step(s, e).db, s.admin) && StoreOk(Step(s, e).mem, s.admin)
  {
    match e
    case Sync(live, now, grace, settings, net) => SyncKeepsStore(s, live, now, grace, settings, net);
    case Due(now, settings, delivered, net) => DueKeepsStore(s, now, settings, delivered, net);
    case DisableAll(_, _) => MarkKeepsStore(s, e);
    case ReviveOne(_, _, _) => MarkKeepsStore(s, e);
    case _ =>
  }

  // A flag appears only together with the request that explains it; requests are never forgotten.
  lemma StepKeepsFlags(s: State, e: Event)
    requires Flagged(s.db, s.calls, s.name, s.admin) && Flagged(s.mem, s.calls, s.name, s.admin) && Can(s, e)
    ensures var s' := Step(s, e);
      && s.calls <= s'.calls
      && Flagged(s'.db, s'.calls, s.name, s.admin) && Flagged(s'.mem, s'.calls, s.name, s.admin)
  {
    hide UserExhausted, SafeDeletion;
  }

  lemma StepKeepsInv(s: State, e: Event)
    requires Inv(s) && Can(s, e)
    ensures Inv(Step(s, e)) && s.calls <= Step(s, e).calls
    ensures Step(s, e).name == s.name && Step(s, e).admin == s.admin
  {
    StepKeepsStores(s, e);
    StepKeepsFlags(s, e);
    hide StoreOk, Flagged, SyncedChild, DueChild, RevivedChild;
  }

  lemma {:induction false} RunKeepsInv(s: State, es: seq<Event>)
    requires Inv(s) && Valid(s, es)
    ensures var f := Final(s, es);
      Inv(f) && s.calls <= f.calls && f.name == s.name && f.admin == s.admin
    decreases |es|
  {
    if es != [] {
      hide Inv, Can, Step;
      StepKeepsInv(s, es[0]);
      RunKeepsInv(Step(s, es[0]), es[1..]);
    }
  }

  // ----- Main results -----

  /** The child-record state machine, in every reachable state of either copy: ACTIVE with no dates,
      EXPIRED with both and the deadline one to 720 hours after detection, DELETED with only detection. */
  lemma RowsAreShaped(s: State, es: seq<Event>)
    requires Init(s) && Valid(s, es)
    ensures var f := Final(s, es);
      forall c :: f.db.row == Some(c) || f.mem.row == Some(c) ==>
        && Shape(c)
        && (c.deleteAfter.Some? ==>
              exists h :: GraceOk(h) && c.deleteAfter.value == c.detectedAt.value + h * HOUR)
  {
    RunKeepsInv(s, es);
    var f := Final(s, es);
    forall c | (f.db.row == Some(c) || f.mem.row == Some(c)) && c.deleteAfter.Some?
      ensures exists h :: GraceOk(h) && c.deleteAfter.value == c.detectedAt.value + h * HOUR
    {
      var history := if f.db.row == Some(c) then f.db.history else f.mem.history;
      var i :| 0 <= i < |history| && Origin(c, history, s.admin, i);
      assert GraceOk(history[i].grace);
    }
  }

  /** Every automatic delete goes back to a sync that saw the user owned and exhausted and scheduled it
      at least the grace period earlier, with no cancellation since that survived; and at the delete
      itself the live user is owned and exhausted, nothing is on hold, and all switches permit it. */
  lemma DeletionIsEarned(s: State, es: seq<Event>, e: Event)
    requires Init(s) && Valid(s, es) && Can(Final(s, es), e)
    requires var f := Final(s, es); exists k :: |f.calls| <= k < |Step(f, e).calls| && Step(f, e).calls[k].DeleteUser?
    ensures e.Due?
    ensures var f := Final(s, es);
      && f.mem.row.Some? && f.mem.row.value.deleteAfter.Some?
      && (exists i :: 0 <= i < |f.mem.history| && Origin(f.mem.row.value, f.mem.history, s.admin, i)
                      && f.mem.history[i].at + f.mem.history[i].grace * HOUR <= e.now)
      && f.user.Some? && VerifiedOwner(f.user.value, s.admin) && UserExhausted(f.user.value, e.now)
      && Permitted(f.mem.row.value.deleteAfter.value, e.now, e.settings, f.mem.row.value.hold || f.mem.hold, false)
  {
    RunKeepsInv(s, es);
    var f := Final(s, es);
    hide UserExhausted, Origin, VerifiedOwner;
    assert e.Due?;
    var c := f.mem.row.value;
    DeletesExactlyWhenGuarded(f.user, f.name, f.admin, c.deleteAfter.value, e.now, e.settings, c.hold || f.mem.hold,
                              false, e.deleteNet);
    var i :| 0 <= i < |f.mem.history| && Origin(c, f.mem.history, s.admin, i);
    assert c.deleteAfter == Some(f.mem.history[i].at + f.mem.history[i].grace * HOUR) by {
      OriginDates(c, f.mem.history, s.admin, i);
    }
  }

  lemma OriginDates(c: Child, history: seq<Entry>, admin: string, i: int)
    requires Origin(c, history, admin, i)
    ensures c.deleteAfter == Some(history[i].at + history[i].grace * HOUR)
  {
  }

  /** Automation switches a user on only under an active parent that is not on hold, only while the user
      is owned and not exhausted, and only on the strength of the flag that its own earlier switch-off left. */
  lemma EnablesOnlyWhatItDisabled(s: State, es: seq<Event>, e: Event)
    requires Init(s) && Valid(s, es) && Can(Final(s, es), e)
    requires var f := Final(s, es); exists k :: |f.calls| <= k < |Step(f, e).calls| && Step(f, e).calls[k].EnableUser?
    ensures e.Sync? || e.ReviveOne?
    ensures var f := Final(s, es);
      && f.mem.parent == ResellerActive && !f.mem.hold && !e.settings.dryRun
      && f.mem.row.Some?
      && (e.Sync? ==> f.mem.row.value.byOwn && DisableUser(s.name) in f.calls)
      && (e.ReviveOne? ==> f.mem.row.value.byParent && DisableAdminUsers(s.admin) in f.calls)
      && (e.Sync? ==> VerifiedOwner(e.live, s.admin) && !UserExhausted(e.live, e.now))
      && (e.ReviveOne? ==>
            f.user.Some? && VerifiedOwner(f.user.value, s.admin) && !UserExhausted(f.user.value, e.now))
  {
    RunKeepsInv(s, es);
    hide UserExhausted, VerifiedOwner, StoreOk;
  }

  predicate DeletedAhead(s: State) {
    s.db.row.Some? && s.db.row.value.local == LocalDeleted ==>
      s.mem.row.Some? && s.mem.row.value.local == LocalDeleted
  }

  lemma StepKeepsDeleted(s: State, e: Event)
    requires Inv(s) && DeletedAhead(s) && Can(s, e)
    ensures DeletedAhead(Step(s, e))
    ensures s.db.row.Some? && s.db.row.value.local == LocalDeleted ==>
      Step(s, e).db.row.Some? && Step(s, e).db.row.value.local == LocalDeleted
  {
    hide UserExhausted, VerifiedOwner, Traceable, SafeDeletion;
  }

  /** DELETED, once committed, is final: no later sync, even of a re-created user, revives the row. */
  lemma {:induction false} DeletedIsFinal(s: State, es: seq<Event>)
    requires Inv(s) && DeletedAhead(s) && Valid(s, es)
    requires s.db.row.Some? && s.db.row.value.local == LocalDeleted
    ensures Final(s, es).db.row.Some? && Final(s, es).db.row.value.local == LocalDeleted
    decreases |es|
  {
    if es != [] {
      hide Inv, Can, Step, DeletedAhead;
      StepKeepsInv(s, es[0]);
      StepKeepsDeleted(s, es[0]);
      DeletedIsFinal(Step(s, es[0]), es[1..]);
    }
  }

  /** The converse of DeletionIsEarned. A sync that finds the user owned and exhausted, and a permitted due
      pass without faults a grace period later, with the schedule still standing and the user still owned
      and exhausted, delete the user and record it. */
  lemma ScheduledIsDeleted(s: State, sync: Event, es: seq<Event>, due: Event)
    requires sync.Sync? && Can(s, sync) && Row(s.mem).detectedAt.None? && Spent(sync.live, sync.now)
    requires Valid(Step(s, sync), es) && due.Due?
    requires var f := Final(Step(s, sync), es);
      && f.mem.row.Some? && f.mem.row.value.deleteAfter == Step(s, sync).mem.row.value.deleteAfter
      && !f.mem.row.value.hold && !f.mem.hold
      && f.user.Some? && OwnedBy(f.user.value, f.admin) && Spent(f.user.value, due.now)
    requires due.now >= sync.now + sync.grace * 3_600_000_000 && due.deleteNet == CLEAN_DELETE
    requires !due.settings.dryRun && due.settings.destructive && due.settings.allowDelete
    ensures var f := Final(Step(s, sync), es);
      && Can(f, due)
      && Step(f, due).calls == f.calls + [DeleteUser(f.name)]
      && Step(f, due).user == None
      && Step(f, due).mem.row.value.local == LocalDeleted
  {
    ExhaustedUserIsScheduled(Row(s.mem), s.mem.parent, sync.live, s.user, sync.now, sync.grace, sync.settings,
                             sync.net);
    var f := Final(Step(s, sync), es);
    DueRowsAreHandled(f.mem.row.value, f.name, f.admin, f.mem.hold, f.user, due.now, due.settings, due.delivered,
                      due.deleteNet);
    hide SyncedChild, DueChild, OwnedBy, Spent, Valid, Final;
  }
}
