/** One reseller row in _sync_resellers (app/scheduler/jobs.py), and the reseller's status over whole
    runs: expiry, renewal and manual suspension. */
module Resellers {
  import opened Prelude
  import opened Quota
  import opened Wire
  import opened Entitlement
  import opened RebeccaPanel
  import opened OrderMachine
  import opened Payments
  import opened Children

  datatype ResellerNet = ResellerNet(
    readable: bool, disable: Delivery, capable: bool, disableUsers: Delivery, verifiable: bool)

  predicate CleanNet(net: ResellerNet) {
    net.disable.acknowledged && net.disableUsers.acknowledged && net.verifiable
  }

  /** `markChildren`: active children get the parent mark; `revive`: the renewal loop runs. */
  datatype ResellerSynced = ResellerSynced(
    status: ResellerStatus,
    admins: map<string, Admin>,
    users: map<string, User>,
    calls: seq<Call>,
    markChildren: bool,
    revive: bool,
    aborted: bool)

  function Unchanged(status: ResellerStatus, admins: map<string, Admin>, users: map<string, User>): ResellerSynced {
    ResellerSynced(status, admins, users, [], false, false, false)
  }

  predicate Serving(status: ResellerStatus) {
    status in {ResellerActive, Trial, LowQuota}
  }

  predicate AdminExhausted(a: Admin, now: int) {
    Exhausted(a.expire, a.dataLimit, a.used, now)
  }

  // Switching off an exhausted account, then (where the panel can) its users, then checking.
  function SwitchOff(status: ResellerStatus, admin: string, admins: map<string, Admin>, users: map<string, User>,
                     net: ResellerNet): (r: ResellerSynced)
    ensures !r.revive && r.status in {status, ResellerExpired} && DisableAdmin(admin) in r.calls
  {
    var admins' := if net.disable.executed then WithStatus(admins, admin, Disabled) else admins;
    var calls := [DisableAdmin(admin)];
    if !net.disable.acknowledged then ResellerSynced(status, admins', users, calls, false, false, true)
    else
      var users' := if net.capable && net.disableUsers.executed then AllOff(users, admin) else users;
      var calls' := if net.capable then calls + [DisableAdminUsers(admin)] else calls;
      if net.capable && !net.disableUsers.acknowledged then
        ResellerSynced(status, admins', users', calls', false, false, true)
      else if !net.verifiable then ResellerSynced(status, admins', users', calls', net.capable, false, true)
      else
        var off := admin in admins' && NormalizeStatus(admins'[admin].status) == Disabled;
        ResellerSynced(if off then ResellerExpired else status, admins', users', calls', net.capable, false, false)
  }

  function SyncedReseller(status: ResellerStatus, hold: bool, admin: string, admins: map<string, Admin>,
                          users: map<string, User>, now: int, s: Settings, net: ResellerNet): ResellerSynced
  {
    var same := Unchanged(status, admins, users);
    if status == Suspended || hold || admin == "" || !net.readable || admin !in admins then same
    else if !AdminExhausted(admins[admin], now) then same.(revive := status == ResellerActive && !s.dryRun)
    else if !Serving(status) || s.dryRun || !s.allowDisable then same
    else SwitchOff(status, admin, admins, users, net)
  }

  /** Expiry: an exhausted account of a serving, un-held reseller is asked off where automation may, its
      users too where the panel can; the rest of the pass is cut short exactly by a request that is not
      answered; EXPIRED is recorded exactly when the account was then seen off; children are marked exactly
      when the request for all users was answered. */
  lemma ExhaustedAccountIsSwitchedOff(status: ResellerStatus, admin: string, admins: map<string, Admin>,
                                      users: map<string, User>, now: int, s: Settings, net: ResellerNet)
    requires status == ResellerActive || status == Trial || status == LowQuota
    requires admin != "" && admin in admins && net.readable && !s.dryRun && s.allowDisable
    requires var a := admins[admin];
      || (a.expire.Some? && a.expire.value <= now)
      || (a.dataLimit.Some? && a.dataLimit.value > 0 && a.dataLimit.value <= a.used)
    ensures var r := SyncedReseller(status, false, admin, admins, users, now, s, net);
      var usersAsked := net.disable.acknowledged && net.capable;
      var checked := net.disable.acknowledged && (net.capable ==> net.disableUsers.acknowledged);
      && r.admins == (if net.disable.executed then admins[admin := admins[admin].(status := Disabled)] else admins)
      && r.users == (if usersAsked && net.disableUsers.executed then AllOff(users, admin) else users)
      && r.calls == (if usersAsked then [DisableAdmin(admin), DisableAdminUsers(admin)] else [DisableAdmin(admin)])
      && (r.status == ResellerExpired <==>
            checked && net.verifiable && (r.admins[admin].status == Disabled || r.admins[admin].status == Inactive))
      && (r.status != ResellerExpired ==> r.status == status)
      && (r.markChildren <==> usersAsked && net.disableUsers.acknowledged)
      && (r.aborted <==> !checked || !net.verifiable)
      && !r.revive
  {
    hide AllOff;
    assert [DisableAdmin(admin)] + [DisableAdminUsers(admin)] == [DisableAdmin(admin), DisableAdminUsers(admin)];
  }

  /** A live account of an ACTIVE, un-held reseller starts the revival of its children, outside dry run. */
  lemma LiveAccountStartsRevival(status: ResellerStatus, hold: bool, admin: string, admins: map<string, Admin>,
                                 users: map<string, User>, now: int, s: Settings, net: ResellerNet)
    requires admin != "" && admin in admins && net.readable
    requires var a := admins[admin];
      && (a.expire.None? || now < a.expire.value)
      && (a.dataLimit.None? || a.dataLimit.value <= 0 || a.used < a.dataLimit.value)
    ensures var r := SyncedReseller(status, hold, admin, admins, users, now, s, net);
      && (r.revive <==> status == ResellerActive && !hold && !s.dryRun)
      && r.status == status && r.admins == admins && r.users == users && r.calls == [] && !r.markChildren && !r.aborted
  {
  }

  /** In all other cases a sync changes nothing and asks nothing. */
  lemma OtherResellersStay(status: ResellerStatus, hold: bool, admin: string, admins: map<string, Admin>,
                           users: map<string, User>, now: int, s: Settings, net: ResellerNet)
    requires status == Suspended || hold || admin == "" || !net.readable || admin !in admins ||
      (&& AdminExhausted(admins[admin], now)
       && (s.dryRun || !s.allowDisable || status !in {ResellerActive, Trial, LowQuota}))
    ensures SyncedReseller(status, hold, admin, admins, users, now, s, net)
         == ResellerSynced(status, admins, users, [], false, false, false)
  {
  }

  /** Marking touches exactly the children whose local status is ACTIVE, and only their mark. */
  lemma MarkedIff(c: Child)
    ensures Marked(c) == c.(byParent := c.byParent || c.local == LocalActive)
  {
  }

  function Marked(c: Child): Child {
    if c.local == LocalActive then c.(byParent := true) else c
  }

  // The bulk update of the active children's rows.
  method MarkAll(kids: seq<ChildRow>)
    requires forall i, j :: 0 <= i < j < |kids| ==> kids[i] != kids[j]
    modifies kids
    ensures forall i :: 0 <= i < |kids| ==> kids[i].Image() == Marked(old(kids[i].Image()))
  {
    for i := 0 to |kids|
      invariant forall j :: 0 <= j < i ==> kids[j].Image() == Marked(old(kids[j].Image()))
      invariant forall j :: i <= j < |kids| ==> kids[j].Image() == old(kids[j].Image())
    {
      if kids[i].local == LocalActive {
        kids[i].byParent := true;
      }
    }
  }

  lemma CleanSwitchOff(status: ResellerStatus, admin: string, admins: map<string, Admin>, users: map<string, User>,
                       net: ResellerNet)
    ensures CleanNet(net) ==> !SwitchOff(status, admin, admins, users, net).aborted
  {
    hide AllOff, WithStatus;
  }

  // The expiry branch: account, then its users and their rows, then the check.
  method Expire(reseller: ResellerRow, kids: seq<ChildRow>, panel: Panel, net: ResellerNet) returns (aborted: bool)
    requires forall i, j :: 0 <= i < j < |kids| ==> kids[i] != kids[j]
    modifies reseller, kids, panel
    ensures var r := SwitchOff(old(reseller.status), reseller.admin, old(panel.admins), old(panel.users), net);
      && reseller.status == r.status && panel.admins == r.admins && panel.users == r.users
      && panel.calls == old(panel.calls) + r.calls && aborted == r.aborted
      && forall i :: 0 <= i < |kids| ==>
           kids[i].Image() == if r.markChildren then Marked(old(kids[i].Image())) else old(kids[i].Image())
    ensures reseller.hold == old(reseller.hold) && reseller.admin == old(reseller.admin)
    ensures reseller.saved == old(reseller.saved)
    ensures reseller.productId == old(reseller.productId) && reseller.received == old(reseller.received)
    ensures panel.passwords == old(panel.passwords)
  {
    hide AllOff;
    var ok := panel.SetAdminStatus(reseller.admin, Disabled, net.disable);
    if !ok {
      return true;
    }
    if net.capable {
      ok := panel.DisableUsersOf(reseller.admin, net.disableUsers);
      if !ok {
        return true;
      }
      MarkAll(kids);
    }
    var verified := panel.GetAdmin(reseller.admin, net.verifiable);
    if verified.Unavailable? {
      return true;
    }
    if verified.value.Some? && NormalizeStatus(verified.value.value.status) == Disabled {
      reseller.status := ResellerExpired;
    }
    return false;
  }

  /** One reseller's sync, on values: its status, its children under these names, the panel's accounts, users
      and requests, from before to after. */
  ghost predicate SyncedTo(status: ResellerStatus, hold: bool, admin: string, admins: map<string, Admin>,
                           users: map<string, User>, calls: seq<Call>, kids: seq<Child>, names: seq<string>,
                           status': ResellerStatus, admins': map<string, Admin>, users': map<string, User>,
                           calls': seq<Call>, kids': seq<Child>, now: int, s: Settings, net: ResellerNet)
    requires |names| == |kids| == |kids'|
  {
    var r := SyncedReseller(status, hold, admin, admins, users, now, s, net);
    && status' == r.status && admins' == r.admins && calls <= calls'
    && (!r.revive ==>
          && users' == r.users && calls' == calls + r.calls
          && forall i :: 0 <= i < |kids| ==> kids'[i] == if r.markChildren then Marked(kids[i]) else kids[i])
    && (r.revive ==>
          && SameButStatus(users, users')
          && (forall i :: 0 <= i < |kids| ==>
                && kids'[i] in {kids[i], kids[i].(byParent := false)}
                && (kids[i].byParent && Revivable(Lookup(users, names[i]), admin, now) ==>
                      !kids'[i].byParent && EnableUser(names[i]) in calls'[|calls|..])))
  }

  /** The row-level work of one pass. The children of the reseller are passed along: they are marked when
      all the account's users are switched off, and revived after a renewal. */
  method SyncReseller(reseller: ResellerRow, kids: seq<ChildRow>, panel: Panel, now: int, s: Settings,
                      net: ResellerNet, nets: nat -> SyncNet)
    returns (aborted: bool)
    requires forall i, j :: 0 <= i < j < |kids| ==> kids[i] != kids[j]
    modifies reseller, kids, panel
    ensures old(panel.calls) <= panel.calls
    ensures var r := SyncedReseller(old(reseller.status), reseller.hold, reseller.admin, old(panel.admins),
                                    old(panel.users), now, s, net);
      && reseller.status == r.status && panel.admins == r.admins
      && (!r.revive ==>
            && panel.users == r.users && panel.calls == old(panel.calls) + r.calls && aborted == r.aborted
            && forall i :: 0 <= i < |kids| ==>
                 kids[i].Image() == if r.markChildren then Marked(old(kids[i].Image())) else old(kids[i].Image()))
      && (r.revive ==>
            && (!aborted ==> forall i :: 0 <= i < |kids| && kids[i].byParent ==>
                  !Revivable(Lookup(panel.users, kids[i].username), reseller.admin, now))
            && SameButStatus(old(panel.users), panel.users)
            && (panel.calls == old(panel.calls) ==> panel.users == old(panel.users))
            && (forall i :: 0 <= i < |kids| ==>
                  kids[i].Image() in {old(kids[i].Image()), old(kids[i].Image()).(byParent := false)})
            && (!aborted ==> forall u :: u in old(ToRevive(kids, panel.users, reseller.admin, now)) ==>
                  EnableUser(u) in panel.calls[|old(panel.calls)|..])
            && (forall k :: |old(panel.calls)| <= k < |panel.calls| ==>
                  && panel.calls[k].EnableUser?
                  && panel.calls[k].username in old(ToRevive(kids, panel.users, reseller.admin, now))))
    ensures reseller.hold == old(reseller.hold) && reseller.admin == old(reseller.admin)
    ensures reseller.saved == old(reseller.saved)
    ensures reseller.productId == old(reseller.productId) && reseller.received == old(reseller.received)
    ensures CleanNet(net) && (forall k: nat :: k < |kids| ==> CleanSync(nets(k))) ==> !aborted
    ensures panel.passwords == old(panel.passwords)
  {
    CleanSwitchOff(reseller.status, reseller.admin, panel.admins, panel.users, net);
    hide Revivable, AdminExhausted, SwitchOff, ToRevive, SameButStatus, CleanSync;
    if reseller.status == Suspended || reseller.hold || reseller.admin == "" {
      return false;
    }
    var read := panel.GetAdmin(reseller.admin, net.readable);
    if read.Unavailable? || read.value.None? {
      return false;
    }
    if !AdminExhausted(read.value.value, now) {
      if reseller.status == ResellerActive && !s.dryRun {
        aborted := ReviveAll(kids, reseller.admin, panel, now, nets);
        return;
      }
      return false;
    }
    if !Serving(reseller.status) || s.dryRun || !s.allowDisable {
      return false;
    }
    aborted := Expire(reseller, kids, panel, net);
  }

  // ----- The reseller's status over whole runs -----

  /** The row's status and the statuses it went through, as the database keeps them. */
  datatype Standing = Standing(status: ResellerStatus, log: seq<ResellerStatus>)

  datatype State = State(
    admin: string, hold: bool, db: Standing, mem: Standing, admins: map<string, Admin>, users: map<string, User>,
    calls: seq<Call>)

  datatype Event =
    | Sync(now: int, settings: Settings, net: ResellerNet, marked: seq<string>, nets: nat -> SyncNet)
    | OrderAttempt(order: Rows, product: Product, at: int, faults: Net)
    | OwnerSwitch(suspend: bool)
    | SetHold(hold: bool)
    | Commit
    | Crash
    | Consume(used: nat)

  function Moved(st: Standing, status: ResellerStatus): Standing {
    if status == st.status then st else Standing(status, st.log + [status])
  }

  datatype Revival = Revival(users: map<string, User>, calls: seq<Call>, aborted: bool)

  // The parent-renewal loop over the first n marked children, whichever they are, up to an exception.
  function RevivedUsers(users: map<string, User>, admin: string, now: int, marked: seq<string>, nets: nat -> SyncNet,
                        n: nat): Revival
    requires n <= |marked|
  {
    if n == 0 then Revival(users, [], false)
    else
      var before := RevivedUsers(users, admin, now, marked, nets, n - 1);
      if before.aborted then before
      else
        var name := marked[n - 1];
        var r := RevivedChild(NEW_CHILD.(byParent := true), name, admin, Lookup(before.users, name), now, nets(n - 1));
        Revival(PutUser(before.users, name, r.user), before.calls + r.calls, r.aborted)
  }

  function RowsFor(s: State, order: Rows): Rows {
    order.(reseller := s.mem.status, savedReseller := ResellerImage(s.db.status, order.savedReseller.productId),
           account := Lookup(s.admins, s.admin))
  }

  // An attempt at any order of this reseller, with whatever the order row holds.
  function AttemptOn(s: State, e: Event): Attempt
    requires e.OrderAttempt?
  {
    Attempted(RowsFor(s, e.order), s.admin, e.product, e.at, e.faults)
  }

  function Put(m: map<string, Admin>, key: string, a: Option<Admin>): map<string, Admin> {
    if a.Some? then m[key := a.value] else m
  }

  function Step(s: State, e: Event): State {
    match e
    case Sync(now, settings, net, marked, nets) =>
      var r := SyncedReseller(s.mem.status, s.hold, s.admin, s.admins, s.users, now, settings, net);
      var v := if r.revive then RevivedUsers(r.users, s.admin, now, marked, nets, |marked|)
               else Revival(r.users, [], false);
      s.(mem := Moved(s.mem, r.status), admins := r.admins, users := v.users, calls := s.calls + r.calls + v.calls)
    case OrderAttempt(_, _, _, _) =>
      var a := AttemptOn(s, e);
      s.(mem := if a.outcome == Raised(NotCommitted) then s.db else Moved(s.mem, a.rows.reseller),
         admins := Put(s.admins, s.admin, a.rows.account), calls := s.calls + a.calls)
    case OwnerSwitch(suspend) =>
      var status := if suspend then Suspended else ResellerActive;
      s.(db := Moved(s.db, status), mem := Moved(s.db, status),
         admins := WithStatus(s.admins, s.admin, if suspend then Disabled else Active),
         calls := s.calls + [if suspend then DisableAdmin(s.admin) else EnableAdmin(s.admin)])
    case SetHold(hold) => s.(hold := hold)
    case Commit => s.(db := s.mem)
    case Crash => s.(mem := s.db)
    case Consume(used) =>
      s.(admins := if s.admin in s.admins then s.admins[s.admin := s.admins[s.admin].(used := used)] else s.admins)
  }

  function Final(s: State, es: seq<Event>): State
    decreases |es|
  {
    if es == [] then s else Final(Step(s, es[0]), es[1..])
  }

  predicate NoOwner(es: seq<Event>) {
    forall i :: 0 <= i < |es| ==> !es[i].OwnerSwitch?
  }

  /** Manual suspension sticks: as long as the owner does not act, no pass changes the status of a
      suspended reseller, touches its account, or issues any request for it. */
  lemma {:induction false} SuspensionSticks(s: State, es: seq<Event>)
    requires s.db.status == Suspended && s.mem.status == Suspended && NoOwner(es)
    ensures var f := Final(s, es);
      && f.db.status == Suspended && f.mem.status == Suspended
      && f.calls == s.calls
      && f.admins.Keys == s.admins.Keys
      && (s.admin in s.admins ==> f.admins[s.admin] == s.admins[s.admin].(used := f.admins[s.admin].used))
    decreases |es|
  {
    if es != [] {
      hide SyncedReseller, Attempted;
      SuspendedIsLeftAlone(s, es[0]);
      SuspensionSticks(Step(s, es[0]), es[1..]);
    }
  }

  lemma SuspendedIsLeftAlone(s: State, e: Event)
    requires s.db.status == Suspended && s.mem.status == Suspended && !e.OwnerSwitch?
    ensures var s' := Step(s, e);
      && s'.db.status == Suspended && s'.mem.status == Suspended
      && s'.calls == s.calls && s'.admin == s.admin
      && s'.admins.Keys == s.admins.Keys
      && (s.admin in s.admins ==> s'.admins[s.admin] == s.admins[s.admin].(used := s'.admins[s.admin].used))
  {
  }

  // The log ends with the status, and every EXPIRED entry follows a serving one.
  predicate LogOk(st: Standing) {
    && st.log != [] && st.log[|st.log| - 1] == st.status
    && forall i :: 0 < i < |st.log| && st.log[i] == ResellerExpired ==> Serving(st.log[i - 1])
  }

  lemma AttemptsOnlyReactivate(r: Rows, name: string, product: Product, now: int, net: Net)
    ensures var a := Attempted(r, name, product, now, net);
      a.outcome != Raised(NotCommitted) ==> a.rows.reseller in {r.reseller, Reactivated(r.reseller)}
  {
  }

  lemma SyncOnlyExpires(status: ResellerStatus, hold: bool, admin: string, admins: map<string, Admin>,
                        users: map<string, User>, now: int, s: Settings, net: ResellerNet)
    ensures var r := SyncedReseller(status, hold, admin, admins, users, now, s, net);
      r.status == status || (r.status == ResellerExpired && Serving(status))
  {
  }

  lemma StepKeepsLog(s: State, e: Event)
    requires LogOk(s.db) && LogOk(s.mem)
    ensures LogOk(Step(s, e).db) && LogOk(Step(s, e).mem)
  {
    hide SyncedReseller, Attempted;
    if e.OrderAttempt? {
      AttemptsOnlyReactivate(RowsFor(s, e.order), s.admin, e.product, e.at, e.faults);
    }
    if e.Sync? {
      SyncOnlyExpires(s.mem.status, s.hold, s.admin, s.admins, s.users, e.now, e.settings, e.net);
    }
  }

  lemma {:induction false} RunKeepsLog(s: State, es: seq<Event>)
    requires LogOk(s.db) && LogOk(s.mem)
    ensures LogOk(Final(s, es).db) && LogOk(Final(s, es).mem)
    decreases |es|
  {
    if es != [] {
      hide LogOk, Step;
      StepKeepsLog(s, es[0]);
      RunKeepsLog(Step(s, es[0]), es[1..]);
    }
  }

  /** One notice per expiry: between any two moments a reseller became EXPIRED in the durable history it
      was back in service. */
  lemma ExpiriesAlternate(s: State, es: seq<Event>, i: int, j: int)
    requires s.db == s.mem && s.db.log == [s.db.status]
    requires 0 <= i < j < |Final(s, es).db.log|
    requires Final(s, es).db.log[i] == ResellerExpired && Final(s, es).db.log[j] == ResellerExpired
    ensures exists k :: i < k < j && Serving(Final(s, es).db.log[k])
  {
    RunKeepsLog(s, es);
    assert Serving(Final(s, es).db.log[j - 1]);
  }

  // ----- A settled renewal -----

  // Events before the renewal runs out: only the scheduler, commits, crashes and spending below the limit.
  predicate WithinTerm(e: Event, expire: int, limit: int) {
    match e
    case Sync(now, _, _, _, _) => now < expire
    case Consume(used) => used < limit
    case SetHold(_) => true
    case Commit => true
    case Crash => true
    case _ => false
  }

  // Only switch-ons of users the account owns.
  predicate OnlyOwnSwitchOns(calls: seq<Call>, users: map<string, User>, admin: string) {
    forall c :: c in calls ==> c.EnableUser? && c.username in users && VerifiedOwner(users[c.username], admin)
  }

  lemma {:induction false} RevivalsAreOwn(users: map<string, User>, admin: string, now: int, marked: seq<string>,
                                          nets: nat -> SyncNet, n: nat)
    requires n <= |marked|
    ensures var r := RevivedUsers(users, admin, now, marked, nets, n);
      SameButStatus(users, r.users) && OnlyOwnSwitchOns(r.calls, users, admin)
  {
    if n > 0 {
      RevivalsAreOwn(users, admin, now, marked, nets, n - 1);
      var before, name := RevivedUsers(users, admin, now, marked, nets, n - 1).users, marked[n - 1];
      RevivalIsGuarded(NEW_CHILD.(byParent := true), name, admin, before, now, nets(n - 1));
      SameButStatusComposes(users, before, RevivedUsers(users, admin, now, marked, nets, n).users);
      hide UserExhausted, RevivedChild, PutUser;
    }
  }

  lemma StepWithinTerm(s: State, e: Event, expire: int, limit: int)
    requires s.admin in s.admins && s.db.status == s.mem.status && WithinTerm(e, expire, limit)
    requires var a := s.admins[s.admin];
      && a.used < limit && (forall now, used :: now < expire && used < limit ==> !AdminExhausted(a.(used := used), now))
    ensures var s' := Step(s, e);
      && s'.admin == s.admin && s'.db.status == s'.mem.status == s.db.status && s'.admins.Keys == s.admins.Keys
      && s'.admins[s.admin] == s.admins[s.admin].(used := s'.admins[s.admin].used) && s'.admins[s.admin].used < limit
      && SameButStatus(s.users, s'.users)
      && s.calls <= s'.calls && OnlyOwnSwitchOns(s'.calls[|s.calls|..], s.users, s.admin)
  {
    SameUsers(s.users);
    if e.Sync? {
      assert s.admins[s.admin].(used := s.admins[s.admin].used) == s.admins[s.admin];
      RevivalsAreOwn(s.users, s.admin, e.now, e.marked, e.nets, |e.marked|);
      hide SwitchOff, SameButStatus, OnlyOwnSwitchOns, AdminExhausted, RevivedUsers;
      var s' := Step(s, e);
      assert s'.calls[|s.calls|..] == s'.calls[|s.calls|..|s'.calls|];
    }
  }

  /** A settled renewal is left alone: until the clock reaches its expiry or usage its limit, no sync
      changes the reseller's status or its account; the only requests are switch-ons of its own users. */
  lemma {:induction false} SettledRenewalLasts(s: State, es: seq<Event>, g: Grant)
    requires SoundGrant(g) && s.admin in s.admins && s.db.status == s.mem.status
    requires var a, t := s.admins[s.admin], PlanOf(g).target; Matches(a, t) && a.used < t.dataLimit.value
    requires forall i :: 0 <= i < |es| ==>
      WithinTerm(es[i], PlanOf(g).target.expire.value, PlanOf(g).target.dataLimit.value)
    ensures var f := Final(s, es);
      && f.db.status == s.db.status && f.mem.status == s.mem.status
      && s.admin in f.admins && f.admins[s.admin] == s.admins[s.admin].(used := f.admins[s.admin].used)
      && SameButStatus(s.users, f.users)
      && s.calls <= f.calls && OnlyOwnSwitchOns(f.calls[|s.calls|..], s.users, s.admin)
    decreases |es|
  {
    if es == [] {
      SameUsers(s.users);
    } else {
      var expire, limit := PlanOf(g).target.expire.value, PlanOf(g).target.dataLimit.value;
      var a, s' := s.admins[s.admin], Step(s, es[0]);
      forall now, used | now < expire && used < limit ensures !AdminExhausted(a.(used := used), now) {
        RenewalLastsUntilSpent(g.live.expire, g.live.dataLimit, RenewalOf(g), used, now);
      }
      assert WithinTerm(es[0], expire, limit);
      StepWithinTerm(s, es[0], expire, limit);
      hide Step, AdminExhausted, WithinTerm;
      SettledRenewalLasts(s', es[1..], g);
      var f := Final(s', es[1..]);
      SameButStatusComposes(s.users, s'.users, f.users);
      assert f.calls[|s.calls|..] == s'.calls[|s.calls|..] + f.calls[|s'.calls|..];
    }
  }
}
