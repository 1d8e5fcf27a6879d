/** One reseller's turn in each of the four parts of a scheduler pass (LifecycleRunner, app/scheduler/jobs.py):
    why each request of it was issued, and what it does. */
module PassTurns {
  import opened Prelude
  import opened Wire
  import opened Entitlement
  import opened RebeccaPanel
  import opened Payments
  import opened Children
  import opened Resellers
  import opened Scheduler
  import opened Reconcile

  // A reseller's rows.
  datatype Account = Account(reseller: ResellerRow, kids: seq<ChildRow>, orders: seq<OrderRow>)

  /** The settings, clocks, replies and faults of one pass, by reseller and row. */
  datatype Pass = Pass(
    settings: Settings,
    storedMode: Option<string>,
    won: bool,            // the pass holds its lock, and the lock for orders
    wonOrders: bool,
    graceHours: int,
    at: int,              // the clock of each part
    listedAt: int,
    dueAt: int,
    nets: nat -> ResellerNet,
    revivals: nat -> nat -> SyncNet,
    listings: nat -> Option<seq<User>>,
    syncs: nat -> nat -> SyncNet,
    warned: nat -> nat -> bool,
    deletes: nat -> nat -> DeleteNet,
    turns: nat -> nat -> Turn)
  {
    function Mode(): Option<bool> { OperationsMode(storedMode, settings.dryRun) }
  }

  // A reseller as it stood before the pass.
  datatype Stand = Stand(status: ResellerStatus, admin: string, hold: bool)

  // The panel when the pass began.
  datatype Before = Before(accounts: Provisioning.Accounts, users: map<string, User>)

  predicate Listing(p: Pass, i: nat, name: string, admin: string, spent: bool) {
    p.listings(i).Some? && ListShows(p.listings(i).value, |p.listings(i).value|, name, admin, spent, p.listedAt)
  }

  // No reseller had the name, and no account on the panel.
  predicate NewName(name: string, stands: seq<Stand>, before: Before) {
    && name != "" && name !in before.accounts.admins
    && forall j :: 0 <= j < |stands| ==> stands[j].admin != name
  }

  // The reseller's account: the one it had, or a new one when it had none.
  predicate Own(name: string, i: nat, stands: seq<Stand>, before: Before)
    requires i < |stands|
  {
    if stands[i].admin != "" then name == stands[i].admin else NewName(name, stands, before)
  }

  // It bought for the first time and had not been handed its account.
  predicate Buying(st: Stand) {
    st.admin == "" || st.status == ResellerStatus.Provisioning
  }

  predicate SuspendedAccount(st: Stand) {
    st.admin != "" && st.status == Suspended
  }

  predicate Automatic(st: Stand, s: Settings) {
    !st.hold && !s.dryRun && s.allowDisable
  }

  /** A request the i-th reseller accounts for, as it and the panel stood before the pass. */
  predicate LicensedBy(c: Call, i: nat, stands: seq<Stand>, before: Before, p: Pass)
    requires i < |stands|
  {
    var s, st, admins := p.settings, stands[i], before.accounts.admins;
    match c
    case CreateAdmin(n) => Own(n, i, stands, before) && Buying(st) && n !in admins && p.Mode() == Some(false)
    case UpdateAdmin(n) => Own(n, i, stands, before) && !SuspendedAccount(st) && p.Mode() == Some(false)
    case EnableAdmin(n) => Own(n, i, stands, before) && !SuspendedAccount(st) && p.Mode() == Some(false)
    case DisableAdmin(n) =>
      && n == st.admin && n != ""
      && ((Serving(st.status) && Automatic(st, s))
          // provision's guard, which asks for no permission and heeds no hold
          || (Buying(st) && n in admins && Provisioning.Privileged(admins[n]) && p.Mode() == Some(false)))
    case DisableAdminUsers(n) => n == st.admin && Serving(st.status) && Automatic(st, s)
    case EnableUser(u) =>
      && st.status == ResellerActive && !st.hold && !s.dryRun
      && (PanelShows(before.users, u, st.admin, false, p.at) || Listing(p, i, u, st.admin, false))
    case DisableUser(u) => Automatic(st, s) && Listing(p, i, u, st.admin, true)
    case DeleteUser(u) => !st.hold && MayDelete(s) && PanelShows(before.users, u, st.admin, true, p.dueAt)
  }

  predicate Licensed(c: Call, stands: seq<Stand>, before: Before, p: Pass) {
    exists i :: 0 <= i < |stands| && LicensedBy(c, i, stands, before, p)
  }

  // ----- What every part of the pass keeps -----

  predicate Moved(from: ResellerStatus, to: ResellerStatus) {
    to == from || (to == ResellerExpired && Serving(from))
  }

  // The row still is the reseller that stood there; only sync has moved its status, and not durably.
  ghost predicate Stands(r: ResellerRow, st: Stand)
    reads r
  {
    r.admin == st.admin && r.hold == st.hold && Moved(st.status, r.status) && r.saved.status == st.status
  }

  // Requests added since, each accounted for by the i-th reseller.
  predicate Accounted(calls: seq<Call>, calls': seq<Call>, i: nat, stands: seq<Stand>, before: Before, p: Pass)
    requires i < |stands|
  {
    calls <= calls' && forall k :: |calls| <= k < |calls'| ==> LicensedBy(calls'[k], i, stands, before, p)
  }

  predicate AllAccounted(calls: seq<Call>, calls': seq<Call>, stands: seq<Stand>, before: Before, p: Pass) {
    calls <= calls' && forall k :: |calls| <= k < |calls'| ==> Licensed(calls'[k], stands, before, p)
  }

  lemma AccountedAdds(calls: seq<Call>, mid: seq<Call>, calls': seq<Call>, i: nat, stands: seq<Stand>, before: Before,
                      p: Pass)
    requires i < |stands| && AllAccounted(calls, mid, stands, before, p) && Accounted(mid, calls', i, stands, before, p)
    ensures AllAccounted(calls, calls', stands, before, p)
  {
    hide LicensedBy;
  }

  ghost function KidsOf(accounts: seq<Account>): set<ChildRow> {
    set a, k | a in accounts && k in a.kids :: k
  }

  ghost function OrdersOf(accounts: seq<Account>): set<OrderRow> {
    set a, o | a in accounts && o in a.orders :: o
  }

  ghost function ResellersOf(accounts: seq<Account>): set<ResellerRow> {
    set a | a in accounts :: a.reseller
  }

  // Every row belongs to one reseller, and is listed once.
  ghost predicate Apart(accounts: seq<Account>) {
    && (forall i, j :: 0 <= i < j < |accounts| ==> accounts[i].reseller != accounts[j].reseller)
    && (forall i :: 0 <= i < |accounts| ==> DistinctNames(accounts[i].kids) && DistinctOrders(accounts[i].orders))
    && (forall i, j :: 0 <= i < |accounts| && 0 <= j < |accounts| && i != j ==> NoneShared(accounts[i], accounts[j]))
  }

  predicate NoneShared(a: Account, b: Account) {
    && (forall x, y :: 0 <= x < |a.kids| && 0 <= y < |b.kids| ==> a.kids[x] != b.kids[y])
    && (forall x, y :: 0 <= x < |a.orders| && 0 <= y < |b.orders| ==> a.orders[x] != b.orders[y])
  }

  ghost predicate DistinctOrders(orders: seq<OrderRow>) {
    forall i, j :: 0 <= i < j < |orders| ==> orders[i] != orders[j]
  }

  // The rows as just loaded.
  ghost predicate Loaded(accounts: seq<Account>, stands: seq<Stand>)
    reads ResellersOf(accounts)
  {
    |stands| == |accounts| && forall i :: 0 <= i < |accounts| ==> LoadedRow(accounts[i].reseller, stands[i])
  }

  ghost predicate LoadedRow(r: ResellerRow, st: Stand)
    reads r
  {
    st == Stand(r.status, r.admin, r.hold) && r.saved.status == r.status
  }

  ghost predicate AllStand(accounts: seq<Account>, stands: seq<Stand>)
    reads ResellersOf(accounts)
  {
    |accounts| == |stands| && forall i :: 0 <= i < |accounts| ==> Stands(accounts[i].reseller, stands[i])
  }

  /** The panel since the pass began: every request so far is accounted for, accounts changed only where
      named, users at most in status or are gone. */
  ghost predicate Kept(panel: Panel, before: Before, stands: seq<Stand>, p: Pass)
    reads panel
  {
    && AllAccounted(before.accounts.calls, panel.calls, stands, before, p)
    && Grows(before.accounts, Provisioning.View(panel))
    && Shrinks(before.users, panel.users)
    && (panel.calls == before.accounts.calls ==> panel.users == before.users)
  }

  ghost function Now(panel: Panel): Before
    reads panel
  {
    Before(Provisioning.View(panel), panel.users)
  }

  // One part's work on the i-th reseller, from `was` to now.
  ghost predicate Works(was: Before, panel: Panel, i: nat, stands: seq<Stand>, before: Before, p: Pass)
    requires i < |stands|
    reads panel
  {
    && Accounted(was.accounts.calls, panel.calls, i, stands, before, p)
    && Grows(was.accounts, Provisioning.View(panel))
    && Shrinks(before.users, panel.users)
    && (panel.calls == was.accounts.calls ==> panel.users == was.users)
  }

  // The same of a panel that was.
  ghost predicate WasKept(was: Before, before: Before, stands: seq<Stand>, p: Pass) {
    && AllAccounted(before.accounts.calls, was.accounts.calls, stands, before, p)
    && Grows(before.accounts, was.accounts)
    && (was.accounts.calls == before.accounts.calls ==> was.users == before.users)
  }

  lemma WorkKeeps(was: Before, panel: Panel, i: nat, stands: seq<Stand>, before: Before, p: Pass)
    requires i < |stands| && WasKept(was, before, stands, p) && Works(was, panel, i, stands, before, p)
    ensures Kept(panel, before, stands, p)
  {
    hide LicensedBy, Licensed, Shrinks;
    AccountedAdds(before.accounts.calls, was.accounts.calls, panel.calls, i, stands, before, p);
    GrowsTwice(before.accounts, was.accounts, Provisioning.View(panel));
    hide Grows;
  }

  // ----- What the parts do, on values -----

  // One reseller's sync, before and after.
  ghost predicate PartOne(i: nat, st: Stand, was: Before, kids: seq<Child>, names: seq<string>, status': ResellerStatus,
                          now: Before, kids': seq<Child>, p: Pass)
  {
    && |names| == |kids| == |kids'|
    && SyncedTo(st.status, st.hold, st.admin, was.accounts.admins, was.users, was.accounts.calls, kids, names, status',
                now.accounts.admins, now.users, now.accounts.calls, kids', p.at, p.settings, p.nets(i))
    && now.accounts.passwords == was.accounts.passwords
  }

  // The rows by name.
  function TableOf(names: seq<string>, kids: seq<Child>): map<string, Child>
    requires |names| == |kids| && forall i, j :: 0 <= i < j < |names| ==> names[i] != names[j]
  {
    map k | 0 <= k < |kids| :: names[k] := kids[k]
  }

  // The loop over one reseller's listing, if it is looked at.
  predicate PartTwo(i: nat, st: Stand, status: ResellerStatus, was: Before, table: map<string, Child>, now: Before,
                    table': map<string, Child>, p: Pass)
  {
    if st.hold || st.admin == "" || p.listings(i).None? then table' == table && now == was
    else
      var listing := p.listings(i).value;
      && Cache(table', now.users, now.accounts.calls, false)
         == SyncedAll(Cache(table, was.users, was.accounts.calls, false), status, st.admin, listing, |listing|,
                      p.listedAt, p.graceHours, p.settings, p.syncs(i))
      && now.accounts.admins == was.accounts.admins && now.accounts.passwords == was.accounts.passwords
      && (DistinctUsers(listing) ==>
            forall k :: 0 <= k < |listing| && OwnedBy(listing[k], st.admin) && Spent(listing[k], p.listedAt) ==>
              Detected(table, table', listing[k], p.listedAt, p.graceHours))
  }

  // Every row of one reseller that is due, by its guard.
  predicate PartThree(i: nat, st: Stand, was: Before, kids: seq<Child>, names: seq<string>, now: Before,
                      kids': seq<Child>, p: Pass)
  {
    && was.accounts.calls <= now.accounts.calls
    && now.accounts.admins == was.accounts.admins && now.accounts.passwords == was.accounts.passwords
    && AllDue(kids, names, st.admin, st.hold, was.users, kids', now.users,
              now.accounts.calls[|was.accounts.calls|..], p.dueAt, p.settings, p.warned(i), p.deletes(i))
  }

  const NO_ACCOUNTS := Provisioning.Accounts(map[], map[], [])

  // All but the status.
  ghost predicate SameColumns(r: ResellerRow, was: Scene)
    reads r
  {
    Seat(r, was.accounts) == was.(row := was.row.(status := r.status))
  }

  // A reseller's row as a scene, with the panel as given.
  ghost function Seat(r: ResellerRow, accounts: Provisioning.Accounts): Scene
    reads r
  {
    Scene(r.admin, r.hold, r.Image(), r.saved, r.received, accounts)
  }

  // Every order of one reseller, each by its turn.
  ghost predicate PartFour(i: nat, was: Before, papers: seq<Paper>, scenes: seq<Scene>, now: Before,
                           papers': seq<Paper>, reserved: set<string>, p: Pass)
  {
    && |papers| == |papers'| && |scenes| == |papers| + 1
    && scenes[0].accounts == was.accounts && scenes[|papers|].accounts == now.accounts && now.users == was.users
    && AllReconciled(papers, papers', scenes, p.Mode(), p.turns(i), reserved)
  }

  /** No fault cuts the pass short: every request and read is answered, the settings are readable, and the
      panel still has every listed user. */
  ghost predicate FaultFree(p: Pass, users: map<string, User>) {
    && GraceHours(p.graceHours).Some? && p.Mode().Some?
    && (forall i: nat :: CleanNet(p.nets(i)))
    && (forall i: nat, k: nat :: CleanSync(p.revivals(i)(k)) && CleanDelete(p.deletes(i)(k)))
    && (forall i: nat :: p.listings(i).Some? ==> CleanListing(users, p.listings(i).value, p.syncs(i)))
  }

  // ----- The parts, one reseller at a time -----

  lemma AllOffShrinks(users: map<string, User>, admin: string)
    ensures Shrinks(users, users) && Shrinks(users, AllOff(users, admin))
  {
    hide VerifiedOwner;
  }

  lemma SwitchOffIsLocal(status: ResellerStatus, admin: string, admins: map<string, Admin>, users: map<string, User>,
                         net: ResellerNet)
    ensures var r := SwitchOff(status, admin, admins, users, net);
      && r.calls in {[DisableAdmin(admin)], [DisableAdmin(admin), DisableAdminUsers(admin)]}
      && Shrinks(users, r.users) && r.status in {status, ResellerExpired}
      && r.admins in {admins, WithStatus(admins, admin, Disabled)}
  {
    AllOffShrinks(users, admin);
    hide AllOff, Shrinks, NormalizeStatus, WithStatus;
    assert [DisableAdmin(admin)] + [DisableAdminUsers(admin)] == [DisableAdmin(admin), DisableAdminUsers(admin)];
  }

  lemma SyncedIsLicensed(i: nat, stands: seq<Stand>, admins: map<string, Admin>, users: map<string, User>,
                         before: Before,
                         p: Pass, net: ResellerNet)
    requires i < |stands|
    ensures var st := stands[i];
      var r := SyncedReseller(st.status, st.hold, st.admin, admins, users, p.at, p.settings, net);
      && (forall c :: c in r.calls ==> LicensedBy(c, i, stands, before, p))
      && Moved(st.status, r.status)
      && Shrinks(users, r.users)
      && (r.calls == [] ==> r.users == users)
      && (r.revive ==> st.status == ResellerActive && !st.hold && !p.settings.dryRun && r.admins == admins)
      && (r.admins == admins ||
          (r.calls != [] && r.calls[0] == DisableAdmin(st.admin) && r.admins == WithStatus(admins, st.admin, Disabled)))
  {
    var st := stands[i];
    SwitchOffIsLocal(st.status, st.admin, admins, users, net);
    hide SwitchOff, AdminExhausted, PanelShows, Listing, WithStatus;
  }

  lemma SyncGrows(a: Provisioning.Accounts, calls: seq<Call>, admin: string, admins: map<string, Admin>)
    requires admins == a.admins ||
      (calls != [] && calls[0] == DisableAdmin(admin) && admins == WithStatus(a.admins, admin, Disabled))
    ensures Grows(a, Provisioning.Accounts(admins, a.passwords, a.calls + calls))
  {
    var b := Provisioning.Accounts(admins, a.passwords, a.calls + calls);
    if admins != a.admins {
      assert Names(b.calls[|a.calls|], admin);
      assert !Quiet(b.calls, |a.calls|, admin);
    }
  }

  lemma RevivedIsLicensed(kids: seq<ChildRow>, i: nat, stands: seq<Stand>, users: map<string, User>, before: Before,
                          p: Pass)
    requires i < |stands| && stands[i].status == ResellerActive && !stands[i].hold && !p.settings.dryRun
    requires Shrinks(before.users, users)
    ensures forall u :: u in ToRevive(kids, users, stands[i].admin, p.at) ==>
      LicensedBy(EnableUser(u), i, stands, before, p)
  {
  }

  // What a sync did to the panel, cut short or not.
  ghost predicate SyncTouched(r: ResellerSynced, was: Before, now: Before, toRevive: set<string>) {
    && was.accounts.calls <= now.accounts.calls
    && now.accounts.admins == r.admins && now.accounts.passwords == was.accounts.passwords
    && (!r.revive ==> now.users == r.users && now.accounts.calls == was.accounts.calls + r.calls)
    && (r.revive ==>
          && SameButStatus(was.users, now.users)
          && (now.accounts.calls == was.accounts.calls ==> now.users == was.users)
          && forall k :: |was.accounts.calls| <= k < |now.accounts.calls| ==>
               now.accounts.calls[k].EnableUser? && now.accounts.calls[k].username in toRevive)
  }

  ghost function SyncOf(st: Stand, was: Before, p: Pass, i: nat): ResellerSynced {
    SyncedReseller(st.status, st.hold, st.admin, was.accounts.admins, was.users, p.at, p.settings, p.nets(i))
  }

  method SyncRows(a: Account, i: nat, panel: Panel, p: Pass, ghost st: Stand) returns (aborted: bool)
    requires DistinctNames(a.kids) && LoadedRow(a.reseller, st)
    modifies a.reseller, a.kids, panel
    ensures SyncTouched(SyncOf(st, old(Now(panel)), p, i), old(Now(panel)), Now(panel),
                        old(ToRevive(a.kids, panel.users, a.reseller.admin, p.at)))
    ensures a.reseller.status == SyncOf(st, old(Now(panel)), p, i).status
    ensures !aborted ==>
      PartOne(i, st, old(Now(panel)), old(Images(a.kids)), NamesOf(a.kids), a.reseller.status, Now(panel),
              Images(a.kids), p)
    ensures CleanNet(p.nets(i)) && (forall k: nat :: CleanSync(p.revivals(i)(k))) ==> !aborted
    ensures SameColumns(a.reseller, old(Seat(a.reseller, NO_ACCOUNTS)))
  {
    ghost var users0, kids0, names, marked := panel.users, Images(a.kids), NamesOf(a.kids),
                                              ToRevive(a.kids, panel.users, a.reseller.admin, p.at);
    assert AllToRevive(kids0, names, users0, st.admin, p.at, marked) by {
      assert forall k :: 0 <= k < |a.kids| ==>
        names[k] == a.kids[k].username && kids0[k].byParent == a.kids[k].byParent;
    }
    hide SyncedReseller, ToRevive, Revivable, SameButStatus, CleanNet, CleanSync, Marked, AllToRevive;
    aborted := SyncReseller(a.reseller, a.kids, panel, p.at, p.settings, p.nets(i), p.revivals(i));
    if !aborted && SyncOf(st, old(Now(panel)), p, i).revive {
      RevivalIsDone(kids0, names, users0, Images(a.kids), panel.users, st.admin, p.at, marked,
                    panel.calls[|old(panel.calls)|..]);
    }
  }

  predicate AllToRevive(kids: seq<Child>, names: seq<string>, users: map<string, User>, admin: string, now: int,
                        marked: set<string>) {
    && |names| == |kids|
    && forall k :: 0 <= k < |kids| && kids[k].byParent && Revivable(Lookup(users, names[k]), admin, now) ==>
         names[k] in marked
  }

  lemma RevivalIsDone(kids: seq<Child>, names: seq<string>, users: map<string, User>, kids': seq<Child>,
                      users': map<string, User>, admin: string, now: int, marked: set<string>, sent: seq<Call>)
    requires AllToRevive(kids, names, users, admin, now, marked) && SameButStatus(users, users') && |kids'| == |kids|
    requires forall k :: 0 <= k < |kids'| && kids'[k].byParent ==> !Revivable(Lookup(users', names[k]), admin, now)
    requires forall u :: u in marked ==> EnableUser(u) in sent
    ensures forall k :: 0 <= k < |kids| && kids[k].byParent && Revivable(Lookup(users, names[k]), admin, now) ==>
      !kids'[k].byParent && EnableUser(names[k]) in sent
  {
    hide Revivable, SameButStatus;
    forall k | 0 <= k < |kids| && kids[k].byParent && Revivable(Lookup(users, names[k]), admin, now)
      ensures !kids'[k].byParent && EnableUser(names[k]) in sent
    {
      RevivableStays(users, users', admin, now, names[k]);
    }
  }

  lemma RevivableStays(users: map<string, User>, users': map<string, User>, admin: string, now: int, name: string)
    requires SameButStatus(users, users')
    ensures Revivable(Lookup(users, name), admin, now) <==> Revivable(Lookup(users', name), admin, now)
  {
    StatusIsIrrelevant(users, users', admin, now);
  }

  lemma SyncTouchedWorks(i: nat, stands: seq<Stand>, kids: seq<ChildRow>, was: Before, now: Before,
                         toRevive: set<string>, before: Before, p: Pass)
    requires i < |stands| && Shrinks(before.users, was.users)
    requires var st := stands[i];
      && SyncTouched(SyncOf(st, was, p, i), was, now, toRevive)
      && (SyncOf(st, was, p, i).revive ==>
            forall u :: u in toRevive ==> LicensedBy(EnableUser(u), i, stands, before, p))
    ensures Accounted(was.accounts.calls, now.accounts.calls, i, stands, before, p)
    ensures Grows(was.accounts, now.accounts)
    ensures Shrinks(before.users, now.users) && now.users.Keys == was.users.Keys
    ensures now.accounts.calls == was.accounts.calls ==> now.users == was.users
    ensures Moved(stands[i].status, SyncOf(stands[i], was, p, i).status)
  {
    var st, r := stands[i], SyncOf(stands[i], was, p, i);
    SyncedIsLicensed(i, stands, was.accounts.admins, was.users, before, p, p.nets(i));
    SyncKeepsUsers(st, was, p, i);
    hide SyncedReseller, LicensedBy, Moved, WithStatus;
    ShrinksComposes(before.users, was.users, now.users);
    var more := now.accounts.calls[|was.accounts.calls|..];
    assert now.accounts.calls == was.accounts.calls + more;
    SyncGrows(was.accounts, more, st.admin, now.accounts.admins);
    hide Grows, Shrinks;
  }

  lemma SyncKeepsUsers(st: Stand, was: Before, p: Pass, i: nat)
    ensures SyncOf(st, was, p, i).users.Keys == was.users.Keys
  {
    hide VerifiedOwner, AdminExhausted, NormalizeStatus, WithStatus;
  }

  method SyncAccount(a: Account, i: nat, panel: Panel, p: Pass, ghost stands: seq<Stand>, ghost before: Before)
    returns (aborted: bool)
    requires i < |stands| && DistinctNames(a.kids) && LoadedRow(a.reseller, stands[i])
    requires Shrinks(before.users, panel.users)
    modifies a.reseller, a.kids, panel
    ensures Stands(a.reseller, stands[i]) && Works(old(Now(panel)), panel, i, stands, before, p)
    ensures !aborted ==>
      PartOne(i, stands[i], old(Now(panel)), old(Images(a.kids)), NamesOf(a.kids), a.reseller.status, Now(panel),
              Images(a.kids), p)
    ensures FaultFree(p, before.users) ==> !aborted
    ensures panel.users.Keys == old(panel.users).Keys
    ensures SameColumns(a.reseller, old(Seat(a.reseller, NO_ACCOUNTS)))
  {
    ghost var was := Now(panel);
    ghost var toRevive := ToRevive(a.kids, panel.users, a.reseller.admin, p.at);
    if SyncOf(stands[i], was, p, i).revive {
      SyncedIsLicensed(i, stands, panel.admins, panel.users, before, p, p.nets(i));
      RevivedIsLicensed(a.kids, i, stands, panel.users, before, p);
    }
    hide SyncOf, LicensedBy, ToRevive, PartOne, SyncTouched, CleanNet, CleanSync, CleanDelete, CleanListing;
    aborted := SyncRows(a, i, panel, p, stands[i]);
    SyncTouchedWorks(i, stands, a.kids, was, Now(panel), toRevive, before, p);
    hide Grows, Shrinks, Moved;
  }

  lemma ListedIsLicensed(i: nat, status: ResellerStatus, stands: seq<Stand>, before: Before, p: Pass)
    requires i < |stands| && p.listings(i).Some? && !stands[i].hold && Moved(stands[i].status, status)
    ensures var listing := p.listings(i).value;
      forall c :: SyncCall(c, status, stands[i].admin, listing, |listing|, p.listedAt, p.settings) ==>
        LicensedBy(c, i, stands, before, p)
  {
    hide ListShows;
  }

  method SyncUsersOfAccount(a: Account, i: nat, panel: Panel, p: Pass, ghost stands: seq<Stand>, ghost before: Before)
    returns (a': Account, aborted: bool)
    requires i < |stands| && DistinctNames(a.kids) && Stands(a.reseller, stands[i])
    requires Shrinks(before.users, panel.users)
    modifies a.kids, panel
    ensures a'.reseller == a.reseller && a'.orders == a.orders && DistinctNames(a'.kids)
    ensures a.kids <= a'.kids && fresh(set k | |a.kids| <= k < |a'.kids| :: a'.kids[k])
    ensures Works(old(Now(panel)), panel, i, stands, before, p)
    ensures !aborted ==>
      PartTwo(i, stands[i], a.reseller.status, old(Now(panel)), old(Table(a.kids)), Now(panel), Table(a'.kids), p)
    ensures FaultFree(p, old(panel.users)) ==> !aborted
    ensures old(panel.users).Keys <= panel.users.Keys
  {
    a', aborted := a, false;
    ghost var accounts := Provisioning.View(panel);
    SyncGrows(accounts, [], "", panel.admins);
    if a.reseller.hold || a.reseller.admin == "" || p.listings(i).None? {
      return;
    }
    var listing := p.listings(i).value;
    ghost var c0 := Cache(Table(a.kids), panel.users, panel.calls, false);
    SyncStaysLicensed(c0, a.reseller.status, a.reseller.admin, listing, |listing|, p.listedAt, p.graceHours,
                      p.settings, p.syncs(i));
    ListedIsLicensed(i, a.reseller.status, stands, before, p);
    hide SyncedAll, SyncCall, LicensedBy, Table, Detected, OwnedBy, Spent, CleanListing, CleanNet, CleanSync;
    hide CleanDelete;
    var kids;
    kids, aborted := SyncUsersOf(a.kids, a.reseller.status, a.reseller.admin, listing, panel, p.listedAt, p.graceHours,
                                 p.settings, p.syncs(i));
    a' := a.(kids := kids);
    ShrinksComposes(before.users, old(panel.users), panel.users);
    ghost var more := panel.calls[|accounts.calls|..];
    assert panel.calls == accounts.calls + more;
    SyncGrows(accounts, more, "", panel.admins);
    hide Grows;
  }

  method DeleteDueOfAccount(a: Account, i: nat, panel: Panel, p: Pass, ghost stands: seq<Stand>, ghost before: Before)
    returns (aborted: bool)
    requires i < |stands| && DistinctNames(a.kids) && Stands(a.reseller, stands[i])
    requires Shrinks(before.users, panel.users)
    modifies a.kids, panel
    ensures Works(old(Now(panel)), panel, i, stands, before, p)
    ensures !aborted ==>
      PartThree(i, stands[i], old(Now(panel)), old(Images(a.kids)), NamesOf(a.kids), Now(panel), Images(a.kids), p)
    ensures FaultFree(p, before.users) ==> !aborted
  {
    ghost var accounts := Provisioning.View(panel);
    ShownBefore(before.users, panel.users);
    hide PanelShows, AllDue, CleanListing, CleanNet, CleanSync, CleanDelete;
    aborted := DeleteDueOf(a.kids, a.reseller.admin, a.reseller.hold, panel, p.dueAt, p.settings, p.warned(i),
                           p.deletes(i));
    hide MayDelete;
    ShrinksComposes(before.users, old(panel.users), panel.users);
    ghost var more := panel.calls[|accounts.calls|..];
    assert panel.calls == accounts.calls + more;
    SyncGrows(accounts, more, "", panel.admins);
    hide Grows;
  }

  /** A row during the order part: its account is its own, its suspension as it was, and it is buying only
      if it was. */
  predicate Seated(d: Desk, i: nat, stands: seq<Stand>, before: Before)
    requires i < |stands|
  {
    var st := stands[i];
    && d.hold == st.hold
    && (st.admin != "" ==> d.admin == st.admin)
    && (d.admin != "" ==> Own(d.admin, i, stands, before))
    && (Purchasing(d) ==> Buying(st))
    && (if st.status == Suspended && st.admin != "" then d.status == Suspended
        else st.status != Suspended ==> d.status != Suspended && d.saved != Suspended)
  }

  ghost predicate SeatedRow(r: ResellerRow, i: nat, stands: seq<Stand>, before: Before)
    requires i < |stands|
    reads r
  {
    Seated(Desk(r.admin, r.hold, r.status, r.saved.status, before.accounts), i, stands, before)
  }

  ghost predicate AllSeated(accounts: seq<Account>, stands: seq<Stand>, before: Before)
    reads ResellersOf(accounts)
  {
    |accounts| == |stands| && forall i :: 0 <= i < |accounts| ==> SeatedRow(accounts[i].reseller, i, stands, before)
  }

  lemma StandingIsSeated(accounts: seq<Account>, stands: seq<Stand>, before: Before)
    requires AllStand(accounts, stands)
    ensures AllSeated(accounts, stands, before)
  {
  }

  // Every name a reseller had before the pass is among the reserved ones.
  predicate AllReserved(stands: seq<Stand>, reserved: set<string>) {
    forall j :: 0 <= j < |stands| && stands[j].admin != "" ==> stands[j].admin in reserved
  }

  lemma OrderCallIsLicensed(c: Call, d: Desk, d': Desk, i: nat, stands: seq<Stand>, before: Before, p: Pass)
    requires i < |stands| && Seated(d, i, stands, before) && Grows(before.accounts, d.accounts)
    requires d'.admin != "" && Own(d'.admin, i, stands, before) && p.Mode() == Some(false)
    requires !SuspendedAccount(stands[i]) && OrderCall(c, d'.admin, Purchasing(d), d.accounts.admins)
    ensures LicensedBy(c, i, stands, before, p)
  {
    hide Serving, Quiet;
  }

  lemma FrameKeepsSeat(d: Desk, d': Desk, reserved: set<string>, i: nat, stands: seq<Stand>, before: Before, p: Pass)
    requires i < |stands| && Seated(d, i, stands, before) && Grows(before.accounts, d.accounts)
    requires OrderFrame(d, d', reserved, p.Mode()) && AllReserved(stands, reserved)
    ensures Seated(d', i, stands, before)
    ensures Accounted(d.accounts.calls, d'.accounts.calls, i, stands, before, p)
  {
    assert d'.admin != "" ==> Own(d'.admin, i, stands, before) by {
      assert d'.admin != "" && d'.admin !in reserved ==> forall j :: 0 <= j < |stands| ==> stands[j].admin != d'.admin;
    }
    forall k | |d.accounts.calls| <= k < |d'.accounts.calls|
      ensures LicensedBy(d'.accounts.calls[k], i, stands, before, p)
    {
      OrderCallIsLicensed(d'.accounts.calls[k], d, d', i, stands, before, p);
    }
    hide LicensedBy, OrderCall, Own;
  }

  method ReconcileAccount(a: Account, i: nat, panel: Panel, p: Pass, reserved: set<string>, ghost stands: seq<Stand>,
                          ghost before: Before)
    returns (aborted: bool, ghost scenes: seq<Scene>)
    requires i < |stands| && SeatedRow(a.reseller, i, stands, before) && AllReserved(stands, reserved)
    requires DistinctOrders(a.orders)
    requires Grows(before.accounts, Provisioning.View(panel)) && Shrinks(before.users, panel.users)
    modifies a.orders, a.reseller, panel
    ensures SeatedRow(a.reseller, i, stands, before) && Works(old(Now(panel)), panel, i, stands, before, p)
    ensures !aborted ==>
      && PartFour(i, old(Now(panel)), old(Papers(a.orders)), scenes, Now(panel), Papers(a.orders), reserved, p)
      && scenes[0] == old(SceneOf(a.reseller, panel)) && scenes[|a.orders|] == SceneOf(a.reseller, panel)
    ensures p.Mode().Some? ==> !aborted
  {
    ghost var d := DeskOf(a.reseller, panel);
    aborted, scenes := ReconcileOrdersOf(a.orders, a.reseller, panel, p.Mode(), p.turns(i), reserved);
    FrameKeepsSeat(d, DeskOf(a.reseller, panel), reserved, i, stands, before, p);
    hide LicensedBy, OrderCall, Own, Grows, AllReconciled;
  }
}
