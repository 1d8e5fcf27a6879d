/** The scheduler's loops over one reseller's children (app/scheduler/jobs.py, LifecycleRunner), its
    runtime settings, and what these loops ask of the panel. Row-level work is in Children. */
module Scheduler {
  import opened Prelude
  import opened Entitlement
  import opened RebeccaPanel
  import opened Children

  // ----- Runtime settings (app/database/settings.py) -----

  // The stored mode, or the environment's default; anything else raises.
  function OperationsMode(stored: Option<string>, envDryRun: bool): Option<bool> {
    match stored
    case None => Some(envDryRun)
    case Some(text) => if text == "dry_run" then Some(true) else if text == "live" then Some(false) else None
  }

  function GraceHours(stored: int): Option<int> {
    if 1 <= stored <= 24 * 30 then Some(stored) else None
  }

  /** The runtime mode wins over the environment, a missing one leaves it to the environment, and any other
      text raises; a grace period is one hour to thirty days. */
  lemma SettingsMean(stored: Option<string>, envDryRun: bool, hours: int)
    ensures OperationsMode(stored, envDryRun) == Some(true)
       <==> stored == Some("dry_run") || (stored.None? && envDryRun)
    ensures OperationsMode(stored, envDryRun) == Some(false)
       <==> stored == Some("live") || (stored.None? && !envDryRun)
    ensures GraceHours(hours) == if 1 <= hours <= 720 then Some(hours) else None
  {
  }

  // ----- Rows and frames -----

  predicate DistinctNames(rows: seq<ChildRow>) {
    forall i, j :: 0 <= i < j < |rows| ==> rows[i].username != rows[j].username
  }

  predicate DistinctUsers(listing: seq<User>) {
    forall i, j :: 0 <= i < j < |listing| ==> listing[i].username != listing[j].username
  }

  // ----- _sync_users, one reseller -----

  // The panel's copy, or the listing, shows the user owned, and exhausted or not.
  predicate PanelShows(users: map<string, User>, name: string, admin: string, spent: bool, now: int) {
    name in users && VerifiedOwner(users[name], admin) && UserExhausted(users[name], now) == spent
  }

  predicate ListShows(listing: seq<User>, n: nat, name: string, admin: string, spent: bool, now: int) {
    exists i :: 0 <= i < |listing| && i < n && listing[i].username == name && VerifiedOwner(listing[i], admin)
                && UserExhausted(listing[i], now) == spent
  }

  // What sync may ask of the panel, after looking at the first n listed users.
  predicate SyncCall(c: Call, parent: ResellerStatus, admin: string, listing: seq<User>, n: nat, now: int,
                     s: Settings) {
    && !s.dryRun
    && ((c.DisableUser? && s.allowDisable && ListShows(listing, n, c.username, admin, true, now))
        || (c.EnableUser? && parent == ResellerActive && ListShows(listing, n, c.username, admin, false, now)))
  }

  // The same users, apart from their status and from users gone.
  predicate Shrinks(a: map<string, User>, b: map<string, User>) {
    forall n :: n in b ==> n in a && b[n] == a[n].(status := b[n].status)
  }

  lemma ShrinksComposes(a: map<string, User>, b: map<string, User>, c: map<string, User>)
    requires Shrinks(a, b) && Shrinks(b, c)
    ensures Shrinks(a, c)
  {
  }

  lemma ShownBefore(a: map<string, User>, b: map<string, User>)
    requires Shrinks(a, b)
    ensures forall name, admin, spent, now :: PanelShows(b, name, admin, spent, now) ==>
      PanelShows(a, name, admin, spent, now)
  {
  }

  lemma SyncCallsAreLicensed(row: Child, parent: ResellerStatus, admin: string, listing: seq<User>, i: nat,
                             user: Option<User>,
                             now: int, grace: int, s: Settings, net: SyncNet)
    requires i < |listing| && VerifiedOwner(listing[i], admin)
    ensures var r := SyncedChild(row, parent, listing[i], user, now, grace, s, net);
      && (forall c :: c in r.calls ==> SyncCall(c, parent, admin, listing, i + 1, now, s))
      && (r.calls == [] ==> r.user == user)
      && (user.None? ==> r.user.None?)
      && (user.Some? ==> r.user.Some? && r.user.value == user.value.(status := r.user.value.status))
  {
  }

  method FindRow(rows: seq<ChildRow>, username: string) returns (k: nat)
    ensures k <= |rows|
    ensures k < |rows| ==> rows[k].username == username
    ensures k == |rows| ==> forall i :: 0 <= i < |rows| ==> rows[i].username != username
  {
    for i := 0 to |rows|
      invariant forall j :: 0 <= j < i ==> rows[j].username != username
    {
      if rows[i].username == username {
        return i;
      }
    }
    return |rows|;
  }

  /** The cached rows by name, the panel's users, and what was asked of the panel. */
  datatype Cache = Cache(rows: map<string, Child>, users: map<string, User>, calls: seq<Call>, aborted: bool)

  // One listed user: its row, new or known, is brought up to date.
  function SyncedOne(c: Cache, parent: ResellerStatus, admin: string, live: User, now: int, grace: int, s: Settings,
                     net: SyncNet): Cache
  {
    if c.aborted || !VerifiedOwner(live, admin) then c
    else
      var r := SyncedChild(Lookup(c.rows, live.username).GetOr(NEW_CHILD), parent, live, Lookup(c.users, live.username),
                           now, grace, s, net);
      Cache(c.rows[live.username := r.row], PutUser(c.users, live.username, r.user), c.calls + r.calls, r.aborted)
  }

  // The first n listed users, in order, up to the first exception.
  function SyncedAll(c: Cache, parent: ResellerStatus, admin: string, listing: seq<User>, n: nat, now: int, grace: int,
                     s: Settings, nets: nat -> SyncNet): Cache
    requires n <= |listing|
  {
    if n == 0 then c
    else
      SyncedOne(SyncedAll(c, parent, admin, listing, n - 1, now, grace, s, nets), parent, admin, listing[n - 1], now,
                grace, s, nets(n - 1))
  }

  predicate Listed(listing: seq<User>, n: nat, admin: string, name: string) {
    exists i :: 0 <= i < |listing| && i < n && listing[i].username == name && VerifiedOwner(listing[i], admin)
  }

  lemma ListedNext(listing: seq<User>, n: nat, admin: string)
    requires 0 < n <= |listing| && DistinctUsers(listing)
    ensures !Listed(listing, n - 1, admin, listing[n - 1].username)
    ensures forall name :: Listed(listing, n, admin, name) <==>
      Listed(listing, n - 1, admin, name) || (name == listing[n - 1].username && VerifiedOwner(listing[n - 1], admin))
    ensures forall i :: 0 <= i < n - 1 ==> listing[i].username != listing[n - 1].username
  {
  }

  lemma {:induction false} UnlistedIsUntouched(c: Cache, parent: ResellerStatus, admin: string, listing: seq<User>,
                                               n: nat,
                                               now: int, grace: int, s: Settings, nets: nat -> SyncNet, name: string)
    requires n <= |listing| && DistinctUsers(listing) && !Listed(listing, n, admin, name)
    ensures var c' := SyncedAll(c, parent, admin, listing, n, now, grace, s, nets);
      Lookup(c'.rows, name) == Lookup(c.rows, name) && Lookup(c'.users, name) == Lookup(c.users, name)
  {
    if n > 0 {
      ListedNext(listing, n, admin);
      hide VerifiedOwner, SyncedChild, Listed, DistinctUsers;
      UnlistedIsUntouched(c, parent, admin, listing, n - 1, now, grace, s, nets, name);
    }
  }

  /** The loop does what one independent visit per user would: every owned, listed user's row, and no
      other, is computed from that row and the panel's copy of that user before the pass. */
  lemma {:induction false} EveryListedRowIsSynced(c: Cache, parent: ResellerStatus, admin: string, listing: seq<User>,
                                                  n: nat,
                                                  now: int, grace: int, s: Settings, nets: nat -> SyncNet, i: nat)
    requires i < n <= |listing| && DistinctUsers(listing) && VerifiedOwner(listing[i], admin)
    requires !SyncedAll(c, parent, admin, listing, n, now, grace, s, nets).aborted
    ensures var name := listing[i].username;
      Lookup(SyncedAll(c, parent, admin, listing, n, now, grace, s, nets).rows, name)
      == Some(SyncedChild(Lookup(c.rows, name).GetOr(NEW_CHILD), parent, listing[i], Lookup(c.users, name), now, grace,
                          s, nets(i)).row)
  {
    ListedNext(listing, n, admin);
    if i == n - 1 {
      UnlistedIsUntouched(c, parent, admin, listing, n - 1, now, grace, s, nets, listing[i].username);
    } else {
      hide VerifiedOwner, SyncedChild, Listed, DistinctUsers;
      EveryListedRowIsSynced(c, parent, admin, listing, n - 1, now, grace, s, nets, i);
    }
  }

  // From c to c' only licensed requests were added; users changed at most in status, and not unasked.
  predicate SyncExtends(c: Cache, c': Cache, parent: ResellerStatus, admin: string, listing: seq<User>, n: nat,
                        now: int,
                        s: Settings)
  {
    && c.calls <= c'.calls
    && (forall k :: |c.calls| <= k < |c'.calls| ==> SyncCall(c'.calls[k], parent, admin, listing, n, now, s))
    && (c'.calls == c.calls ==> c'.users == c.users)
    && Shrinks(c.users, c'.users)
  }

  lemma OneExtends(c: Cache, parent: ResellerStatus, admin: string, listing: seq<User>, i: nat, now: int, grace: int,
                   s: Settings, net: SyncNet)
    requires i < |listing|
    ensures SyncExtends(c, SyncedOne(c, parent, admin, listing[i], now, grace, s, net), parent, admin, listing, i + 1,
                        now, s)
  {
    hide SyncedChild, UserExhausted, SyncCall;
    var live := listing[i];
    if !c.aborted && VerifiedOwner(live, admin) {
      var user := Lookup(c.users, live.username);
      var row := Lookup(c.rows, live.username).GetOr(NEW_CHILD);
      SyncCallsAreLicensed(row, parent, admin, listing, i, user, now, grace, s, net);
      assert PutUser(c.users, live.username, user) == c.users;
      var more := SyncedChild(row, parent, live, user, now, grace, s, net).calls;
      assert forall k :: |c.calls| <= k < |c.calls + more| ==> (c.calls + more)[k] in more;
    }
  }

  lemma SyncCallGrows(parent: ResellerStatus, admin: string, listing: seq<User>, n: nat, m: nat, now: int, s: Settings)
    requires n <= m
    ensures forall c :: SyncCall(c, parent, admin, listing, n, now, s) ==>
      SyncCall(c, parent, admin, listing, m, now, s)
  {
    hide VerifiedOwner, UserExhausted;
  }

  lemma SyncExtendsTwice(a: Cache, b: Cache, c: Cache, parent: ResellerStatus, admin: string, listing: seq<User>,
                         n: nat,
                         m: nat, now: int, s: Settings)
    requires n <= m && SyncExtends(a, b, parent, admin, listing, n, now, s)
    requires SyncExtends(b, c, parent, admin, listing, m, now, s)
    ensures SyncExtends(a, c, parent, admin, listing, m, now, s)
  {
    SyncCallGrows(parent, admin, listing, n, m, now, s);
    hide SyncCall;
  }

  /** What the loop asks of the panel: nothing in dry run; switching off only listed, owned, exhausted
      users and with the permission; switching on only listed, owned users that are not exhausted, under
      an active parent. Nothing but users' status changes there, and nothing unasked. */
  lemma {:induction false} SyncStaysLicensed(c: Cache, parent: ResellerStatus, admin: string, listing: seq<User>,
                                             n: nat,
                                             now: int, grace: int, s: Settings, nets: nat -> SyncNet)
    requires n <= |listing|
    ensures SyncExtends(c, SyncedAll(c, parent, admin, listing, n, now, grace, s, nets), parent, admin, listing, n,
                        now, s)
  {
    hide SyncedOne;
    if n > 0 {
      var mid := SyncedAll(c, parent, admin, listing, n - 1, now, grace, s, nets);
      var c' := SyncedAll(c, parent, admin, listing, n, now, grace, s, nets);
      assert c' == SyncedOne(mid, parent, admin, listing[n - 1], now, grace, s, nets(n - 1));
      hide SyncedAll, SyncExtends;
      SyncStaysLicensed(c, parent, admin, listing, n - 1, now, grace, s, nets);
      OneExtends(mid, parent, admin, listing, n - 1, now, grace, s, nets(n - 1));
      SyncExtendsTwice(c, mid, c', parent, admin, listing, n - 1, n, now, s);
    }
  }

  // The rows as a table. Names are distinct, so each row has its own entry.
  ghost function Table(rows: seq<ChildRow>): map<string, Child>
    requires DistinctNames(rows)
    reads rows
  {
    map k | 0 <= k < |rows| :: rows[k].username := rows[k].Image()
  }

  lemma TableGrows(rows: seq<ChildRow>, row: ChildRow)
    requires DistinctNames(rows) && forall k :: 0 <= k < |rows| ==> rows[k].username != row.username
    ensures DistinctNames(rows + [row])
    ensures Table(rows + [row]) == Table(rows)[row.username := row.Image()]
  {
    var rows' := rows + [row];
    assert rows'[|rows|] == row;
    assert forall k :: 0 <= k < |rows| ==> rows'[k] == rows[k];
    forall name | name in Table(rows)[row.username := row.Image()] ensures name in Table(rows') {
      if name != row.username {
        var k :| 0 <= k < |rows| && rows[k].username == name;
        assert rows'[k].username == name;
      }
    }
  }

  method SyncKnown(rows: seq<ChildRow>, k: nat, parent: ResellerStatus, live: User, panel: Panel, now: int, grace: int,
                   s: Settings, net: SyncNet)
    returns (aborted: bool)
    requires DistinctNames(rows) && k < |rows| && rows[k].username == live.username
    modifies rows[k], panel
    ensures var r := SyncedChild(old(rows[k].Image()), parent, live, Lookup(old(panel.users), live.username), now,
                                 grace, s, net);
      && Table(rows) == old(Table(rows))[live.username := r.row]
      && panel.users == PutUser(old(panel.users), live.username, r.user)
      && panel.calls == old(panel.calls) + r.calls && aborted == r.aborted
    ensures panel.admins == old(panel.admins) && panel.passwords == old(panel.passwords)
  {
    hide SyncedChild, PutUser, Lookup;
    aborted := SyncUser(rows[k], parent, live, panel, now, grace, s, net);
  }

  method FindOrAdd(rows: seq<ChildRow>, username: string) returns (rows': seq<ChildRow>, k: nat)
    requires DistinctNames(rows)
    ensures rows <= rows' && DistinctNames(rows') && k < |rows'| && rows'[k].username == username
    ensures fresh(set j | |rows| <= j < |rows'| :: rows'[j])
    ensures rows'[k].Image() == Lookup(Table(rows), username).GetOr(NEW_CHILD)
    ensures Table(rows') == Table(rows)[username := rows'[k].Image()]
  {
    rows' := rows;
    k := FindRow(rows, username);
    if k == |rows| {
      var row := new ChildRow(username);
      rows' := rows + [row];
      TableGrows(rows, row);
    } else {
      assert Table(rows)[username] == rows[k].Image();
    }
  }

  method SyncListed(rows: seq<ChildRow>, parent: ResellerStatus, live: User, panel: Panel, now: int, grace: int,
                    s: Settings, net: SyncNet)
    returns (rows': seq<ChildRow>, aborted: bool)
    requires DistinctNames(rows)
    modifies rows, panel
    ensures rows <= rows' && DistinctNames(rows') && fresh(set k | |rows| <= k < |rows'| :: rows'[k])
    ensures var r := SyncedChild(Lookup(old(Table(rows)), live.username).GetOr(NEW_CHILD), parent, live,
                                 Lookup(old(panel.users), live.username), now, grace, s, net);
      && Table(rows') == old(Table(rows))[live.username := r.row]
      && panel.users == PutUser(old(panel.users), live.username, r.user)
      && panel.calls == old(panel.calls) + r.calls && aborted == r.aborted
    ensures panel.admins == old(panel.admins) && panel.passwords == old(panel.passwords)
  {
    hide SyncedChild, PutUser, Lookup, Table;
    var k;
    rows', k := FindOrAdd(rows, live.username);
    aborted := SyncKnown(rows', k, parent, live, panel, now, grace, s, net);
  }

  // The table has the exhausted user down as such: detected now if it was not before.
  predicate Detected(before: map<string, Child>, after: map<string, Child>, live: User, now: int, grace: int) {
    && live.username in after && after[live.username].detectedAt.Some?
    && (Lookup(before, live.username).GetOr(NEW_CHILD).detectedAt.None? ==>
          && after[live.username].local == LocalExpired
          && after[live.username].detectedAt == Some(now)
          && after[live.username].deleteAfter == Some(now + grace * 3_600_000_000))
  }

  // Every request and read of the loop is answered, and the panel still has every listed user.
  predicate CleanListing(users: map<string, User>, listing: seq<User>, nets: nat -> SyncNet) {
    forall i: nat :: i < |listing| ==> CleanSync(nets(i)) && listing[i].username in users
  }

  // No user disappears in the loop.
  lemma {:induction false} UsersStay(c: Cache, parent: ResellerStatus, admin: string, listing: seq<User>, n: nat,
                                     now: int, grace: int, s: Settings, nets: nat -> SyncNet)
    requires n <= |listing|
    ensures c.users.Keys <= SyncedAll(c, parent, admin, listing, n, now, grace, s, nets).users.Keys
  {
    if n > 0 {
      UsersStay(c, parent, admin, listing, n - 1, now, grace, s, nets);
      var mid := SyncedAll(c, parent, admin, listing, n - 1, now, grace, s, nets);
      var live := listing[n - 1];
      TurnKeepsUser(Lookup(mid.rows, live.username).GetOr(NEW_CHILD), parent, live, Lookup(mid.users, live.username),
                    now, grace, s, nets(n - 1));
      hide SyncedChild, VerifiedOwner;
    }
  }

  /** Nothing else cuts the loop short. */
  lemma {:induction false} CleanLoopRuns(c: Cache, parent: ResellerStatus, admin: string, listing: seq<User>, n: nat,
                                         now: int, grace: int, s: Settings, nets: nat -> SyncNet)
    requires n <= |listing| && !c.aborted && CleanListing(c.users, listing, nets)
    ensures !SyncedAll(c, parent, admin, listing, n, now, grace, s, nets).aborted
  {
    if n > 0 {
      CleanLoopRuns(c, parent, admin, listing, n - 1, now, grace, s, nets);
      UsersStay(c, parent, admin, listing, n - 1, now, grace, s, nets);
      var mid := SyncedAll(c, parent, admin, listing, n - 1, now, grace, s, nets);
      var live := listing[n - 1];
      TurnKeepsUser(Lookup(mid.rows, live.username).GetOr(NEW_CHILD), parent, live, Lookup(mid.users, live.username),
                    now, grace, s, nets(n - 1));
      hide SyncedChild, VerifiedOwner;
    }
  }

  lemma TurnKeepsUser(row: Child, parent: ResellerStatus, live: User, user: Option<User>, now: int, grace: int,
                      s: Settings, net: SyncNet)
    ensures var r := SyncedChild(row, parent, live, user, now, grace, s, net);
      (user.Some? <==> r.user.Some?) && (CleanSync(net) && user.Some? ==> !r.aborted)
  {
    hide UserExhausted;
  }

  /** A loop that is not cut short leaves no owned, listed, exhausted user without a detection. */
  lemma ExhaustedListedAreDetected(c: Cache, parent: ResellerStatus, admin: string, listing: seq<User>, now: int,
                                   grace: int, s: Settings, nets: nat -> SyncNet)
    requires DistinctUsers(listing)
    requires !SyncedAll(c, parent, admin, listing, |listing|, now, grace, s, nets).aborted
    ensures forall i :: 0 <= i < |listing| && OwnedBy(listing[i], admin) && Spent(listing[i], now) ==>
      Detected(c.rows, SyncedAll(c, parent, admin, listing, |listing|, now, grace, s, nets).rows, listing[i], now,
               grace)
  {
    forall i | 0 <= i < |listing| && OwnedBy(listing[i], admin) && Spent(listing[i], now)
      ensures Detected(c.rows, SyncedAll(c, parent, admin, listing, |listing|, now, grace, s, nets).rows, listing[i],
                       now, grace)
    {
      var name := listing[i].username;
      EveryListedRowIsSynced(c, parent, admin, listing, |listing|, now, grace, s, nets, i);
      var row := Lookup(c.rows, name).GetOr(NEW_CHILD);
      if row.detectedAt.None? {
        ExhaustedUserIsScheduled(row, parent, listing[i], Lookup(c.users, name), now, grace, s, nets(i));
      } else {
        OtherUsersStay(row, parent, listing[i], Lookup(c.users, name), now, grace, s, nets(i));
      }
      hide SyncedAll, SyncedChild, DistinctUsers;
    }
  }

  method SyncUsersOf(rows: seq<ChildRow>, parent: ResellerStatus, admin: string, listing: seq<User>, panel: Panel,
                     now: int, grace: int, s: Settings, nets: nat -> SyncNet)
    returns (rows': seq<ChildRow>, aborted: bool)
    requires DistinctNames(rows)
    modifies rows, panel
    ensures rows <= rows' && DistinctNames(rows') && fresh(set k | |rows| <= k < |rows'| :: rows'[k])
    ensures Cache(Table(rows'), panel.users, panel.calls, aborted)
         == SyncedAll(old(Cache(Table(rows), panel.users, panel.calls, false)), parent, admin, listing, |listing|, now,
                      grace, s, nets)
    ensures CleanListing(old(panel.users), listing, nets) ==> !aborted
    ensures old(panel.users).Keys <= panel.users.Keys
    ensures !aborted && DistinctUsers(listing) ==>
      forall i :: 0 <= i < |listing| && OwnedBy(listing[i], admin) && Spent(listing[i], now) ==>
        Detected(old(Table(rows)), Table(rows'), listing[i], now, grace)
    ensures panel.admins == old(panel.admins) && panel.passwords == old(panel.passwords)
  {
    ghost var c0 := Cache(Table(rows), panel.users, panel.calls, false);
    hide VerifiedOwner, SyncedChild, Detected, OwnedBy, Spent, CleanListing;
    rows', aborted := rows, false;
    for i := 0 to |listing|
      invariant rows <= rows' && DistinctNames(rows') && fresh(set k | |rows| <= k < |rows'| :: rows'[k])
      invariant Cache(Table(rows'), panel.users, panel.calls, aborted)
             == SyncedAll(old(Cache(Table(rows), panel.users, panel.calls, false)), parent, admin, listing, i, now,
                          grace, s, nets)
      invariant panel.admins == old(panel.admins) && panel.passwords == old(panel.passwords)
    {
      if !aborted && VerifiedOwner(listing[i], admin) {
        rows', aborted := SyncListed(rows', parent, listing[i], panel, now, grace, s, nets(i));
      }
    }
    UsersStay(c0, parent, admin, listing, |listing|, now, grace, s, nets);
    if CleanListing(c0.users, listing, nets) {
      CleanLoopRuns(c0, parent, admin, listing, |listing|, now, grace, s, nets);
    }
    if !aborted && DistinctUsers(listing) {
      ExhaustedListedAreDetected(c0, parent, admin, listing, now, grace, s, nets);
    }
  }

  // ----- _due_deletions, one reseller -----

  predicate MayDelete(s: Settings) {
    !s.dryRun && s.destructive && s.allowDelete
  }

  // A row, its user and the requests for it after the pass: rows not selected are left alone.
  function DueOutcome(row: Child, name: string, owner: string, hold: bool, user: Option<User>, now: int, s: Settings,
                      delivered: bool, net: DeleteNet): Synced
  {
    if Selected(row, now) then DueChild(row, name, owner, hold, user, now, s, delivered, net)
    else Synced(row, user, [], false)
  }

  // What the deletion pass may ask of the panel.
  predicate DeleteCall(c: Call, users: map<string, User>, admin: string, hold: bool, now: int, s: Settings) {
    c.DeleteUser? && MayDelete(s) && !hold && PanelShows(users, c.username, admin, true, now)
  }

  lemma DeletesAreLicensed(row: Child, name: string, owner: string, hold: bool, users: map<string, User>, now: int,
                           s: Settings, delivered: bool, net: DeleteNet)
    requires row.deleteAfter.Some?
    ensures var r := DueChild(row, name, owner, hold, Lookup(users, name), now, s, delivered, net);
      && (r.calls == [] || (r.calls == [DeleteUser(name)] && DeleteCall(DeleteUser(name), users, owner, hold, now, s)))
      && (r.calls == [] ==> PutUser(users, name, r.user) == users)
      && PutUser(users, name, r.user) in {users, users - {name}}
  {
    assert PutUser(users, name, Lookup(users, name)) == users;
    DeletesExactlyWhenGuarded(Lookup(users, name), name, owner, row.deleteAfter.value, now, s, row.hold || hold, false,
                              net);
  }

  method DeleteIfDue(row: ChildRow, admin: string, hold: bool, panel: Panel, now: int, s: Settings, delivered: bool,
                     net: DeleteNet)
    returns (aborted: bool)
    modifies row, panel
    ensures var r := DueOutcome(old(row.Image()), row.username, admin, hold, Lookup(old(panel.users), row.username),
                                now, s, delivered, net);
      && row.Image() == r.row && Lookup(panel.users, row.username) == r.user
      && panel.calls == old(panel.calls) + r.calls && aborted == r.aborted
    ensures forall k :: |old(panel.calls)| <= k < |panel.calls| ==>
      DeleteCall(panel.calls[k], old(panel.users), admin, hold, now, s)
    ensures panel.users in {old(panel.users), old(panel.users) - {row.username}}
    ensures panel.calls == old(panel.calls) ==> panel.users == old(panel.users)
    ensures panel.admins == old(panel.admins) && panel.passwords == old(panel.passwords)
  {
    aborted := false;
    if row.deleteAfter.Some? && row.deleteAfter.value <= now + DAY {
      DeletesAreLicensed(row.Image(), row.username, admin, hold, panel.users, now, s, delivered, net);
      hide DueChild, DeleteCall;
      aborted := DeleteDue(row, admin, hold, panel, now, s, delivered, net);
    }
  }

  // The row and its user are what the row's turn leaves, and what it asks was sent.
  predicate DueOk(row: Child, name: string, admin: string, hold: bool, user: Option<User>, row': Child,
                  user': Option<User>, sent: seq<Call>, now: int, s: Settings, delivered: bool, net: DeleteNet) {
    var r := DueOutcome(row, name, admin, hold, user, now, s, delivered, net);
    row' == r.row && user' == r.user && forall c :: c in r.calls ==> c in sent
  }

  predicate AllDue(kids: seq<Child>, names: seq<string>, admin: string, hold: bool, users: map<string, User>,
                   kids': seq<Child>, users': map<string, User>, sent: seq<Call>, now: int, s: Settings,
                   delivered: nat -> bool, nets: nat -> DeleteNet) {
    && |names| == |kids| == |kids'|
    && forall k: nat :: k < |kids| ==>
         DueOk(kids[k], names[k], admin, hold, Lookup(users, names[k]), kids'[k], Lookup(users', names[k]), sent, now,
               s, delivered(k), nets(k))
  }

  lemma DueOkGrows(row: Child, name: string, admin: string, hold: bool, user: Option<User>, row': Child,
                   user': Option<User>, sent: seq<Call>, more: seq<Call>, now: int, s: Settings, delivered: bool,
                   net: DeleteNet)
    requires DueOk(row, name, admin, hold, user, row', user', sent, now, s, delivered, net)
    ensures DueOk(row, name, admin, hold, user, row', user', sent + more, now, s, delivered, net)
  {
    hide DueOutcome;
  }

  /** Every due row is handled from its own state and the panel's copy of its user before the pass, and what
      that asks is sent; no row that is not due changes; deletes are sent only with all permissions,
      without a hold, and for users the panel shows owned and exhausted. */
  method DeleteDueOf(rows: seq<ChildRow>, admin: string, hold: bool, panel: Panel, now: int, s: Settings,
                     delivered: nat -> bool, nets: nat -> DeleteNet)
    returns (aborted: bool)
    requires DistinctNames(rows)
    modifies rows, panel
    ensures old(panel.calls) <= panel.calls
    ensures (forall k: nat :: k < |rows| ==> CleanDelete(nets(k))) ==> !aborted
    ensures !aborted ==>
      AllDue(old(Images(rows)), NamesOf(rows), admin, hold, old(panel.users), Images(rows), panel.users,
             panel.calls[|old(panel.calls)|..], now, s, delivered, nets)
    ensures forall k :: |old(panel.calls)| <= k < |panel.calls| ==>
      DeleteCall(panel.calls[k], old(panel.users), admin, hold, now, s)
    ensures Shrinks(old(panel.users), panel.users)
    ensures panel.calls == old(panel.calls) ==> panel.users == old(panel.users)
    ensures panel.admins == old(panel.admins) && panel.passwords == old(panel.passwords)
  {
    hide DueOutcome, DeleteCall, DueOk, CleanDelete;
    ghost var users0 := panel.users;
    ghost var sent: seq<Call> := [];
    aborted := false;
    for i := 0 to |rows|
      invariant forall k: nat :: k < i ==>
        DueOk(old(rows[k].Image()), rows[k].username, admin, hold, Lookup(users0, rows[k].username), rows[k].Image(),
              Lookup(panel.users, rows[k].username), sent, now, s, delivered(k), nets(k))
      invariant forall k :: i <= k < |rows| ==>
        && rows[k].Image() == old(rows[k].Image())
        && Lookup(panel.users, rows[k].username) == Lookup(users0, rows[k].username)
      invariant panel.calls == old(panel.calls) + sent
      invariant forall k :: |old(panel.calls)| <= k < |panel.calls| ==>
        DeleteCall(panel.calls[k], users0, admin, hold, now, s)
      invariant forall n :: n in panel.users ==> n in users0 && panel.users[n] == users0[n]
      invariant panel.calls == old(panel.calls) ==> panel.users == users0
      invariant panel.admins == old(panel.admins) && panel.passwords == old(panel.passwords)
    {
      DeleteCallsWereGuarded(panel.users, users0, admin, hold, now, s);
      ghost var was := sent;
      ghost var r := DueOutcome(rows[i].Image(), rows[i].username, admin, hold, Lookup(panel.users, rows[i].username),
                                now, s, delivered(i), nets(i));
      CleanDueRuns(rows[i].Image(), rows[i].username, admin, hold, Lookup(panel.users, rows[i].username), now, s,
                   delivered(i), nets(i));
      aborted := DeleteIfDue(rows[i], admin, hold, panel, now, s, delivered(i), nets(i));
      sent := sent + r.calls;
      if aborted {
        return;
      }
      forall k: nat | k < i
        ensures DueOk(old(rows[k].Image()), rows[k].username, admin, hold, Lookup(users0, rows[k].username),
                      rows[k].Image(), Lookup(panel.users, rows[k].username), sent, now, s, delivered(k), nets(k))
      {
        DueOkGrows(old(rows[k].Image()), rows[k].username, admin, hold, Lookup(users0, rows[k].username),
                   rows[k].Image(), Lookup(panel.users, rows[k].username), was, r.calls, now, s, delivered(k), nets(k));
      }
      OutcomeIsOk(old(rows[i].Image()), rows[i].username, admin, hold, Lookup(users0, rows[i].username), was, now, s,
                  delivered(i), nets(i));
    }
    assert panel.calls[|old(panel.calls)|..] == sent;
  }

  lemma CleanDueRuns(row: Child, name: string, admin: string, hold: bool, user: Option<User>, now: int, s: Settings,
                     delivered: bool, net: DeleteNet)
    ensures CleanDelete(net) ==> !DueOutcome(row, name, admin, hold, user, now, s, delivered, net).aborted
  {
    hide VerifiedOwner, UserExhausted;
  }

  lemma OutcomeIsOk(row: Child, name: string, admin: string, hold: bool, user: Option<User>, sent: seq<Call>, now: int,
                    s: Settings, delivered: bool, net: DeleteNet)
    ensures var r := DueOutcome(row, name, admin, hold, user, now, s, delivered, net);
      DueOk(row, name, admin, hold, user, r.row, r.user, sent + r.calls, now, s, delivered, net)
  {
    hide DueOutcome;
  }

  lemma DeleteCallsWereGuarded(users: map<string, User>, users0: map<string, User>, admin: string, hold: bool,
                               now: int, s: Settings)
    requires forall n :: n in users ==> n in users0 && users[n] == users0[n]
    ensures forall c :: DeleteCall(c, users, admin, hold, now, s) ==> DeleteCall(c, users0, admin, hold, now, s)
  {
  }
}
