/** Service users of a reseller: safe_delete (app/users/lifecycle.py) and the per-row work of
    _sync_users, _due_deletions and the parent-renewal loop (app/scheduler/jobs.py). */
module Children {
  import opened Prelude
  import opened Wire
  import opened Entitlement
  import opened RebeccaPanel

  /** Environment switches (app/config.py). */
  datatype Settings = Settings(dryRun: bool, destructive: bool, allowDisable: bool, allowDelete: bool)

  datatype LocalStatus = LocalActive | LocalExpired | LocalDeleted

  /** One row of reseller_users, without its copies of live data. */
  datatype Child = Child(
    local: LocalStatus,
    detectedAt: Option<int>,
    deleteAfter: Option<int>,
    warnedAt: Option<int>,
    hold: bool,
    byParent: bool,
    byOwn: bool)

  const NEW_CHILD := Child(LocalActive, None, None, None, false, false, false)

  // ----- safe_delete -----

  datatype Verdict =
    | Held | NotDue | WouldDelete | DeleteDisabled | Locked
    | AlreadyMissing | OwnershipMismatch | Renewed | Removed

  datatype DeleteNet = DeleteNet(readable: bool, delivery: Delivery, confirmable: bool)

  /** What a call left behind; no verdict means it raised. */
  datatype Deletion = Deletion(user: Option<User>, calls: seq<Call>, verdict: Option<Verdict>)

  // Every reason to leave the user alone before asking the panel anything.
  predicate Permitted(deleteAfter: int, now: int, s: Settings, hold: bool, locked: bool) {
    !hold && now >= deleteAfter && !s.dryRun && s.destructive && s.allowDelete && !locked
  }

  function SafeDeletion(user: Option<User>, name: string, owner: string, deleteAfter: int, now: int,
                        s: Settings, hold: bool, locked: bool, net: DeleteNet): Deletion
  {
    if hold then Deletion(user, [], Some(Held))
    else if now < deleteAfter then Deletion(user, [], Some(NotDue))
    else if s.dryRun then Deletion(user, [], Some(WouldDelete))
    else if !s.destructive || !s.allowDelete then Deletion(user, [], Some(DeleteDisabled))
    else if locked then Deletion(user, [], Some(Locked))
    else if !net.readable then Deletion(user, [], None)
    else if user.None? then Deletion(user, [], Some(AlreadyMissing))
    else if !VerifiedOwner(user.value, owner) then Deletion(user, [], Some(OwnershipMismatch))
    else if !UserExhausted(user.value, now) then Deletion(user, [], Some(Renewed))
    else
      var left := if net.delivery.executed then None else user;
      var sure := net.delivery.acknowledged && net.confirmable && left.None?;
      Deletion(left, [DeleteUser(name)], if sure then Some(Removed) else None)
  }

  method SafeDelete(panel: Panel, name: string, owner: string, deleteAfter: int, now: int, s: Settings,
                    hold: bool, locked: bool, net: DeleteNet)
    returns (verdict: Option<Verdict>)
    modifies panel
    ensures var d := SafeDeletion(Lookup(old(panel.users), name), name, owner, deleteAfter, now, s, hold, locked, net);
      && panel.users == PutUser(old(panel.users), name, d.user)
      && panel.calls == old(panel.calls) + d.calls && verdict == d.verdict
    ensures panel.admins == old(panel.admins) && panel.passwords == old(panel.passwords)
  {
    if hold {
      return Some(Held);
    }
    if now < deleteAfter {
      return Some(NotDue);
    }
    if s.dryRun {
      return Some(WouldDelete);
    }
    if !s.destructive || !s.allowDelete {
      return Some(DeleteDisabled);
    }
    if locked {
      return Some(Locked);
    }
    var live := panel.GetUser(name, net.readable);
    if live.Unavailable? {
      return None;
    }
    if live.value.None? {
      return Some(AlreadyMissing);
    }
    if !VerifiedOwner(live.value.value, owner) {
      return Some(OwnershipMismatch);
    }
    if !UserExhausted(live.value.value, now) {
      return Some(Renewed);
    }
    var ok := panel.RemoveUser(name, net.delivery);
    if !ok {
      return None;
    }
    var after := panel.GetUser(name, net.confirmable);
    if after.Unavailable? || after.value.Some? {
      return None;
    }
    return Some(Removed);
  }

  // In the words of the source: the expiry has come, or a positive limit is used up.
  predicate Spent(u: User, now: int) {
    || (u.expire.Some? && u.expire.value <= now)
    || (u.dataLimit.Some? && u.dataLimit.value > 0 && u.dataLimit.value <= u.used)
  }

  // The user names this administrator as its owner.
  predicate OwnedBy(u: User, admin: string) {
    u.owner == Some(admin) && admin != ""
  }

  /** A delete request is issued exactly when nothing forbids it and the final read shows an owned,
      exhausted user; nothing else ever leaves the panel; and the good verdict means the user is gone. */
  lemma DeletesExactlyWhenGuarded(user: Option<User>, name: string, owner: string, deleteAfter: int, now: int,
                                  s: Settings, hold: bool, locked: bool, net: DeleteNet)
    ensures var d := SafeDeletion(user, name, owner, deleteAfter, now, s, hold, locked, net);
      && (d.calls != [] <==>
            && Permitted(deleteAfter, now, s, hold, locked) && net.readable
            && user.Some? && VerifiedOwner(user.value, owner) && UserExhausted(user.value, now))
      && (d.user != user ==> d.calls == [DeleteUser(name)] && d.user == None)
      && (d.verdict == Some(Removed) ==> user.Some? && d.user == None)
  {
  }

  /** The same in the source's own conditions, and the verdicts: the first reason that applies, in the
      order they are looked at; removal is reported exactly when it was executed, answered and read back. */
  lemma VerdictsInOrder(user: Option<User>, name: string, owner: string, deleteAfter: int, now: int,
                        s: Settings, hold: bool, locked: bool, net: DeleteNet)
    ensures var d := SafeDeletion(user, name, owner, deleteAfter, now, s, hold, locked, net);
      var asked := !hold && deleteAfter <= now && !s.dryRun && s.destructive && s.allowDelete && !locked && net.readable
                   && user.Some? && OwnedBy(user.value, owner) && Spent(user.value, now);
      && d.calls == (if asked then [DeleteUser(name)] else [])
      && d.user == (if asked && net.delivery.executed then None else user)
      && (d.verdict == Some(Held) <==> hold)
      && (d.verdict == Some(NotDue) <==> !hold && now < deleteAfter)
      && (d.verdict == Some(WouldDelete) <==> !hold && deleteAfter <= now && s.dryRun)
      && (d.verdict == Some(DeleteDisabled) <==>
            !hold && deleteAfter <= now && !s.dryRun && !(s.destructive && s.allowDelete))
      && (d.verdict == Some(Removed) <==>
            asked && net.delivery.executed && net.delivery.acknowledged && net.confirmable)
      && (d.verdict == Some(Renewed) ==> user.Some? && OwnedBy(user.value, owner) && !Spent(user.value, now))
      && (d.verdict == Some(OwnershipMismatch) ==> user.Some? && !OwnedBy(user.value, owner))
      && (d.verdict == Some(AlreadyMissing) ==> user.None?)
  {
  }

  // ----- One listed user in _sync_users -----

  datatype SyncNet = SyncNet(delivery: Delivery, checkable: bool)

  // Every request and read was answered.
  predicate CleanSync(net: SyncNet) {
    net.delivery.acknowledged && net.checkable
  }

  predicate CleanDelete(net: DeleteNet) {
    net.readable && net.delivery.executed && net.delivery.acknowledged && net.confirmable
  }

  const CLEAN_DELETE := DeleteNet(true, Delivery(true, true), true)

  /** Row and panel after one row's work; `aborted` when an exception ends the pass. */
  datatype Synced = Synced(row: Child, user: Option<User>, calls: seq<Call>, aborted: bool)

  function Scheduled(row: Child, now: int, grace: int): Child {
    row.(detectedAt := Some(now), deleteAfter := Some(now + grace * HOUR), local := LocalExpired)
  }

  function Cleared(row: Child): Child {
    row.(detectedAt := None, deleteAfter := None, warnedAt := None, byOwn := false, local := LocalActive)
  }

  function AfterCall(user: Option<User>, status: Status, d: Delivery): Option<User> {
    if d.executed && user.Some? then Some(user.value.(status := status)) else user
  }

  // The request was answered and the follow-up read answered.
  predicate Answered(user: Option<User>, net: SyncNet) {
    net.delivery.acknowledged && user.Some? && net.checkable
  }

  predicate Shows(user: Option<User>, status: Status) {
    user.Some? && NormalizeStatus(user.value.status) == status
  }

  // Scheduling a deletion, switching the user off when automation may.
  function Expiring(row: Child, name: string, user: Option<User>, now: int, grace: int, s: Settings,
                    net: SyncNet): Synced {
    var scheduled := Scheduled(row, now, grace);
    if s.dryRun || !s.allowDisable then Synced(scheduled, user, [], false)
    else
      var user' := AfterCall(user, Disabled, net.delivery);
      var calls := [DisableUser(name)];
      if !Answered(user, net) then Synced(scheduled, user', calls, true)
      else if !Shows(user', Disabled) then Synced(scheduled, user', calls, false)
      else Synced(scheduled.(byOwn := true), user', calls, false)
  }

  // Calling a scheduled deletion off, switching the user on again if its own expiry had it switched off.
  function Renewing(row: Child, parent: ResellerStatus, name: string, user: Option<User>, s: Settings,
                    net: SyncNet): Synced {
    if row.byOwn && parent == ResellerActive && !s.dryRun then
      var user' := AfterCall(user, Active, net.delivery);
      var calls := [EnableUser(name)];
      if !Answered(user, net) then Synced(row, user', calls, true)
      else if !Shows(user', Active) then Synced(row, user', calls, false)
      else Synced(Cleared(row), user', calls, false)
    else Synced(Cleared(row), user, [], false)
  }

  // `live` is the user as listed, `user` as the panel holds it when the row is processed.
  function SyncedChild(row: Child, parent: ResellerStatus, live: User, user: Option<User>, now: int, grace: int,
                       s: Settings, net: SyncNet): Synced
  {
    var spent := UserExhausted(live, now);
    if spent && row.detectedAt.None? then Expiring(row, live.username, user, now, grace, s, net)
    else if !spent && row.deleteAfter.Some? then Renewing(row, parent, live.username, user, s, net)
    else Synced(row, user, [], false)
  }

  /** Detection: an exhausted user without one is marked expired and due a grace period later; it is asked
      off exactly when automation may, and flagged exactly when that was answered and read back. */
  lemma ExhaustedUserIsScheduled(row: Child, parent: ResellerStatus, live: User, user: Option<User>, now: int,
                                 grace: int, s: Settings, net: SyncNet)
    requires row.detectedAt.None? && Spent(live, now)
    ensures var r := SyncedChild(row, parent, live, user, now, grace, s, net);
      var asked := !s.dryRun && s.allowDisable;
      var off := if asked && net.delivery.executed && user.Some? then Some(user.value.(status := Disabled)) else user;
      var answered := net.delivery.acknowledged && user.Some? && net.checkable;
      var flagged := asked && answered && (off.value.status == Disabled || off.value.status == Inactive);
      && r.row == row.(local := LocalExpired, detectedAt := Some(now), deleteAfter := Some(now + grace * 3_600_000_000),
                       byOwn := row.byOwn || flagged)
      && r.calls == (if asked then [DisableUser(live.username)] else [])
      && r.user == off
      && (r.aborted <==> asked && !answered)
  {
  }

  /** Renewal: a scheduled user that is not exhausted any more loses schedule, warning and flag, after it
      was asked on and read back where its flag, an active parent and live mode call for that. */
  lemma RenewedUserIsCleared(row: Child, parent: ResellerStatus, live: User, user: Option<User>, now: int,
                             grace: int, s: Settings, net: SyncNet)
    requires row.deleteAfter.Some? && !Spent(live, now)
    ensures var r := SyncedChild(row, parent, live, user, now, grace, s, net);
      var asked := row.byOwn && parent == ResellerActive && !s.dryRun;
      var on := if asked && net.delivery.executed && user.Some? then Some(user.value.(status := Active)) else user;
      var answered := net.delivery.acknowledged && user.Some? && net.checkable;
      var shown := answered && (on.value.status == Active || on.value.status == Enabled);
      && r.row == (if asked && !shown then row
                   else row.(local := LocalActive, detectedAt := None, deleteAfter := None, warnedAt := None,
                             byOwn := false))
      && r.calls == (if asked then [EnableUser(live.username)] else [])
      && r.user == on
      && (r.aborted <==> asked && !answered)
  {
  }

  /** In all other cases a sync leaves row and user alone. */
  lemma OtherUsersStay(row: Child, parent: ResellerStatus, live: User, user: Option<User>, now: int, grace: int,
                       s: Settings, net: SyncNet)
    requires if Spent(live, now) then row.detectedAt.Some? else row.deleteAfter.None?
    ensures SyncedChild(row, parent, live, user, now, grace, s, net) == Synced(row, user, [], false)
  {
  }

  /** "A renewed child is switched on again" holds exactly under an active parent outside dry run: the
      schedule and the flag are dropped either way, and then nothing remembers that automation had
      switched the child off. */
  lemma RenewedChildIsEnabledIff(row: Child, parent: ResellerStatus, live: User, user: User, now: int,
                                 grace: int, s: Settings)
    requires row.byOwn && row.deleteAfter.Some? && !UserExhausted(live, now)
    requires NormalizeStatus(user.status) == Disabled
    ensures var r := SyncedChild(row, parent, live, Some(user), now, grace, s, SyncNet(Delivery(true, true), true));
      && !r.aborted && r.row == Cleared(row)
      && (Shows(r.user, Active) <==> parent == ResellerActive && !s.dryRun)
  {
  }

  class ChildRow {
    const username: string
    var local: LocalStatus
    var detectedAt: Option<int>
    var deleteAfter: Option<int>
    var warnedAt: Option<int>
    var hold: bool
    var byParent: bool
    var byOwn: bool

    constructor (username: string)
      ensures this.username == username && Image() == NEW_CHILD
    {
      this.username := username;
      local, detectedAt, deleteAfter, warnedAt := LocalActive, None, None, None;
      hold, byParent, byOwn := false, false, false;
    }

    ghost function Image(): Child
      reads this
    {
      Child(local, detectedAt, deleteAfter, warnedAt, hold, byParent, byOwn)
    }
  }

  // The rows as values, and their names, which never change.
  ghost function Images(rows: seq<ChildRow>): seq<Child>
    reads rows
  {
    seq(|rows|, k requires 0 <= k < |rows| reads rows => rows[k].Image())
  }

  function NamesOf(rows: seq<ChildRow>): seq<string> {
    seq(|rows|, k requires 0 <= k < |rows| => rows[k].username)
  }

  method ExpireUser(row: ChildRow, panel: Panel, now: int, grace: int, s: Settings, net: SyncNet)
    returns (aborted: bool)
    modifies row, panel
    ensures var r := Expiring(old(row.Image()), row.username, Lookup(old(panel.users), row.username), now, grace, s,
                              net);
      && row.Image() == r.row && panel.users == PutUser(old(panel.users), row.username, r.user)
      && panel.calls == old(panel.calls) + r.calls && aborted == r.aborted
    ensures panel.admins == old(panel.admins) && panel.passwords == old(panel.passwords)
  {
    hide NormalizeStatus;
    row.detectedAt := Some(now);
    row.deleteAfter := Some(now + grace * HOUR);
    row.local := LocalExpired;
    if !s.dryRun && s.allowDisable {
      var ok := panel.SetUserStatus(row.username, Disabled, net.delivery);
      if !ok {
        return true;
      }
      var after := panel.GetUser(row.username, net.checkable);
      if after.Unavailable? {
        return true;
      }
      if after.value.None? || NormalizeStatus(after.value.value.status) != Disabled {
        return false;
      }
      row.byOwn := true;
    }
    return false;
  }

  method RenewUser(row: ChildRow, parent: ResellerStatus, panel: Panel, s: Settings, net: SyncNet)
    returns (aborted: bool)
    modifies row, panel
    ensures var r := Renewing(old(row.Image()), parent, row.username, Lookup(old(panel.users), row.username), s, net);
      && row.Image() == r.row && panel.users == PutUser(old(panel.users), row.username, r.user)
      && panel.calls == old(panel.calls) + r.calls && aborted == r.aborted
    ensures panel.admins == old(panel.admins) && panel.passwords == old(panel.passwords)
  {
    hide NormalizeStatus;
    if row.byOwn && parent == ResellerActive && !s.dryRun {
      var ok := panel.SetUserStatus(row.username, Active, net.delivery);
      if !ok {
        return true;
      }
      var after := panel.GetUser(row.username, net.checkable);
      if after.Unavailable? {
        return true;
      }
      if after.value.None? || NormalizeStatus(after.value.value.status) != Active {
        return false;
      }
    }
    row.detectedAt := None;
    row.deleteAfter := None;
    row.warnedAt := None;
    row.byOwn := false;
    row.local := LocalActive;
    return false;
  }

  method SyncUser(row: ChildRow, parent: ResellerStatus, live: User, panel: Panel, now: int, grace: int, s: Settings,
                  net: SyncNet)
    returns (aborted: bool)
    requires row.username == live.username
    modifies row, panel
    ensures var r := SyncedChild(old(row.Image()), parent, live, Lookup(old(panel.users), live.username), now, grace,
                                 s, net);
      && row.Image() == r.row && panel.users == PutUser(old(panel.users), live.username, r.user)
      && panel.calls == old(panel.calls) + r.calls && aborted == r.aborted
    ensures old(row.detectedAt).None? && Spent(live, now) ==>
      && row.local == LocalExpired && row.detectedAt == Some(now)
      && row.deleteAfter == Some(now + grace * 3_600_000_000)
      && panel.calls == old(panel.calls) + (if !s.dryRun && s.allowDisable then [DisableUser(live.username)] else [])
    ensures panel.admins == old(panel.admins) && panel.passwords == old(panel.passwords)
  {
    if row.detectedAt.None? && Spent(live, now) {
      ExhaustedUserIsScheduled(row.Image(), parent, live, Lookup(panel.users, live.username), now, grace, s, net);
    }
    hide UserExhausted, Expiring, Renewing, Spent;
    aborted := false;
    var spent := UserExhausted(live, now);
    if spent && row.detectedAt.None? {
      aborted := ExpireUser(row, panel, now, grace, s, net);
    } else if !spent && row.deleteAfter.Some? {
      aborted := RenewUser(row, parent, panel, s, net);
    }
  }

  // ----- One row in _due_deletions -----

  // The query: scheduled, and due within a day.
  predicate Selected(row: Child, now: int) {
    row.deleteAfter.Some? && row.deleteAfter.value <= now + DAY
  }

  function Warned(row: Child, now: int, delivered: bool): Child
    requires row.deleteAfter.Some?
  {
    if now < row.deleteAfter.value <= now + DAY && row.warnedAt.None? && delivered then row.(warnedAt := Some(now))
    else row
  }

  function DueChild(row: Child, name: string, owner: string, parentHold: bool, user: Option<User>, now: int,
                    s: Settings, delivered: bool, net: DeleteNet): Synced
    requires row.deleteAfter.Some?
  {
    var warned := Warned(row, now, delivered);
    var d := SafeDeletion(user, name, owner, row.deleteAfter.value, now, s, row.hold || parentHold, false, net);
    var row' := if d.verdict == Some(Removed) then warned.(local := LocalDeleted, deleteAfter := None) else warned;
    Synced(row', d.user, d.calls, d.verdict.None?)
  }

  /** A due row: the warning is noted exactly when less than a day is left, none was noted and this one was
      delivered; the row is marked deleted exactly when removal was reported. */
  lemma DueRowsAreHandled(row: Child, name: string, owner: string, parentHold: bool, user: Option<User>, now: int,
                          s: Settings, delivered: bool, net: DeleteNet)
    requires row.deleteAfter.Some?
    ensures var r := DueChild(row, name, owner, parentHold, user, now, s, delivered, net);
      var left := row.deleteAfter.value - now;
      var asked := !row.hold && !parentHold && left <= 0 && !s.dryRun && s.destructive && s.allowDelete && net.readable
                   && user.Some? && OwnedBy(user.value, owner) && Spent(user.value, now);
      var removed := asked && net.delivery.executed && net.delivery.acknowledged && net.confirmable;
      && r.row.warnedAt == (if 0 < left <= 86_400_000_000 && row.warnedAt.None? && delivered then Some(now)
                            else row.warnedAt)
      && r.row.local == (if removed then LocalDeleted else row.local)
      && r.row.deleteAfter == (if removed then None else row.deleteAfter)
      && r.row == row.(warnedAt := r.row.warnedAt, local := r.row.local, deleteAfter := r.row.deleteAfter)
      && r.calls == (if asked then [DeleteUser(name)] else [])
      && r.user == (if asked && net.delivery.executed then None else user)
  {
    VerdictsInOrder(user, name, owner, row.deleteAfter.value, now, s, row.hold || parentHold, false, net);
    hide SafeDeletion;
  }

  /** The rows looked at are those due within a day. */
  lemma SelectedIff(row: Child, now: int)
    ensures Selected(row, now) <==> row.deleteAfter.Some? && row.deleteAfter.value - now <= 86_400_000_000
  {
  }

  method DeleteDue(row: ChildRow, owner: string, parentHold: bool, panel: Panel, now: int, s: Settings,
                   delivered: bool, net: DeleteNet)
    returns (aborted: bool)
    requires Selected(row.Image(), now)
    modifies row, panel
    ensures var r := DueChild(old(row.Image()), row.username, owner, parentHold,
                              Lookup(old(panel.users), row.username), now, s,
                              delivered, net);
      && row.Image() == r.row && panel.users == PutUser(old(panel.users), row.username, r.user)
      && panel.calls == old(panel.calls) + r.calls && aborted == r.aborted
    ensures panel.admins == old(panel.admins) && panel.passwords == old(panel.passwords)
  {
    var left := row.deleteAfter.value - now;
    if 0 < left <= DAY && row.warnedAt.None? && delivered {
      row.warnedAt := Some(now);
    }
    var verdict := SafeDelete(panel, row.username, owner, row.deleteAfter.value, now, s, row.hold || parentHold, false,
                              net);
    if verdict == Some(Removed) {
      row.local := LocalDeleted;
      row.deleteAfter := None;
    }
    return verdict.None?;
  }

  // ----- The parent-renewal loop -----

  // Owned and not exhausted: fit to be switched on again after its parent's renewal.
  predicate Revivable(user: Option<User>, admin: string, now: int) {
    user.Some? && VerifiedOwner(user.value, admin) && !UserExhausted(user.value, now)
  }

  function RevivedChild(row: Child, name: string, admin: string, user: Option<User>, now: int, net: SyncNet): Synced
    requires row.byParent
  {
    if !net.checkable then Synced(row, user, [], true)
    else if !Revivable(user, admin, now) then Synced(row, user, [], false)
    else
      var user' := AfterCall(user, Active, net.delivery);
      if net.delivery.acknowledged then Synced(row.(byParent := false), user', [EnableUser(name)], false)
      else Synced(row, user', [EnableUser(name)], true)
  }

  method Revive(row: ChildRow, admin: string, panel: Panel, now: int, net: SyncNet) returns (aborted: bool)
    requires row.byParent
    modifies row, panel
    ensures var r := RevivedChild(old(row.Image()), row.username, admin, Lookup(old(panel.users), row.username), now,
                                  net);
      && row.Image() == r.row && panel.users == PutUser(old(panel.users), row.username, r.user)
      && panel.calls == old(panel.calls) + r.calls && aborted == r.aborted
    ensures panel.admins == old(panel.admins) && panel.passwords == old(panel.passwords)
  {
    var child := panel.GetUser(row.username, net.checkable);
    if child.Unavailable? {
      return true;
    }
    if child.value.Some? && VerifiedOwner(child.value.value, admin) && !UserExhausted(child.value.value, now) {
      var ok := panel.SetUserStatus(row.username, Active, net.delivery);
      if !ok {
        return true;
      }
      row.byParent := false;
    }
    return false;
  }

  /** One marked child: it is read, and if owned and not exhausted switched on and unmarked; the loop ends
      there exactly when one of the two requests is not answered. */
  lemma MarkedChildIsRevived(row: Child, name: string, admin: string, user: Option<User>, now: int, net: SyncNet)
    requires row.byParent
    ensures var r := RevivedChild(row, name, admin, user, now, net);
      var asked := net.checkable && user.Some? && OwnedBy(user.value, admin) && !Spent(user.value, now);
      && r.calls == (if asked then [EnableUser(name)] else [])
      && r.user == (if asked && net.delivery.executed then Some(user.value.(status := Active)) else user)
      && r.row == row.(byParent := !(asked && net.delivery.acknowledged))
      && (r.aborted <==> !net.checkable || (asked && !net.delivery.acknowledged))
  {
  }

  // Status apart, the same users.
  predicate SameButStatus(a: map<string, User>, b: map<string, User>) {
    && a.Keys == b.Keys
    && forall n :: n in a ==> b[n] == a[n].(status := b[n].status)
  }

  lemma StatusIsIrrelevant(a: map<string, User>, b: map<string, User>, admin: string, now: int)
    requires SameButStatus(a, b)
    ensures forall n :: Revivable(Lookup(a, n), admin, now) <==> Revivable(Lookup(b, n), admin, now)
  {
  }

  lemma SameButStatusComposes(a: map<string, User>, b: map<string, User>, c: map<string, User>)
    requires SameButStatus(a, b) && SameButStatus(b, c)
    ensures SameButStatus(a, c)
  {
  }

  /** One child of the renewal loop: it is switched on only if owned and not exhausted, and keeps its
      mark only if it must not be, or if the pass ends there. */
  lemma RevivalIsGuarded(row: Child, name: string, admin: string, users: map<string, User>, now: int, net: SyncNet)
    requires row.byParent
    ensures var user := Lookup(users, name); var r := RevivedChild(row, name, admin, user, now, net);
      && SameButStatus(users, PutUser(users, name, r.user))
      && r.row in {row, row.(byParent := false)}
      && (!r.aborted && r.row.byParent ==> !Revivable(user, admin, now))
      && (r.calls == [] || (r.calls == [EnableUser(name)] && Revivable(user, admin, now)))
      && (r.calls == [] ==> PutUser(users, name, r.user) == users)
      && (!r.aborted && Revivable(user, admin, now) ==> r.calls == [EnableUser(name)])
      && (CleanSync(net) ==> !r.aborted)
  {
  }

  lemma SameUsers(users: map<string, User>)
    ensures SameButStatus(users, users)
  {
  }

  // The marked children that the panel shows owned and not exhausted.
  ghost function ToRevive(rows: seq<ChildRow>, users: map<string, User>, admin: string, now: int): set<string>
    reads rows
  {
    set i | 0 <= i < |rows| && rows[i].byParent && Revivable(Lookup(users, rows[i].username), admin, now) ::
      rows[i].username
  }

  /** The loop over a renewed reseller's children. Whenever it runs to the end, every child still marked
      as switched off with its parent is missing, not owned, or exhausted, and every other was asked on. */
  method ReviveAll(rows: seq<ChildRow>, admin: string, panel: Panel, now: int, nets: nat -> SyncNet)
    returns (aborted: bool)
    requires forall i, j :: 0 <= i < j < |rows| ==> rows[i] != rows[j]
    modifies rows, panel
    ensures (forall k: nat :: k < |rows| ==> CleanSync(nets(k))) ==> !aborted
    ensures !aborted ==>
      forall i :: 0 <= i < |rows| && rows[i].byParent ==> !Revivable(Lookup(panel.users, rows[i].username), admin, now)
    ensures forall i :: 0 <= i < |rows| ==>
      rows[i].Image() in {old(rows[i].Image()), old(rows[i].Image()).(byParent := false)}
    ensures SameButStatus(old(panel.users), panel.users)
    ensures panel.admins == old(panel.admins) && panel.passwords == old(panel.passwords)
    ensures old(panel.calls) <= panel.calls
    ensures panel.calls == old(panel.calls) ==> panel.users == old(panel.users)
    ensures !aborted ==> forall u :: u in old(ToRevive(rows, panel.users, admin, now)) ==>
      EnableUser(u) in panel.calls[|old(panel.calls)|..]
    ensures forall k :: |old(panel.calls)| <= k < |panel.calls| ==>
      panel.calls[k].EnableUser? && panel.calls[k].username in old(ToRevive(rows, panel.users, admin, now))
  {
    hide Revivable, SameButStatus, CleanSync;
    ghost var users0 := panel.users;
    ghost var names := ToRevive(rows, users0, admin, now);
    ghost var sent: seq<Call> := [];
    aborted := false;
    SameUsers(users0);
    for i := 0 to |rows|
      invariant forall j :: 0 <= j < i && rows[j].byParent ==> !Revivable(Lookup(users0, rows[j].username), admin, now)
      invariant forall j :: 0 <= j < i ==>
        rows[j].Image() in {old(rows[j].Image()), old(rows[j].Image()).(byParent := false)}
      invariant forall j :: i <= j < |rows| ==> rows[j].Image() == old(rows[j].Image())
      invariant SameButStatus(users0, panel.users)
      invariant panel.admins == old(panel.admins) && panel.passwords == old(panel.passwords)
      invariant panel.calls == old(panel.calls) + sent && (sent == [] ==> panel.users == users0)
      invariant forall j ::
        0 <= j < i && old(rows[j].byParent) && Revivable(Lookup(users0, rows[j].username), admin, now) ==>
          EnableUser(rows[j].username) in sent
      invariant forall k :: 0 <= k < |sent| ==> sent[k].EnableUser? && sent[k].username in names
    {
      assert rows[i].Image() == old(rows[i].Image());
      if rows[i].byParent {
        ghost var asked;
        aborted, asked := ReviveMarked(rows[i], admin, panel, now, nets(i), users0);
        sent := sent + asked;
        if aborted {
          StatusIsIrrelevant(users0, panel.users, admin, now);
          assert panel.calls[|old(panel.calls)|..] == sent;
          return;
        }
      }
    }
    StatusIsIrrelevant(users0, panel.users, admin, now);
    assert panel.calls[|old(panel.calls)|..] == sent;
  }

  // One marked child, with the users as they were before the loop.
  method ReviveMarked(row: ChildRow, admin: string, panel: Panel, now: int, net: SyncNet,
                      ghost users0: map<string, User>)
    returns (aborted: bool, ghost asked: seq<Call>)
    requires row.byParent && SameButStatus(users0, panel.users)
    modifies row, panel
    ensures row.Image() in {old(row.Image()), old(row.Image()).(byParent := false)}
    ensures SameButStatus(users0, panel.users)
    ensures panel.admins == old(panel.admins) && panel.passwords == old(panel.passwords)
    ensures panel.calls == old(panel.calls) + asked && (asked == [] ==> panel.users == old(panel.users))
    ensures asked in {[], [EnableUser(row.username)]}
    ensures asked != [] ==> Revivable(Lookup(users0, row.username), admin, now)
    ensures !aborted && Revivable(Lookup(users0, row.username), admin, now) ==>
      !row.byParent && asked == [EnableUser(row.username)]
    ensures CleanSync(net) ==> !aborted
  {
    ghost var before, users := row.Image(), panel.users;
    RevivalIsGuarded(before, row.username, admin, users, now, net);
    StatusIsIrrelevant(users0, users, admin, now);
    hide Revivable, SameButStatus, RevivedChild, CleanSync;
    aborted := Revive(row, admin, panel, now, net);
    asked := RevivedChild(before, row.username, admin, Lookup(users, row.username), now, net).calls;
    SameButStatusComposes(users0, users, panel.users);
  }
}
