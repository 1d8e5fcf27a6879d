/** One whole scheduler pass (LifecycleRunner.run, app/scheduler/jobs.py) over every reseller: what it has
    done, why each request was issued, and what follows for dry run, switches, holds and manual suspension. */
module FullPass {
  import opened Prelude
  import opened Wire
  import opened Entitlement
  import opened RebeccaPanel
  import opened Payments
  import opened Children
  import Resellers
  import opened Scheduler
  import opened Reconcile
  import opened OrderMachine
  import Recovery
  import opened PassTurns

  // ----- All of one reseller's rows, on values -----

  /** A reseller's own row, its children by name and its orders. */
  datatype Sight = Sight(seat: Scene, names: seq<string>, kids: seq<Child>, papers: seq<Paper>)

  ghost function SightOf(a: Account): Sight
    reads a.reseller, a.kids, a.orders
  {
    Sight(Seat(a.reseller, NO_ACCOUNTS), NamesOf(a.kids), Images(a.kids), Papers(a.orders))
  }

  ghost function Sights(accounts: seq<Account>): seq<Sight>
    reads ResellersOf(accounts), KidsOf(accounts), OrdersOf(accounts)
  {
    seq(|accounts|,
        i requires 0 <= i < |accounts| reads ResellersOf(accounts), KidsOf(accounts), OrdersOf(accounts) =>
          Within(accounts, i); SightOf(accounts[i]))
  }

  lemma Within(accounts: seq<Account>, i: nat)
    requires i < |accounts|
    ensures accounts[i].reseller in ResellersOf(accounts)
    ensures forall k :: k in accounts[i].kids ==> k in KidsOf(accounts)
    ensures forall o :: o in accounts[i].orders ==> o in OrdersOf(accounts)
  {
    assert accounts[i] in accounts;
  }

  /** The panel before each reseller's turn in one part of the pass, and after the last. */
  ghost predicate Trail(trail: seq<Before>, n: nat, first: Before, last: Before) {
    |trail| == n + 1 && trail[0] == first && trail[n] == last
  }

  // What each part makes of one reseller's rows.
  ghost predicate TurnOne(i: nat, st: Stand, was: Before, x: Sight, now: Before, x': Sight, p: Pass) {
    && x' == x.(seat := x.seat.(row := x.seat.row.(status := x'.seat.row.status)), kids := x'.kids)
    && PartOne(i, st, was, x.kids, x.names, x'.seat.row.status, now, x'.kids, p)
  }

  ghost predicate TurnTwo(i: nat, st: Stand, was: Before, x: Sight, now: Before, x': Sight, p: Pass) {
    && x' == x.(names := x'.names, kids := x'.kids) && x.names <= x'.names
    && Tabled(x) && Tabled(x') && was.accounts.calls <= now.accounts.calls
    && PartTwo(i, st, x.seat.row.status, was, TableOf(x.names, x.kids), now, TableOf(x'.names, x'.kids), p)
  }

  predicate Tabled(x: Sight) {
    |x.names| == |x.kids| && forall i, j :: 0 <= i < j < |x.names| ==> x.names[i] != x.names[j]
  }

  ghost predicate TurnThree(i: nat, st: Stand, was: Before, x: Sight, now: Before, x': Sight, p: Pass) {
    x' == x.(kids := x'.kids) && PartThree(i, st, was, x.kids, x.names, now, x'.kids, p)
  }

  ghost predicate TurnFour(i: nat, was: Before, x: Sight, scenes: seq<Scene>, now: Before, x': Sight,
                           reserved: set<string>, p: Pass)
  {
    && x' == x.(seat := x'.seat, papers := x'.papers)
    && PartFour(i, was, x.papers, scenes, now, x'.papers, reserved, p)
    && was.accounts.calls <= now.accounts.calls
    && scenes[0] == x.seat.(accounts := was.accounts)
    && scenes[|x.papers|] == x'.seat.(accounts := now.accounts)
  }

  // ----- The parts, over every reseller -----

  lemma OthersApart(accounts: seq<Account>, i: nat)
    requires Apart(accounts) && i < |accounts|
    ensures forall j :: 0 <= j < |accounts| && j != i ==>
      && accounts[j].reseller != accounts[i].reseller
      && (forall k :: k in accounts[j].kids ==> k !in accounts[i].kids)
      && (forall o :: o in accounts[j].orders ==> o !in accounts[i].orders)
    ensures DistinctNames(accounts[i].kids) && DistinctOrders(accounts[i].orders)
  {
    assert forall j :: 0 <= j < |accounts| && j != i ==> NoneShared(accounts[j], accounts[i]);
  }

  method SyncTurn(accounts: seq<Account>, i: nat, panel: Panel, p: Pass, ghost stands: seq<Stand>, ghost before: Before)
    returns (aborted: bool)
    requires Apart(accounts) && i < |accounts| == |stands| && LoadedRow(accounts[i].reseller, stands[i])
    requires Kept(panel, before, stands, p)
    modifies accounts[i].reseller, accounts[i].kids, panel
    ensures Stands(accounts[i].reseller, stands[i]) && Kept(panel, before, stands, p)
    ensures !aborted ==>
      TurnOne(i, stands[i], old(Now(panel)), old(SightOf(accounts[i])), Now(panel), SightOf(accounts[i]), p)
    ensures forall j :: 0 <= j < |accounts| && j != i ==> SightOf(accounts[j]) == old(SightOf(accounts[j]))
    ensures FaultFree(p, before.users) ==> !aborted
    ensures panel.users.Keys == old(panel.users).Keys
  {
    OthersApart(accounts, i);
    hide Apart, DistinctNames, LicensedBy, Licensed, Grows, PartOne, FaultFree, Images, Papers, NamesOf, Stands;
    hide LoadedRow;
    ghost var was := Now(panel);
    assert Shrinks(before.users, panel.users);
    hide Shrinks;
    aborted := SyncAccount(accounts[i], i, panel, p, stands, before);
    WorkKeeps(was, panel, i, stands, before, p);
    hide Kept, Works, WasKept;
  }

  method SyncResellers(accounts: seq<Account>, panel: Panel, p: Pass, ghost stands: seq<Stand>, ghost before: Before)
    returns (aborted: bool, ghost trail: seq<Before>)
    requires Apart(accounts) && Loaded(accounts, stands) && Kept(panel, before, stands, p)
    modifies ResellersOf(accounts), KidsOf(accounts), panel
    ensures AllStand(accounts, stands) && Kept(panel, before, stands, p)
    ensures !aborted ==>
      && Trail(trail, |accounts|, old(Now(panel)), Now(panel))
      && forall i: nat :: i < |accounts| ==>
           TurnOne(i, stands[i], trail[i], old(SightOf(accounts[i])), trail[i + 1], SightOf(accounts[i]), p)
    ensures FaultFree(p, before.users) ==> !aborted
    ensures panel.users.Keys == old(panel.users).Keys
  {
    hide Apart, DistinctNames, LicensedBy, Licensed, Kept, PartOne, TurnOne, FaultFree, SightOf, Stands, LoadedRow;
    aborted := false;
    trail := [Now(panel)];
    for i := 0 to |accounts|
      invariant Trail(trail, i, old(Now(panel)), Now(panel))
      invariant forall j: nat :: j < i ==>
        && Stands(accounts[j].reseller, stands[j])
        && TurnOne(j, stands[j], trail[j], old(SightOf(accounts[j])), trail[j + 1], SightOf(accounts[j]), p)
      invariant forall j: nat :: i <= j < |accounts| ==>
        LoadedRow(accounts[j].reseller, stands[j]) && SightOf(accounts[j]) == old(SightOf(accounts[j]))
      invariant Kept(panel, before, stands, p)
      invariant panel.users.Keys == old(panel.users).Keys
    {
      Within(accounts, i);
      OthersApart(accounts, i);
      aborted := SyncTurn(accounts, i, panel, p, stands, before);
      if aborted {
        LoadedStands(accounts, i + 1, stands);
        return;
      }
      trail := trail + [Now(panel)];
    }
    LoadedStands(accounts, |accounts|, stands);
  }

  // In the middle of the part.
  lemma LoadedStands(accounts: seq<Account>, n: nat, stands: seq<Stand>)
    requires |stands| == |accounts|
    requires forall j :: 0 <= j < |accounts| && j < n ==> Stands(accounts[j].reseller, stands[j])
    requires forall j :: n <= j < |accounts| ==> LoadedRow(accounts[j].reseller, stands[j])
    ensures AllStand(accounts, stands)
  {
  }

  lemma TabledBy(names: seq<string>, kids: seq<Child>, table: map<string, Child>)
    requires |names| == |kids| && forall i, j :: 0 <= i < j < |names| ==> names[i] != names[j]
    requires forall k :: 0 <= k < |names| ==> names[k] in table && table[names[k]] == kids[k]
    requires forall name :: name in table ==> exists k :: 0 <= k < |names| && names[k] == name
    ensures TableOf(names, kids) == table
  {
  }

  // The children's table is that of the sight.
  lemma SeenTable(a: Account)
    requires DistinctNames(a.kids)
    ensures var x := SightOf(a); Tabled(x) && TableOf(x.names, x.kids) == Table(a.kids)
  {
    var names, kids, table := NamesOf(a.kids), Images(a.kids), Table(a.kids);
    forall k | 0 <= k < |names| ensures names[k] in table && table[names[k]] == kids[k] {
      assert table[a.kids[k].username] == a.kids[k].Image();
    }
    forall name | name in table ensures exists k :: 0 <= k < |names| && names[k] == name {
      var k :| 0 <= k < |a.kids| && a.kids[k].username == name;
      assert names[k] == name;
    }
    TabledBy(names, kids, table);
    hide Table;
  }

  lemma ApartGrows(accounts: seq<Account>, i: nat, a: Account)
    requires Apart(accounts) && i < |accounts|
    requires a.reseller == accounts[i].reseller && a.orders == accounts[i].orders && DistinctNames(a.kids)
    requires forall k :: k in a.kids ==> k in accounts[i].kids || k !in KidsOf(accounts)
    ensures Apart(accounts[i := a])
  {
    OthersApart(accounts, i);
    hide DistinctNames, DistinctOrders;
    forall j | 0 <= j < |accounts| && j != i ensures NoneShared(a, accounts[j]) && NoneShared(accounts[j], a) {
      assert NoneShared(accounts[i], accounts[j]) && NoneShared(accounts[j], accounts[i]);
      assert accounts[j] in accounts;
      assert forall k :: k in accounts[j].kids ==> k in KidsOf(accounts) && k !in a.kids;
      forall x, y | 0 <= x < |accounts[j].kids| && 0 <= y < |a.kids| ensures accounts[j].kids[x] != a.kids[y] {
        assert accounts[j].kids[x] in accounts[j].kids;
      }
    }
    hide NoneShared;
  }

  method UsersTurn(accounts: seq<Account>, i: nat, panel: Panel, p: Pass, ghost stands: seq<Stand>,
                   ghost before: Before)
    returns (accounts': seq<Account>, aborted: bool)
    requires Apart(accounts) && i < |accounts| == |stands| && Stands(accounts[i].reseller, stands[i])
    requires Kept(panel, before, stands, p)
    modifies accounts[i].kids, panel
    ensures |accounts'| == |accounts| && Apart(accounts')
    ensures accounts'[i].reseller == accounts[i].reseller && accounts'[i].orders == accounts[i].orders
    ensures forall k :: k in accounts'[i].kids ==> k in accounts[i].kids || fresh(k)
    ensures forall j :: 0 <= j < |accounts| && j != i ==>
      accounts'[j] == accounts[j] && SightOf(accounts[j]) == old(SightOf(accounts[j]))
    ensures Kept(panel, before, stands, p)
    ensures !aborted ==>
      TurnTwo(i, stands[i], old(Now(panel)), old(SightOf(accounts[i])), Now(panel), SightOf(accounts'[i]), p)
    ensures FaultFree(p, old(panel.users)) ==> !aborted
    ensures old(panel.users).Keys <= panel.users.Keys
  {
    OthersApart(accounts, i);
    SeenTable(accounts[i]);
    hide DistinctNames, LicensedBy, Licensed, Grows, PartTwo, FaultFree, Images, Papers, NamesOf, Stands;
    hide Table, TableOf;
    ghost var was := Now(panel);
    assert Shrinks(before.users, panel.users);
    hide Shrinks;
    var a;
    a, aborted := SyncUsersOfAccount(accounts[i], i, panel, p, stands, before);
    ApartGrows(accounts, i, a);
    accounts' := accounts[i := a];
    SeenTable(a);
    WorkKeeps(was, panel, i, stands, before, p);
    hide Kept, Works, WasKept;
  }

  method SyncUsers(accounts: seq<Account>, panel: Panel, p: Pass, ghost stands: seq<Stand>, ghost before: Before)
    returns (accounts': seq<Account>, aborted: bool, ghost trail: seq<Before>)
    requires Apart(accounts) && AllStand(accounts, stands) && Kept(panel, before, stands, p)
    modifies KidsOf(accounts), panel
    ensures |accounts'| == |accounts| && Apart(accounts')
    ensures forall i :: 0 <= i < |accounts| ==>
      accounts'[i].reseller == accounts[i].reseller && accounts'[i].orders == accounts[i].orders
    ensures forall k :: k in KidsOf(accounts') ==> k in KidsOf(accounts) || fresh(k)
    ensures Kept(panel, before, stands, p)
    ensures !aborted ==>
      && Trail(trail, |accounts|, old(Now(panel)), Now(panel))
      && forall i: nat :: i < |accounts| ==>
           TurnTwo(i, stands[i], trail[i], old(SightOf(accounts[i])), trail[i + 1], SightOf(accounts'[i]), p)
    ensures FaultFree(p, old(panel.users)) ==> !aborted
    ensures old(panel.users).Keys <= panel.users.Keys
  {
    hide Apart, DistinctNames, LicensedBy, Licensed, Kept, PartTwo, TurnTwo, SightOf, Stands;
    trail := [Now(panel)];
    accounts', aborted := accounts, false;
    if GraceHours(p.graceHours).None? {
      return accounts, true, trail;
    }
    hide GraceHours, FaultFree;
    for i := 0 to |accounts|
      invariant |accounts'| == |accounts| && Apart(accounts')
      invariant Trail(trail, i, old(Now(panel)), Now(panel))
      invariant forall j: nat :: j < |accounts| ==>
        && accounts'[j].reseller == accounts[j].reseller && accounts'[j].orders == accounts[j].orders
        && forall k :: k in accounts'[j].kids ==> k in KidsOf(accounts) || fresh(k)
      invariant forall j: nat :: j < i ==>
        TurnTwo(j, stands[j], trail[j], old(SightOf(accounts[j])), trail[j + 1], SightOf(accounts'[j]), p)
      invariant forall j: nat :: i <= j < |accounts| ==>
        accounts'[j] == accounts[j] && SightOf(accounts[j]) == old(SightOf(accounts[j]))
      invariant Kept(panel, before, stands, p)
      invariant old(panel.users).Keys <= panel.users.Keys
    {
      Within(accounts, i);
      FaultFreeStays(p, old(panel.users), panel.users);
      accounts', aborted := UsersTurn(accounts', i, panel, p, stands, before);
      if aborted {
        return;
      }
      trail := trail + [Now(panel)];
    }
  }

  lemma FaultFreeStays(p: Pass, users: map<string, User>, users': map<string, User>)
    requires users.Keys <= users'.Keys
    ensures FaultFree(p, users) ==> FaultFree(p, users')
  {
    hide Resellers.CleanNet, CleanSync, CleanDelete;
  }

  method DueTurn(accounts: seq<Account>, i: nat, panel: Panel, p: Pass, ghost stands: seq<Stand>, ghost before: Before)
    returns (aborted: bool)
    requires Apart(accounts) && i < |accounts| == |stands| && Stands(accounts[i].reseller, stands[i])
    requires Kept(panel, before, stands, p)
    modifies accounts[i].kids, panel
    ensures Kept(panel, before, stands, p)
    ensures !aborted ==>
      TurnThree(i, stands[i], old(Now(panel)), old(SightOf(accounts[i])), Now(panel), SightOf(accounts[i]), p)
    ensures forall j :: 0 <= j < |accounts| && j != i ==> SightOf(accounts[j]) == old(SightOf(accounts[j]))
    ensures FaultFree(p, before.users) ==> !aborted
  {
    OthersApart(accounts, i);
    hide Apart, DistinctNames, LicensedBy, Licensed, Grows, PartThree, FaultFree, Images, Papers, NamesOf, Stands;
    ghost var was := Now(panel);
    assert Shrinks(before.users, panel.users);
    hide Shrinks;
    aborted := DeleteDueOfAccount(accounts[i], i, panel, p, stands, before);
    WorkKeeps(was, panel, i, stands, before, p);
    hide Kept, Works, WasKept;
  }

  method DeleteDues(accounts: seq<Account>, panel: Panel, p: Pass, ghost stands: seq<Stand>, ghost before: Before)
    returns (aborted: bool, ghost trail: seq<Before>)
    requires Apart(accounts) && AllStand(accounts, stands) && Kept(panel, before, stands, p)
    modifies KidsOf(accounts), panel
    ensures Kept(panel, before, stands, p)
    ensures !aborted ==>
      && Trail(trail, |accounts|, old(Now(panel)), Now(panel))
      && forall i: nat :: i < |accounts| ==>
           TurnThree(i, stands[i], trail[i], old(SightOf(accounts[i])), trail[i + 1], SightOf(accounts[i]), p)
    ensures FaultFree(p, before.users) ==> !aborted
  {
    hide Apart, DistinctNames, LicensedBy, Licensed, Kept, PartThree, TurnThree, FaultFree, SightOf, Stands;
    aborted := false;
    trail := [Now(panel)];
    for i := 0 to |accounts|
      invariant Trail(trail, i, old(Now(panel)), Now(panel))
      invariant forall j: nat :: j < i ==>
        TurnThree(j, stands[j], trail[j], old(SightOf(accounts[j])), trail[j + 1], SightOf(accounts[j]), p)
      invariant forall j: nat :: i <= j < |accounts| ==> SightOf(accounts[j]) == old(SightOf(accounts[j]))
      invariant Kept(panel, before, stands, p)
    {
      Within(accounts, i);
      aborted := DueTurn(accounts, i, panel, p, stands, before);
      if aborted {
        return;
      }
      trail := trail + [Now(panel)];
    }
  }

  // The names all resellers have now.
  method ReservedNames(accounts: seq<Account>, ghost stands: seq<Stand>, ghost before: Before)
    returns (reserved: set<string>)
    requires AllSeated(accounts, stands, before)
    ensures AllReserved(stands, reserved)
    ensures reserved == set j | 0 <= j < |accounts| :: accounts[j].reseller.admin
  {
    reserved := {};
    for i := 0 to |accounts|
      invariant reserved == set j | 0 <= j < i :: accounts[j].reseller.admin
    {
      reserved := reserved + {accounts[i].reseller.admin};
    }
    forall j | 0 <= j < |stands| && stands[j].admin != "" ensures stands[j].admin in reserved {
      assert SeatedRow(accounts[j].reseller, j, stands, before);
      assert accounts[j].reseller.admin in reserved;
    }
  }

  method OrdersTurn(accounts: seq<Account>, i: nat, panel: Panel, p: Pass, reserved: set<string>,
                    ghost stands: seq<Stand>, ghost before: Before)
    returns (aborted: bool, ghost scenes: seq<Scene>)
    requires Apart(accounts) && i < |accounts| && AllSeated(accounts, stands, before)
    requires AllReserved(stands, reserved) && Kept(panel, before, stands, p)
    modifies accounts[i].reseller, accounts[i].orders, panel
    ensures AllSeated(accounts, stands, before) && Kept(panel, before, stands, p)
    ensures forall j :: 0 <= j < |accounts| && j != i ==> SightOf(accounts[j]) == old(SightOf(accounts[j]))
    ensures !aborted ==>
      TurnFour(i, old(Now(panel)), old(SightOf(accounts[i])), scenes, Now(panel), SightOf(accounts[i]), reserved, p)
    ensures p.Mode().Some? ==> !aborted
  {
    OthersApart(accounts, i);
    hide Apart, DistinctOrders, LicensedBy, Licensed, PartFour, FaultFree, Images, Papers, NamesOf, Seated, AllReserved;
    ghost var was := Now(panel);
    assert Shrinks(before.users, panel.users) && Grows(before.accounts, Provisioning.View(panel));
    hide Shrinks, Grows;
    aborted, scenes := ReconcileAccount(accounts[i], i, panel, p, reserved, stands, before);
    WorkKeeps(was, panel, i, stands, before, p);
    hide Kept, Works, WasKept;
  }

  // The names in use when these resellers have had their turn, and the others not.
  ghost function NamesInUse(xs: seq<Sight>, done: seq<Sight>): set<string>
    requires |done| <= |xs|
  {
    set j | 0 <= j < |xs| :: (if j < |done| then done[j] else xs[j]).seat.admin
  }

  lemma NamesAreInUse(accounts: seq<Account>, xs: seq<Sight>, done: seq<Sight>)
    requires |done| <= |xs| == |accounts|
    requires forall j: nat :: j < |done| ==> SightOf(accounts[j]) == done[j]
    requires forall j: nat :: |done| <= j < |xs| ==> SightOf(accounts[j]) == xs[j]
    ensures (set j | 0 <= j < |accounts| :: accounts[j].reseller.admin) == NamesInUse(xs, done)
  {
    hide Images, Papers, NamesOf;
    forall j: nat | j < |accounts|
      ensures accounts[j].reseller.admin == (if j < |done| then done[j] else xs[j]).seat.admin
    {
    }
  }

  // The turns of the first resellers.
  ghost predicate Reconciling(trail: seq<Before>, xs: seq<Sight>, scenes: seq<seq<Scene>>, done: seq<Sight>, p: Pass) {
    && |done| <= |xs| && |scenes| == |done| && |trail| == |done| + 1
    && forall i: nat :: i < |done| ==>
         TurnFour(i, trail[i], xs[i], scenes[i], trail[i + 1], done[i], NamesInUse(xs, done[..i]), p)
  }

  lemma ReconcilesOneMore(trail: seq<Before>, xs: seq<Sight>, scenes: seq<seq<Scene>>, done: seq<Sight>, now: Before,
                          seen: seq<Scene>, x: Sight, p: Pass)
    requires Reconciling(trail, xs, scenes, done, p) && |done| < |xs|
    requires TurnFour(|done|, trail[|done|], xs[|done|], seen, now, x, NamesInUse(xs, done), p)
    ensures Reconciling(trail + [now], xs, scenes + [seen], done + [x], p)
  {
    hide TurnFour;
    forall i: nat | i < |done| + 1 ensures (done + [x])[..i] == done[..i] {
    }
  }

  method ReconcileOrders(accounts: seq<Account>, panel: Panel, p: Pass, ghost stands: seq<Stand>,
                         ghost before: Before)
    returns (aborted: bool, ghost trail: seq<Before>, ghost scenes: seq<seq<Scene>>)
    requires Apart(accounts) && AllSeated(accounts, stands, before) && Kept(panel, before, stands, p)
    modifies ResellersOf(accounts), OrdersOf(accounts), panel
    ensures AllSeated(accounts, stands, before) && Kept(panel, before, stands, p)
    ensures !aborted ==>
      && Trail(trail, |accounts|, old(Now(panel)), Now(panel))
      && Reconciling(trail, old(Sights(accounts)), scenes, Sights(accounts), p)
    ensures p.Mode().Some? ==> !aborted
  {
    hide Apart, LicensedBy, Licensed, Kept, TurnFour, SightOf, Seated, AllReserved, Reconciling, NamesInUse, AllSeated;
    aborted := false;
    trail, scenes := [Now(panel)], [];
    ghost var xs, done: seq<Sight> := Sights(accounts), [];
    NothingReconciled(trail, xs, p);
    for i := 0 to |accounts|
      invariant Trail(trail, i, old(Now(panel)), Now(panel)) && |done| == i
      invariant Reconciling(trail, xs, scenes, done, p)
      invariant forall j: nat :: j < i ==> SightOf(accounts[j]) == done[j]
      invariant forall j: nat :: i <= j < |accounts| ==> SightOf(accounts[j]) == xs[j]
      invariant AllSeated(accounts, stands, before) && Kept(panel, before, stands, p)
    {
      Within(accounts, i);
      var reserved := ReservedNames(accounts, stands, before);
      NamesAreInUse(accounts, xs, done);
      ghost var seen;
      aborted, seen := OrdersTurn(accounts, i, panel, p, reserved, stands, before);
      if aborted {
        return;
      }
      ReconcilesOneMore(trail, xs, scenes, done, Now(panel), seen, SightOf(accounts[i]), p);
      trail, scenes, done := trail + [Now(panel)], scenes + [seen], done + [SightOf(accounts[i])];
    }
    assert done == Sights(accounts);
  }

  lemma NothingReconciled(trail: seq<Before>, xs: seq<Sight>, p: Pass)
    requires |trail| == 1
    ensures Reconciling(trail, xs, [], [], p)
  {
  }

  // ----- The whole pass -----

  /** What a completed pass went through: every reseller's rows after each part but the last, the panel before
      each turn, and each order's scenes. */
  datatype Film = Film(
    one: seq<Sight>, two: seq<Sight>, three: seq<Sight>,
    syncs: seq<Before>, listings: seq<Before>, dues: seq<Before>, orders: seq<Before>,
    scenes: seq<seq<Scene>>)

  ghost predicate Opens(f: Film, stands: seq<Stand>, first: Before, xs: seq<Sight>, last: Before, p: Pass) {
    var n := |stands|;
    && |xs| == |f.one| == |f.two| == n
    && |f.syncs| == n + 1 && f.syncs[0] == first && Trail(f.listings, n, f.syncs[n], last)
    && (forall i: nat :: i < n ==>
          && TurnOne(i, stands[i], f.syncs[i], xs[i], f.syncs[i + 1], f.one[i], p)
          && TurnTwo(i, stands[i], f.listings[i], f.one[i], f.listings[i + 1], f.two[i], p))
  }

  ghost predicate Ends(f: Film, stands: seq<Stand>, first: Before, last: Before, xs: seq<Sight>, p: Pass) {
    var n := |stands|;
    && |xs| == |f.two| == |f.three| == n && |f.dues| == n + 1 && f.dues[0] == first
    && (forall i: nat :: i < n ==>
          TurnThree(i, stands[i], f.dues[i], f.two[i], f.dues[i + 1], f.three[i], p))
    && if !p.wonOrders then xs == f.three && last == f.dues[n]
       else
         Trail(f.orders, n, f.dues[n], last) && Reconciling(f.orders, f.three, f.scenes, xs, p)
  }

  method FirstParts(accounts: seq<Account>, panel: Panel, p: Pass, ghost stands: seq<Stand>, ghost before: Before)
    returns (accounts': seq<Account>, aborted: bool, ghost f: Film)
    requires Apart(accounts) && Loaded(accounts, stands) && Kept(panel, before, stands, p)
    requires before.users == panel.users
    modifies ResellersOf(accounts), KidsOf(accounts), panel
    ensures |accounts'| == |accounts| && Apart(accounts')
    ensures forall i :: 0 <= i < |accounts| ==>
      accounts'[i].reseller == accounts[i].reseller && accounts'[i].orders == accounts[i].orders
    ensures forall k :: k in KidsOf(accounts') ==> k in KidsOf(accounts) || fresh(k)
    ensures AllStand(accounts', stands) && Kept(panel, before, stands, p)
    ensures !aborted ==>
      Opens(f, stands, old(Now(panel)), old(Sights(accounts)), Now(panel), p) && f.two == Sights(accounts')
    ensures FaultFree(p, before.users) ==> !aborted
  {
    ghost var xs := Sights(accounts);
    hide LicensedBy, Licensed, Apart, Kept, PartOne, PartTwo, TurnOne, TurnTwo, FaultFree, SightOf, Stands, LoadedRow;
    f := Film([], [], [], [], [], [], [], []);
    accounts' := accounts;
    ghost var syncs, listings;
    aborted, syncs := SyncResellers(accounts, panel, p, stands, before);
    if aborted {
      return;
    }
    ghost var one := Sights(accounts);
    FaultFreeStays(p, before.users, panel.users);
    accounts', aborted, listings := SyncUsers(accounts, panel, p, stands, before);
    f := f.(one := one, two := Sights(accounts'), syncs := syncs, listings := listings);
  }

  method LastParts(accounts: seq<Account>, panel: Panel, p: Pass, ghost stands: seq<Stand>, ghost before: Before,
                   ghost start: Film)
    returns (aborted: bool, ghost f: Film)
    requires Apart(accounts) && AllStand(accounts, stands) && Kept(panel, before, stands, p)
    requires start.two == Sights(accounts)
    modifies ResellersOf(accounts), KidsOf(accounts), OrdersOf(accounts), panel
    ensures AllSeated(accounts, stands, before) && Kept(panel, before, stands, p)
    ensures f == start.(three := f.three, dues := f.dues, orders := f.orders, scenes := f.scenes)
    ensures !aborted ==> Ends(f, stands, old(Now(panel)), Now(panel), Sights(accounts), p)
    ensures FaultFree(p, before.users) ==> !aborted
  {
    StandingIsSeated(accounts, stands, before);
    hide LicensedBy, Licensed, Apart, Kept, PartThree, PartFour, TurnThree, TurnFour, SightOf, Seated;
    f := start;
    ghost var dues, orders, scenes;
    aborted, dues := DeleteDues(accounts, panel, p, stands, before);
    f := f.(three := Sights(accounts), dues := dues);
    StandingIsSeated(accounts, stands, before);
    if aborted || !p.wonOrders {
      return;
    }
    aborted, orders, scenes := ReconcileOrders(accounts, panel, p, stands, before);
    f := f.(orders := orders, scenes := scenes);
  }

  /** From these rows and this panel a completed pass has led to those, by every part's work on every reseller. */
  ghost predicate Played(f: Film, stands: seq<Stand>, first: Before, xs: seq<Sight>, last: Before, xs': seq<Sight>,
                         p: Pass)
  {
    |f.dues| > 0 && Opens(f, stands, first, xs, f.dues[0], p) && Ends(f, stands, f.dues[0], last, xs', p)
  }

  method RunParts(accounts: seq<Account>, panel: Panel, p: Pass, ghost stands: seq<Stand>, ghost before: Before)
    returns (accounts': seq<Account>, aborted: bool, ghost f: Film)
    requires Apart(accounts) && Loaded(accounts, stands) && before == Now(panel)
    modifies ResellersOf(accounts), KidsOf(accounts), OrdersOf(accounts), panel
    ensures |accounts'| == |accounts|
    ensures forall i :: 0 <= i < |accounts| ==>
      accounts'[i].reseller == accounts[i].reseller && accounts'[i].orders == accounts[i].orders
    ensures Kept(panel, before, stands, p) && AllSeated(accounts', stands, before)
    ensures p.won && !aborted ==> Played(f, stands, before, old(Sights(accounts)), Now(panel), Sights(accounts'), p)
    ensures p.won && FaultFree(p, before.users) ==> !aborted
    ensures !p.won ==>
      !aborted && accounts' == accounts && Sights(accounts) == old(Sights(accounts)) && Now(panel) == before
  {
    LoadedStands(accounts, 0, stands);
    StandingIsSeated(accounts, stands, before);
    GrowsFromItself(before.accounts);
    hide LicensedBy, Licensed, Apart, Opens, Ends, FaultFree, SightOf, Seated, Grows, LoadedRow, Stands;
    accounts', aborted := accounts, false;
    f := Film([], [], [], [], [], [], [], []);
    if !p.won {
      return;
    }
    assert Kept(panel, before, stands, p);
    hide Kept;
    accounts', aborted, f := FirstParts(accounts, panel, p, stands, before);
    StandingIsSeated(accounts', stands, before);
    if aborted {
      return;
    }
    WithinSame(accounts, accounts');
    aborted, f := LastParts(accounts', panel, p, stands, before, f);
  }

  // The same resellers and orders.
  lemma WithinSame(accounts: seq<Account>, accounts': seq<Account>)
    requires |accounts'| == |accounts|
    requires forall i :: 0 <= i < |accounts| ==>
      accounts'[i].reseller == accounts[i].reseller && accounts'[i].orders == accounts[i].orders
    ensures ResellersOf(accounts') <= ResellersOf(accounts) && OrdersOf(accounts') <= OrdersOf(accounts)
  {
    forall a | a in accounts' ensures exists b :: b in accounts && b.reseller == a.reseller && b.orders == a.orders {
      var i :| 0 <= i < |accounts'| && accounts'[i] == a;
      assert accounts[i] in accounts;
    }
  }

  // ----- What a completed pass has done -----

  // The i-th reseller's turns.
  lemma PlayedTurns(f: Film, stands: seq<Stand>, first: Before, xs: seq<Sight>, last: Before, xs': seq<Sight>, p: Pass,
                    i: nat)
    requires Played(f, stands, first, xs, last, xs', p) && i < |stands|
    ensures |f.syncs| == |f.listings| == |f.dues| == |stands| + 1
    ensures |f.one| == |f.two| == |f.three| == |xs| == |xs'| == |stands|
    ensures TurnOne(i, stands[i], f.syncs[i], xs[i], f.syncs[i + 1], f.one[i], p)
    ensures TurnTwo(i, stands[i], f.listings[i], f.one[i], f.listings[i + 1], f.two[i], p)
    ensures TurnThree(i, stands[i], f.dues[i], f.two[i], f.dues[i + 1], f.three[i], p)
    ensures p.wonOrders ==> |f.orders| == |stands| + 1 && |f.scenes| == |stands|
    ensures p.wonOrders ==>
      TurnFour(i, f.orders[i], f.three[i], f.scenes[i], f.orders[i + 1], xs'[i], NamesInUse(f.three, xs'[..i]), p)
    ensures xs'[i].names == f.three[i].names && xs'[i].kids == f.three[i].kids
  {
    hide TurnOne, TurnTwo, TurnThree, PartFour, NamesInUse;
  }

  lemma {:induction false} TrailGrows(trail: seq<Before>, i: nat, j: nat)
    requires i <= j < |trail|
    requires forall k: nat :: k < |trail| - 1 ==> trail[k].accounts.calls <= trail[k + 1].accounts.calls
    ensures trail[i].accounts.calls <= trail[j].accounts.calls
  {
    if i < j {
      TrailGrows(trail, i, j - 1);
    }
  }

  // Requests are only ever added.
  lemma CallsGrow(f: Film, stands: seq<Stand>, first: Before, xs: seq<Sight>, last: Before, xs': seq<Sight>, p: Pass,
                  i: nat)
    requires Played(f, stands, first, xs, last, xs', p) && i < |stands|
    ensures first.accounts.calls <= f.syncs[i].accounts.calls <= f.syncs[i + 1].accounts.calls <= last.accounts.calls
    ensures first.accounts.calls <= f.dues[i].accounts.calls <= f.dues[i + 1].accounts.calls <= last.accounts.calls
  {
    var n := |stands|;
    forall k: nat | k < n
      ensures f.syncs[k].accounts.calls <= f.syncs[k + 1].accounts.calls
      ensures f.listings[k].accounts.calls <= f.listings[k + 1].accounts.calls
      ensures f.dues[k].accounts.calls <= f.dues[k + 1].accounts.calls
      ensures p.wonOrders ==> f.orders[k].accounts.calls <= f.orders[k + 1].accounts.calls
    {
      TurnsGrow(f, stands, first, xs, last, xs', p, k);
    }
    hide TurnOne, TurnTwo, TurnThree, TurnFour;
    TrailGrows(f.syncs, 0, i);
    TrailGrows(f.syncs, i + 1, n);
    TrailGrows(f.listings, 0, n);
    TrailGrows(f.dues, 0, i);
    TrailGrows(f.dues, i + 1, n);
    if p.wonOrders {
      TrailGrows(f.orders, 0, n);
    }
  }

  lemma TurnsGrow(f: Film, stands: seq<Stand>, first: Before, xs: seq<Sight>, last: Before, xs': seq<Sight>, p: Pass,
                  k: nat)
    requires Played(f, stands, first, xs, last, xs', p) && k < |stands|
    ensures f.syncs[k].accounts.calls <= f.syncs[k + 1].accounts.calls
    ensures f.listings[k].accounts.calls <= f.listings[k + 1].accounts.calls
    ensures f.dues[k].accounts.calls <= f.dues[k + 1].accounts.calls
    ensures p.wonOrders ==> f.orders[k].accounts.calls <= f.orders[k + 1].accounts.calls
  {
    PlayedTurns(f, stands, first, xs, last, xs', p, k);
    hide Played, Resellers.SyncedReseller, PartTwo, AllDue, PartFour, TableOf, Tabled;
  }

  // The same accounts, apart from their status.
  predicate SameQuotas(a: map<string, Admin>, b: map<string, Admin>) {
    forall n :: n in a ==> n in b && b[n] == a[n].(status := b[n].status)
  }

  lemma SyncKeepsQuotas(i: nat, st: Stand, was: Before, x: Sight, now: Before, x': Sight, p: Pass)
    requires TurnOne(i, st, was, x, now, x', p)
    ensures SameQuotas(was.accounts.admins, now.accounts.admins)
  {
    var r := Resellers.SyncedReseller(st.status, st.hold, st.admin, was.accounts.admins, was.users, p.at, p.settings,
                                      p.nets(i));
    assert now.accounts.admins == r.admins;
    hide TurnOne;
    SyncedIsLicensed(i, seq(i + 1, _ => st), was.accounts.admins, was.users, was, p, p.nets(i));
    hide Resellers.SyncedReseller;
  }

  lemma {:induction false} SyncsKeepQuotas(f: Film, stands: seq<Stand>, xs: seq<Sight>, p: Pass, i: nat)
    requires i <= |stands| == |xs| == |f.one| && |f.syncs| == |stands| + 1
    requires forall k: nat :: k < |stands| ==> TurnOne(k, stands[k], f.syncs[k], xs[k], f.syncs[k + 1], f.one[k], p)
    ensures SameQuotas(f.syncs[0].accounts.admins, f.syncs[i].accounts.admins)
  {
    hide TurnOne;
    if i > 0 {
      SyncsKeepQuotas(f, stands, xs, p, i - 1);
      SyncKeepsQuotas(i - 1, stands[i - 1], f.syncs[i - 1], xs[i - 1], f.syncs[i], f.one[i - 1], p);
    }
  }

  // Automation may switch the i-th reseller's account off, and the account it sees is used up.
  predicate MustExpire(i: nat, st: Stand, admins: map<string, Admin>, p: Pass) {
    && (st.status == ResellerActive || st.status == Trial || st.status == LowQuota)
    && !st.hold && st.admin != "" && st.admin in admins && p.nets(i).readable
    && !p.settings.dryRun && p.settings.allowDisable
    && var a := admins[st.admin];
    || (a.expire.Some? && a.expire.value <= p.at)
    || (a.dataLimit.Some? && a.dataLimit.value > 0 && a.dataLimit.value <= a.used)
  }

  lemma MustExpireStays(i: nat, st: Stand, admins: map<string, Admin>, admins': map<string, Admin>, p: Pass)
    requires MustExpire(i, st, admins, p) && SameQuotas(admins, admins')
    ensures MustExpire(i, st, admins', p)
  {
  }

  lemma SyncExpires(i: nat, st: Stand, was: Before, x: Sight, now: Before, x': Sight, p: Pass)
    requires TurnOne(i, st, was, x, now, x', p) && MustExpire(i, st, was.accounts.admins, p)
    ensures DisableAdmin(st.admin) in now.accounts.calls[|was.accounts.calls|..]
    ensures Resellers.CleanNet(p.nets(i)) && p.nets(i).disable.executed ==>
      x'.seat.row.status == ResellerExpired && now.accounts.admins[st.admin].status == Disabled
    ensures Resellers.CleanNet(p.nets(i)) && p.nets(i).capable ==>
      && DisableAdminUsers(st.admin) in now.accounts.calls[|was.accounts.calls|..]
      && |x'.kids| == |x.kids|
      && forall k :: 0 <= k < |x.kids| && x.kids[k].local == LocalActive ==> x'.kids[k].byParent
  {
    Resellers.ExhaustedAccountIsSwitchedOff(st.status, st.admin, was.accounts.admins, was.users, p.at, p.settings,
                                            p.nets(i));
    hide Resellers.SyncedReseller, AllOff, SameButStatus;
  }

  /** Expiry: no serving, un-held reseller whose account was used up when the pass began is left without its
      switch-off, where that is permitted and the account could be read. */
  lemma UsedUpAccountsAreSwitchedOff(f: Film, stands: seq<Stand>, first: Before, xs: seq<Sight>, last: Before,
                                     xs': seq<Sight>, p: Pass, i: nat)
    requires Played(f, stands, first, xs, last, xs', p) && i < |stands|
    requires MustExpire(i, stands[i], first.accounts.admins, p)
    ensures first.accounts.calls <= last.accounts.calls
    ensures DisableAdmin(stands[i].admin) in last.accounts.calls[|first.accounts.calls|..]
    ensures Resellers.CleanNet(p.nets(i)) && p.nets(i).disable.executed ==> f.one[i].seat.row.status == ResellerExpired
    ensures Resellers.CleanNet(p.nets(i)) && p.nets(i).capable ==>
      && DisableAdminUsers(stands[i].admin) in last.accounts.calls[|first.accounts.calls|..]
      && |f.one[i].kids| == |xs[i].kids|
      && forall k :: 0 <= k < |xs[i].kids| && xs[i].kids[k].local == LocalActive ==> f.one[i].kids[k].byParent
  {
    CallsGrow(f, stands, first, xs, last, xs', p, i);
    hide TurnOne, TurnTwo, Ends, MustExpire, SameQuotas, Resellers.CleanNet;
    SyncsKeepQuotas(f, stands, xs, p, i);
    MustExpireStays(i, stands[i], first.accounts.admins, f.syncs[i].accounts.admins, p);
    SyncExpires(i, stands[i], f.syncs[i], xs[i], f.syncs[i + 1], f.one[i], p);
    SentStays(first.accounts.calls, f.syncs[i].accounts.calls, f.syncs[i + 1].accounts.calls, last.accounts.calls);
  }

  lemma SentStays(a: seq<Call>, b: seq<Call>, c: seq<Call>, d: seq<Call>)
    requires a <= b <= c <= d
    ensures forall x :: x in c[|b|..] ==> x in d[|a|..]
  {
    forall x | x in c[|b|..] ensures x in d[|a|..] {
      var k :| 0 <= k < |c[|b|..]| && c[|b|..][k] == x;
      assert d[|a|..][|b| - |a| + k] == x;
    }
  }

  // The listing shows the i-th reseller's k-th user owned and used up, and the reseller is not held.
  predicate MustSchedule(i: nat, st: Stand, k: nat, p: Pass) {
    && !st.hold && st.admin != "" && p.listings(i).Some? && DistinctUsers(p.listings(i).value)
    && k < |p.listings(i).value|
    && OwnedBy(p.listings(i).value[k], st.admin) && Spent(p.listings(i).value[k], p.listedAt)
  }

  predicate NeverDetected(x: Sight, name: string) {
    forall k :: 0 <= k < |x.names| && k < |x.kids| && x.names[k] == name ==> x.kids[k].detectedAt.None?
  }

  // A row for the name is down as expired: since this pass if it was not before.
  predicate Scheduled(x: Sight, x': Sight, name: string, p: Pass) {
    exists j :: 0 <= j < |x'.names| && j < |x'.kids| && x'.names[j] == name && x'.kids[j].detectedAt.Some?
      && (NeverDetected(x, name) ==>
            && x'.kids[j].detectedAt == Some(p.listedAt) && x'.kids[j].local in {LocalExpired, LocalDeleted}
            && (x'.kids[j].local == LocalExpired ==>
                  x'.kids[j].deleteAfter == Some(p.listedAt + p.graceHours * 3_600_000_000)))
  }

  lemma SyncKeepsDetections(i: nat, st: Stand, was: Before, x: Sight, now: Before, x': Sight, p: Pass, name: string)
    requires TurnOne(i, st, was, x, now, x', p) && NeverDetected(x, name)
    ensures NeverDetected(x', name)
  {
    hide Resellers.SyncedReseller, SameButStatus, Revivable, Lookup;
  }

  lemma ListingSchedules(i: nat, st: Stand, was: Before, x: Sight, now: Before, x': Sight, k: nat, p: Pass)
    requires TurnTwo(i, st, was, x, now, x', p) && MustSchedule(i, st, k, p)
    ensures var name := p.listings(i).value[k].username;
      exists j :: 0 <= j < |x'.names| && j < |x'.kids| && x'.names[j] == name && x'.kids[j].detectedAt.Some?
        && (NeverDetected(x, name) ==>
              && x'.kids[j].detectedAt == Some(p.listedAt) && x'.kids[j].local == LocalExpired
              && x'.kids[j].deleteAfter == Some(p.listedAt + p.graceHours * 3_600_000_000))
  {
    var live := p.listings(i).value[k];
    var table, table' := TableOf(x.names, x.kids), TableOf(x'.names, x'.kids);
    assert Detected(table, table', live, p.listedAt, p.graceHours);
    var j :| 0 <= j < |x'.kids| && x'.names[j] == live.username && table'[live.username] == x'.kids[j];
    if NeverDetected(x, live.username) {
      assert live.username in table ==> table[live.username].detectedAt.None?;
    }
    hide SyncedAll, OwnedBy, Spent;
  }

  // A due row stays down as detected, with its date, until it is deleted.
  lemma DueKeepsDetection(row: Child, name: string, owner: string, hold: bool, user: Option<User>, now: int,
                          s: Settings, delivered: bool, net: DeleteNet)
    ensures var row' := DueOutcome(row, name, owner, hold, user, now, s, delivered, net).row;
      && row'.detectedAt == row.detectedAt
      && (row'.local == LocalDeleted || (row'.local == row.local && row'.deleteAfter == row.deleteAfter))
  {
    if row.deleteAfter.Some? {
      DueRowsAreHandled(row, name, owner, hold, user, now, s, delivered, net);
    }
    hide DueChild;
  }

  /** Detection: every owned, used-up user on a reseller's listing is down as expired after the pass, with
      the end of its grace period, unless already deleted. */
  lemma ListedUsersAreScheduled(f: Film, stands: seq<Stand>, first: Before, xs: seq<Sight>, last: Before,
                                xs': seq<Sight>, p: Pass, i: nat, k: nat)
    requires Played(f, stands, first, xs, last, xs', p) && i < |stands| && MustSchedule(i, stands[i], k, p)
    ensures Scheduled(xs[i], xs'[i], p.listings(i).value[k].username, p)
  {
    PlayedTurns(f, stands, first, xs, last, xs', p, i);
    hide *;
    ScheduledThrough(f, stands[i], xs[i], xs'[i], p, i, k);
  }

  lemma ScheduledThrough(f: Film, st: Stand, x: Sight, x': Sight, p: Pass, i: nat, k: nat)
    requires i + 1 < |f.syncs| == |f.listings| == |f.dues| && i < |f.one| == |f.two| == |f.three|
    requires TurnOne(i, st, f.syncs[i], x, f.syncs[i + 1], f.one[i], p)
    requires TurnTwo(i, st, f.listings[i], f.one[i], f.listings[i + 1], f.two[i], p)
    requires TurnThree(i, st, f.dues[i], f.two[i], f.dues[i + 1], f.three[i], p)
    requires x'.names == f.three[i].names && x'.kids == f.three[i].kids && MustSchedule(i, st, k, p)
    ensures Scheduled(x, x', p.listings(i).value[k].username, p)
  {
    var y, z, name := f.one[i], f.two[i], p.listings(i).value[k].username;
    hide TurnOne, TurnTwo, TurnThree, MustSchedule, NeverDetected;
    if NeverDetected(x, name) {
      SyncKeepsDetections(i, st, f.syncs[i], x, f.syncs[i + 1], y, p, name);
    }
    ListingSchedules(i, st, f.listings[i], y, f.listings[i + 1], z, k, p);
    DuesKeep(i, st, f.dues[i], z, f.dues[i + 1], f.three[i], p);
  }

  lemma DuesKeep(i: nat, st: Stand, was: Before, x: Sight, now: Before, x': Sight, p: Pass)
    requires TurnThree(i, st, was, x, now, x', p)
    ensures |x'.kids| == |x.kids| == |x.names| && x'.names == x.names
    ensures forall k :: 0 <= k < |x.kids| ==>
      && x'.kids[k].detectedAt == x.kids[k].detectedAt
      && (x'.kids[k].local == LocalDeleted ||
          (x'.kids[k].local == x.kids[k].local && x'.kids[k].deleteAfter == x.kids[k].deleteAfter))
  {
    forall k: nat | k < |x.kids|
      ensures x'.kids[k].detectedAt == x.kids[k].detectedAt
      ensures x'.kids[k].local == LocalDeleted ||
              (x'.kids[k].local == x.kids[k].local && x'.kids[k].deleteAfter == x.kids[k].deleteAfter)
    {
      DueKeepsDetection(x.kids[k], x.names[k], st.admin, st.hold, Lookup(was.users, x.names[k]), p.dueAt, p.settings,
                        p.warned(i)(k), p.deletes(i)(k));
      hide DueOutcome;
    }
  }

  /** Deletions: every row that is due is handled by its own guard. A delete is asked for exactly where the
      switches, the holds, the date and the panel's copy of the user permit it, and the row is marked exactly
      when the removal was then seen; nothing else changes but the note of a warning. */
  lemma DueRowsAreDone(f: Film, stands: seq<Stand>, first: Before, xs: seq<Sight>, last: Before, xs': seq<Sight>,
                       p: Pass, i: nat, k: nat)
    requires Played(f, stands, first, xs, last, xs', p) && i < |stands|
    ensures |f.dues| == |stands| + 1 && |f.two| == |xs'| == |stands|
    ensures first.accounts.calls <= last.accounts.calls
    ensures |xs'[i].kids| == |f.two[i].kids| == |f.two[i].names| && xs'[i].names == f.two[i].names
    ensures k < |f.two[i].kids| && f.two[i].kids[k].deleteAfter.Some? ==>
      var row, row', name := f.two[i].kids[k], xs'[i].kids[k], f.two[i].names[k];
      var left, net := row.deleteAfter.value - p.dueAt, p.deletes(i)(k);
      var asked := && !row.hold && !stands[i].hold && left <= 0 && net.readable
                   && !p.settings.dryRun && p.settings.destructive && p.settings.allowDelete
                   && name in f.dues[i].users && OwnedBy(f.dues[i].users[name], stands[i].admin)
                   && Spent(f.dues[i].users[name], p.dueAt);
      var removed := asked && net.delivery.executed && net.delivery.acknowledged && net.confirmable;
      && (asked ==> DeleteUser(name) in last.accounts.calls[|first.accounts.calls|..])
      && (asked && net.delivery.executed ==> name !in f.dues[i + 1].users)
      && row'.local == (if removed then LocalDeleted else row.local)
      && row'.deleteAfter == (if removed then None else row.deleteAfter)
      && row'.warnedAt == (if 0 < left <= 86_400_000_000 && row.warnedAt.None? && p.warned(i)(k) then Some(p.dueAt)
                           else row.warnedAt)
    ensures k < |f.two[i].kids| && f.two[i].kids[k].deleteAfter.None? ==> xs'[i].kids[k] == f.two[i].kids[k]
  {
    PlayedTurns(f, stands, first, xs, last, xs', p, i);
    CallsGrow(f, stands, first, xs, last, xs', p, i);
    hide Played, TurnOne, TurnTwo, TurnFour;
    SentStays(first.accounts.calls, f.dues[i].accounts.calls, f.dues[i + 1].accounts.calls, last.accounts.calls);
    if k < |f.two[i].kids| {
      var row, name := f.two[i].kids[k], f.two[i].names[k];
      DueIsDone(row, name, stands[i].admin, stands[i].hold, Lookup(f.dues[i].users, name), xs'[i].kids[k],
                Lookup(f.dues[i + 1].users, name), f.dues[i + 1].accounts.calls[|f.dues[i].accounts.calls|..], p.dueAt,
                p.settings, p.warned(i)(k), p.deletes(i)(k));
    }
    hide OwnedBy, Spent, DueOk;
  }

  lemma DueIsDone(row: Child, name: string, admin: string, hold: bool, user: Option<User>, row': Child,
                  user': Option<User>, sent: seq<Call>, now: int, s: Settings, delivered: bool, net: DeleteNet)
    requires DueOk(row, name, admin, hold, user, row', user', sent, now, s, delivered, net)
    ensures row.deleteAfter.Some? ==>
      var left := row.deleteAfter.value - now;
      var asked := && !row.hold && !hold && left <= 0 && net.readable && !s.dryRun && s.destructive && s.allowDelete
                   && user.Some? && OwnedBy(user.value, admin) && Spent(user.value, now);
      var removed := asked && net.delivery.executed && net.delivery.acknowledged && net.confirmable;
      && (asked ==> DeleteUser(name) in sent)
      && (asked && net.delivery.executed ==> user'.None?)
      && row'.local == (if removed then LocalDeleted else row.local)
      && row'.deleteAfter == (if removed then None else row.deleteAfter)
      && row'.warnedAt == (if 0 < left <= 86_400_000_000 && row.warnedAt.None? && delivered then Some(now)
                           else row.warnedAt)
    ensures row.deleteAfter.None? ==> row' == row
  {
    if row.deleteAfter.Some? {
      DueRowsAreHandled(row, name, admin, hold, user, now, s, delivered, net);
      hide DueChild;
      if Children.Selected(row, now) {
        assert DeleteUser(name) in [DeleteUser(name)];
      }
    }
  }

  /** Orders, where the pass held their lock: with the runtime mode live every selected order had its visit or
      attempt, from the scene the turn before it left; every other order, and every order under dry run, is
      as it was. */
  lemma SelectedOrdersAreWorkedOn(f: Film, stands: seq<Stand>, first: Before, xs: seq<Sight>, last: Before,
                                  xs': seq<Sight>, p: Pass, i: nat, k: nat)
    requires Played(f, stands, first, xs, last, xs', p) && i < |stands| && k < |xs[i].papers|
    ensures |xs'| == |xs| == |stands| && |xs'[i].papers| == |xs[i].papers|
    ensures !p.wonOrders ==> xs'[i].papers[k] == xs[i].papers[k]
    ensures p.wonOrders ==>
      && |f.scenes| == |stands| && |f.scenes[i]| == |xs[i].papers| + 1
      && var o, s, o', s', t := xs[i].papers[k], f.scenes[i][k], xs'[i].papers[k], f.scenes[i][k + 1], p.turns(i)(k);
      && (p.Mode() != Some(false) || o.now.order.status !in {Paid, Applying} || t.product.None? ==> o' == o && s' == s)
      && (p.Mode() == Some(false) && o.now.order.status in {Paid, Applying} && t.product.Some? ==>
            if s.admin == "" || s.row.status == ResellerStatus.Provisioning then
              exists name :: VisitedTo(o, s, o', s', t, NamesInUse(f.three, xs'[..i]), name)
            else AttemptedTo(o, s, o', s', t))
  {
    PlayedTurns(f, stands, first, xs, last, xs', p, i);
    PapersStay(f, stands, first, xs, last, xs', p, i);
    hide Played, TurnOne, TurnTwo, TurnThree, VisitedTo, AttemptedTo;
    if p.wonOrders {
      assert Reconciled(xs[i].papers[k], f.scenes[i][k], xs'[i].papers[k], f.scenes[i][k + 1], p.Mode(), p.turns(i)(k),
                        NamesInUse(f.three, xs'[..i]));
    }
  }

  lemma PapersStay(f: Film, stands: seq<Stand>, first: Before, xs: seq<Sight>, last: Before, xs': seq<Sight>, p: Pass,
                   i: nat)
    requires Played(f, stands, first, xs, last, xs', p) && i < |stands|
    ensures |f.three| == |xs| == |xs'| == |stands|
    ensures f.three[i].papers == xs[i].papers && (!p.wonOrders ==> xs' == f.three)
  {
    PlayedTurns(f, stands, first, xs, last, xs', p, i);
    hide PartOne, PartTwo, PartThree, TurnFour;
  }

  /** So a paid renewal whose target is recognisable, met by no fault, is applied by the pass. */
  lemma CleanRenewalsAreApplied(f: Film, stands: seq<Stand>, first: Before, xs: seq<Sight>, last: Before,
                                xs': seq<Sight>, p: Pass, i: nat, k: nat)
    requires Played(f, stands, first, xs, last, xs', p) && i < |stands| && k < |xs[i].papers|
    requires p.wonOrders && p.Mode() == Some(false) && |f.scenes| == |stands| && |f.scenes[i]| == |xs[i].papers| + 1
    requires var s, t := f.scenes[i][k], p.turns(i)(k);
      && xs[i].papers[k].now.order == Order(Paid, None) && t.product.Some? && t.net == Payments.CLEAN
      && s.admin != "" && s.admin in s.accounts.admins && s.row.status !in {ResellerStatus.Provisioning, Suspended}
      && Purchase(t.product.value) && t.now >= 1_000_000 && s.accounts.admins[s.admin].used >= 0
      && Recovery.Recognisable(s.accounts.admins[s.admin],
                               TargetSnapshot(s.accounts.admins[s.admin], t.product.value, t.now), s.row.status)
    ensures |xs'| == |stands| && |xs'[i].papers| == |xs[i].papers|
    ensures xs'[i].papers[k].now.order.status == Applied && xs'[i].papers[k].now.appliedAt == Some(p.turns(i)(k).now)
  {
    SelectedOrdersAreWorkedOn(f, stands, first, xs, last, xs', p, i, k);
    hide Played, AttemptedTo, VisitedTo, Recovery.Recognisable, TargetSnapshot;
    CleanRenewalIsApplied(xs[i].papers[k], f.scenes[i][k], xs'[i].papers[k], f.scenes[i][k + 1], p.turns(i)(k));
  }

  /** A whole pass, with first purchases and renewals. If it holds its lock and nothing cuts it short, which
      without faults nothing does, every part has done its work on every reseller: accounts used up are switched
      off, users used up are scheduled, due rows handled and selected orders worked on. Every request it
      sends is accounted for by one reseller as it stood before the pass; accounts change only where a request
      names them, users only in status or by deletion; no suspension is lifted or imposed; dry run asks and
      changes nothing, and so does a pass without its lock. */
  method Run(accounts: seq<Account>, panel: Panel, p: Pass, ghost stands: seq<Stand>)
    returns (accounts': seq<Account>, aborted: bool, ghost f: Film)
    requires Apart(accounts) && Loaded(accounts, stands)
    modifies ResellersOf(accounts), KidsOf(accounts), OrdersOf(accounts), panel
    ensures |accounts'| == |accounts|
    ensures forall i :: 0 <= i < |accounts| ==>
      accounts'[i].reseller == accounts[i].reseller && accounts'[i].orders == accounts[i].orders
    ensures p.won && !aborted ==>
      Played(f, stands, old(Now(panel)), old(Sights(accounts)), Now(panel), Sights(accounts'), p)
    ensures p.won && !aborted ==> forall i: nat :: i < |stands| && MustExpire(i, stands[i], old(panel.admins), p) ==>
      && old(panel.calls) <= panel.calls
      && DisableAdmin(stands[i].admin) in panel.calls[|old(panel.calls)|..]
    ensures p.won && !aborted ==> forall i: nat, k: nat :: i < |stands| && MustSchedule(i, stands[i], k, p) ==>
      Scheduled(old(SightOf(accounts[i])), SightOf(accounts'[i]), p.listings(i).value[k].username, p)
    ensures p.won && FaultFree(p, old(panel.users)) ==> !aborted
    ensures !p.won ==> !aborted && Sights(accounts) == old(Sights(accounts)) && Now(panel) == old(Now(panel))
    ensures AllAccounted(old(panel.calls), panel.calls, stands, old(Now(panel)), p)
    ensures Grows(old(Provisioning.View(panel)), Provisioning.View(panel)) && Shrinks(old(panel.users), panel.users)
    ensures panel.calls == old(panel.calls) ==> Now(panel) == old(Now(panel))
    ensures AllSeated(accounts', stands, old(Now(panel)))
    ensures p.settings.dryRun && p.storedMode in {None, Some("dry_run")} ==> Now(panel) == old(Now(panel))
  {
    ghost var before, xs := Now(panel), Sights(accounts);
    hide SightOf;
    accounts', aborted, f := RunParts(accounts, panel, p, stands, before);
    hide Licensed, LicensedBy, AllSeated, Apart, FaultFree;
    if panel.calls == before.accounts.calls {
      UnaskedIsUnchanged(before.accounts, Provisioning.View(panel));
    }
    hide Grows, Played, MustExpire, MustSchedule, Scheduled;
    if p.settings.dryRun && p.storedMode in {None, Some("dry_run")} {
      DryRunIsSilent(before.accounts.calls, panel.calls, stands, before, p);
    }
    if p.won && !aborted {
      RunIsDone(f, stands, before, xs, Now(panel), Sights(accounts'), p);
    }
  }

  lemma RunIsDone(f: Film, stands: seq<Stand>, first: Before, xs: seq<Sight>, last: Before, xs': seq<Sight>, p: Pass)
    requires Played(f, stands, first, xs, last, xs', p) && |xs| == |xs'| == |stands|
    ensures forall i: nat :: i < |stands| && MustExpire(i, stands[i], first.accounts.admins, p) ==>
      && first.accounts.calls <= last.accounts.calls
      && DisableAdmin(stands[i].admin) in last.accounts.calls[|first.accounts.calls|..]
    ensures forall i: nat, k: nat :: i < |stands| && MustSchedule(i, stands[i], k, p) ==>
      Scheduled(xs[i], xs'[i], p.listings(i).value[k].username, p)
  {
    hide Played, MustExpire, Scheduled;
    forall i: nat | i < |stands| && MustExpire(i, stands[i], first.accounts.admins, p)
      ensures first.accounts.calls <= last.accounts.calls
      ensures DisableAdmin(stands[i].admin) in last.accounts.calls[|first.accounts.calls|..]
    {
      UsedUpAccountsAreSwitchedOff(f, stands, first, xs, last, xs', p, i);
    }
    forall i: nat, k: nat | i < |stands| && MustSchedule(i, stands[i], k, p)
      ensures Scheduled(xs[i], xs'[i], p.listings(i).value[k].username, p)
    {
      ListedUsersAreScheduled(f, stands, first, xs, last, xs', p, i, k);
    }
  }

  // ----- What follows from the licences -----

  lemma NothingIsLicensedInDryRun(c: Call, stands: seq<Stand>, before: Before, p: Pass)
    requires p.settings.dryRun && p.storedMode in {None, Some("dry_run")}
    ensures !Licensed(c, stands, before, p)
  {
  }

  /** Dry-run non-interference: with both dry-run switches set a pass can ask the panel nothing. */
  lemma DryRunIsSilent(calls: seq<Call>, calls': seq<Call>, stands: seq<Stand>, before: Before, p: Pass)
    requires AllAccounted(calls, calls', stands, before, p)
    requires p.settings.dryRun && p.storedMode in {None, Some("dry_run")}
    ensures calls' == calls
  {
    hide Licensed;
    var first := if |calls| < |calls'| then calls'[|calls|] else CreateAdmin("");
    NothingIsLicensedInDryRun(first, stands, before, p);
  }

  /** The runtime switch alone stops what orders ask for, and nothing else: creates, updates and enables. */
  lemma RuntimeDryRunStopsOrders(calls: seq<Call>, calls': seq<Call>, stands: seq<Stand>, before: Before, p: Pass,
                                 k: nat)
    requires AllAccounted(calls, calls', stands, before, p) && |calls| <= k < |calls'| && p.Mode() == Some(true)
    ensures !calls'[k].CreateAdmin? && !calls'[k].UpdateAdmin? && !calls'[k].EnableAdmin?
    ensures calls'[k].DisableAdmin? ==>
      exists i :: 0 <= i < |stands| && stands[i].admin == calls'[k].username
                  && Resellers.Serving(stands[i].status) && Automatic(stands[i], p.settings)
  {
    hide PanelShows, Listing;
  }

  /** The environment's switch alone stops all other automation: only what orders ask for is left. */
  lemma EnvironmentDryRunLeavesOrders(calls: seq<Call>, calls': seq<Call>, stands: seq<Stand>, before: Before, p: Pass,
                                      k: nat)
    requires AllAccounted(calls, calls', stands, before, p) && |calls| <= k < |calls'| && p.settings.dryRun
    ensures calls'[k].CreateAdmin? || calls'[k].UpdateAdmin? || calls'[k].EnableAdmin? || calls'[k].DisableAdmin?
    ensures calls'[k].DisableAdmin? ==>
      exists i ::
        && 0 <= i < |stands| && stands[i].admin == calls'[k].username && stands[i].admin in before.accounts.admins
        && Buying(stands[i]) && Provisioning.Privileged(before.accounts.admins[stands[i].admin])
  {
    hide PanelShows, Listing;
  }

  /** So a pass under runtime dry run still deletes: every due child of a reseller without a hold that the
      panel shows owned and exhausted, if the environment permits deletion. */
  lemma RuntimeDryRunStillDeletes(p: Pass, row: Child, name: string, owner: string, user: User, delivered: bool)
    requires p.Mode() == Some(true) && MayDelete(p.settings)
    requires row.deleteAfter.Some? && row.deleteAfter.value <= p.dueAt && !row.hold
    requires VerifiedOwner(user, owner) && UserExhausted(user, p.dueAt)
    ensures var r := DueChild(row, name, owner, false, Some(user), p.dueAt, p.settings, delivered, CLEAN_DELETE);
      r.calls == [DeleteUser(name)] && r.user == None && r.row.local == LocalDeleted
  {
  }

  /** With any switch for deletion off no user is deleted. */
  lemma NoDeleteWithoutPermission(calls: seq<Call>, calls': seq<Call>, stands: seq<Stand>, before: Before, p: Pass,
                                  k: nat)
    requires AllAccounted(calls, calls', stands, before, p) && |calls| <= k < |calls'|
    requires p.settings.dryRun || !p.settings.destructive || !p.settings.allowDelete
    ensures !calls'[k].DeleteUser?
  {
  }

  /** A suspended reseller's account is named in no request, and its users are switched on by nobody. */
  lemma SuspendedIsNeverNamed(calls: seq<Call>, calls': seq<Call>, stands: seq<Stand>, before: Before, p: Pass, i: nat,
                              k: nat)
    requires AllAccounted(calls, calls', stands, before, p) && |calls| <= k < |calls'|
    requires i < |stands| && SuspendedAccount(stands[i])
    requires forall j :: 0 <= j < |stands| && j != i ==> stands[j].admin != stands[i].admin
    ensures !Names(calls'[k], stands[i].admin)
    ensures calls'[k].EnableUser? ==>
      exists j :: 0 <= j < |stands| && j != i && stands[j].status == ResellerActive && !stands[j].hold
                  && (PanelShows(before.users, calls'[k].username, stands[j].admin, false, p.at)
                      || Listing(p, j, calls'[k].username, stands[j].admin, false))
  {
    hide PanelShows, Listing;
  }

  /** An account is switched off without the permission to, or despite a hold, in one case only: the guard
      of provision, for a first purchase's account that turned out to be privileged. */
  lemma UnpermittedSwitchOffIsTheGuard(calls: seq<Call>, calls': seq<Call>, stands: seq<Stand>, before: Before,
                                       p: Pass, k: nat)
    requires AllAccounted(calls, calls', stands, before, p) && |calls| <= k < |calls'| && calls'[k].DisableAdmin?
    ensures exists i ::
      && 0 <= i < |stands| && stands[i].admin == calls'[k].username
      && (Automatic(stands[i], p.settings)
          || (Buying(stands[i]) && p.Mode() == Some(false) && stands[i].admin in before.accounts.admins
              && Provisioning.Privileged(before.accounts.admins[stands[i].admin])))
  {
    hide PanelShows, Listing;
  }
}
