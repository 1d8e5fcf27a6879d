/** _reconcile_orders_locked (app/scheduler/jobs.py): paid orders on their rows, first purchases and
    renewals, and what the panel is asked for them. */
module Reconcile {
  import opened Prelude
  import opened Quota
  import opened Wire
  import opened Entitlement
  import opened RebeccaPanel
  import opened OrderMachine
  import opened Payments
  import Provisioning
  import FirstPurchase
  import Recovery

  // ----- A first purchase on the rows -----

  function EntitledOf(plan: Option<Plan>): Option<Entitled> {
    if plan.Some? && plan.value.target.dataLimit.Some? && plan.value.target.expire.Some? then
      var t := plan.value.target;
      Some(Entitled(t.expire.value, t.dataLimit.value, t.services, t.usersLimit))
    else None
  }

  function FirstTarget(p: Product, now: int): Entitled {
    Entitled(now + p.days * DAY, p.trafficGb * GIB, p.services, p.usersLimit)
  }

  /** A first purchase asks for what a renewal of an account without expiry, limit and usage would get at
      the same clock; and a stored reservation reads back as it was. */
  lemma FirstPurchaseIsARenewalOfNothing(p: Product, now: int)
    ensures var t := FirstTarget(p, now);
      && t.expire == RenewalExpiry(None, now, p.days) == now + p.days * 86_400_000_000
      && t.dataLimit == RenewalDataLimit(None, 0, p.trafficGb * 1_073_741_824) == p.trafficGb * 1_073_741_824
      && t.services == p.services && t.usersLimit == p.usersLimit
      && EntitledOf(Some(ReservedPlan(t))) == Some(t)
  {
  }

  /** The account of an order that a first purchase applied: the product's traffic, users limit and
      services, and an expiry in the second the product's days end. */
  ghost predicate HandedOver(admins: map<string, Admin>, admin: string, p: Product, now: int) {
    && admin in admins
    && var a := admins[admin];
    && a.username == admin && a.role == "reseller" && (a.status == Active || a.status == Enabled)
    && a.dataLimit == Some(p.trafficGb * 1_073_741_824)
    && a.usersLimit == p.usersLimit
    && (forall x :: x in a.services <==> x in p.services)
    && a.expire.Some?
    && (now + p.days * 86_400_000_000 >= 1_000_000 ==>
          a.expire.value / 1_000_000 == (now + p.days * 86_400_000_000) / 1_000_000)
  }

  lemma AppliedMeansHandedOver(s: FirstPurchase.State, v: FirstPurchase.Visit, p: Product, now: int)
    requires s.mem.order in {Paid, Applying} && s.db.order != Applied && s.mem.username.None?
    requires v.target == FirstTarget(p, now)
    ensures var f := FirstPurchase.Visited(s, v);
      f.mem.order == Applied ==>
        && f.mem.username.Some? && f.mem.username == v.name && f.mem.reseller == ResellerActive
        && HandedOver(f.panel.admins, f.mem.username.value, p, now)
        && (v.arrived ==> f.received == Some(v.password))
  {
    var f := FirstPurchase.Visited(s, v);
    FirstPurchase.VisitAppliesIff(s, v);
    if f.mem.order == Applied {
      var username := v.name.value;
      Provisioning.NormalReturnMeansGranted(s.panel, username, v.target, v.password, v.net);
      hide FirstPurchase.Visited, Provisioning.Provisioned;
      GrantIsHandedOver(f.panel.admins[username], username, p, now);
    }
  }

  lemma GrantIsHandedOver(a: Admin, admin: string, p: Product, now: int)
    requires Provisioning.Grants(a, admin, FirstTarget(p, now)) && NormalizeStatus(a.status) == Active
    ensures HandedOver(map[admin := a], admin, p, now)
  {
    assert forall x :: x in Provisioning.Distinct(a.services) <==> x in a.services;
    assert forall x :: x in Provisioning.Distinct(p.services) <==> x in p.services;
  }

  function PurchaseRows(admin: string, reseller: ResellerStatus, order: Order): FirstPurchase.Rows {
    FirstPurchase.Rows(if admin == "" then None else Some(admin), reseller, order.status, EntitledOf(order.plan))
  }

  /** One order's row, and one reseller's row with the panel's accounts, as values. */
  datatype Paper = Paper(now: OrderImage, saved: OrderImage)

  datatype Scene = Scene(admin: string, hold: bool, row: ResellerImage, saved: ResellerImage, received: Option<string>,
                         accounts: Provisioning.Accounts)

  ghost function PaperOf(order: OrderRow): Paper
    reads order
  {
    Paper(order.Image(), order.saved)
  }

  ghost function SceneOf(reseller: ResellerRow, panel: Panel): Scene
    reads reseller, panel
  {
    Scene(reseller.admin, reseller.hold, reseller.Image(), reseller.saved, reseller.received, Provisioning.View(panel))
  }

  // As the first-purchase machine sees them, session and database.
  function ShowOf(o: Paper, s: Scene): FirstPurchase.State {
    FirstPurchase.State(
      s.accounts,
      PurchaseRows(s.admin, s.saved.status, o.saved.order),
      PurchaseRows(s.admin, s.row.status, o.now.order),
      FirstPurchase.Idle, s.received, [], false, false, {}, false)
  }

  // And as apply_order sees them.
  function RowsFrom(o: Paper, s: Scene): Rows {
    Rows(o.now.order, o.now.appliedAt, o.now.applyError, s.row.status, s.row.productId,
         Lookup(s.accounts.admins, s.admin), o.saved, s.saved)
  }

  ghost function Show(order: OrderRow, reseller: ResellerRow, panel: Panel): FirstPurchase.State
    reads order, reseller, panel
  {
    ShowOf(PaperOf(order), SceneOf(reseller, panel))
  }

  // The same rows, panel and chat; history apart.
  predicate SameRows(s: FirstPurchase.State, t: FirstPurchase.State) {
    s.panel == t.panel && s.db == t.db && s.mem == t.mem && s.received == t.received
  }

  // From provision on: the name is reserved.
  method ProcessReserved(order: OrderRow, reseller: ResellerRow, product: Product, panel: Panel, now: int,
                         v: FirstPurchase.Visit)
    requires reseller.admin != ""
    modifies order, reseller, panel
    ensures SameRows(Show(order, reseller, panel), FirstPurchase.Purchased(old(Show(order, reseller, panel)), v))
    ensures order.status == old(order.status) ||
      (order.status == Applied && reseller.productId == Some(product.id) && order.appliedAt == Some(now)) ||
      order.Image() == old(order.saved)
    ensures order.plan in {old(order.plan), old(order.saved.order.plan)}
    ensures order.saved.order.plan in {old(order.plan), old(order.saved.order.plan)}
    ensures reseller.admin == old(reseller.admin) && reseller.hold == old(reseller.hold)
    ensures panel.users == old(panel.users)
  {
    hide Provisioning.Provisioned;
    var target := EntitledOf(order.plan);
    if reseller.status != ResellerStatus.Provisioning || target.None? {
      return;
    }
    var r := Provisioning.Provision(panel, reseller.admin, v.password, target.value, v.net);
    if r.Raised? {
      return;
    }
    order.applyError := Some(DeliveryPending);
    if !v.commits {
      order.Restore();
      reseller.Restore();
      return;
    }
    order.Save();
    reseller.Save();
    if v.arrived {
      reseller.received := Some(v.password);
    }
    if v.reported {
      reseller.status, reseller.productId := ResellerActive, Some(product.id);
      order.status, order.appliedAt, order.applyError := Applied, Some(now), None;
    }
  }

  // Name and target are durable before the panel sees any create request; a failed commit leaves neither.
  method ReserveName(order: OrderRow, reseller: ResellerRow, name: string, target: Entitled, commits: bool)
    requires reseller.admin == "" && name != ""
    modifies order, reseller
    ensures commits ==>
      && reseller.admin == name && reseller.status == reseller.saved.status == ResellerStatus.Provisioning
      && order.Image() == order.saved && order.saved.order == Order(Applying, Some(ReservedPlan(target)))
    ensures !commits ==>
      && reseller.admin == "" && reseller.Image() == reseller.saved == old(reseller.saved)
      && order.Image() == order.saved == old(order.saved)
    ensures reseller.hold == old(reseller.hold) && reseller.received == old(reseller.received)
  {
    reseller.admin, reseller.status := name, ResellerStatus.Provisioning;
    order.status, order.plan := Applying, Some(ReservedPlan(target));
    if commits {
      order.Save();
      reseller.Save();
    } else {
      reseller.admin := "";
      reseller.Restore();
      order.Restore();
    }
  }

  /** One visit to an order whose reseller has no account yet, or is still PROVISIONING. */
  method ProcessPurchase(order: OrderRow, reseller: ResellerRow, product: Product, panel: Panel, now: int,
                         v: FirstPurchase.Visit)
    requires v.name != Some("") && v.target == FirstTarget(product, now)
    requires order.status in {Paid, Applying}
    modifies order, reseller, panel
    ensures SameRows(Show(order, reseller, panel), FirstPurchase.Visited(old(Show(order, reseller, panel)), v))
    ensures order.status == Applied ==>
      order.Image() == old(order.saved) || (reseller.productId == Some(product.id) && order.appliedAt == Some(now))
    ensures reseller.admin == old(reseller.admin) || (old(reseller.admin) == "" && v.name == Some(reseller.admin))
    ensures old(reseller.admin) != "" ==>
      && order.plan in {old(order.plan), old(order.saved.order.plan)}
      && order.saved.order.plan in {old(order.plan), old(order.saved.order.plan)}
    ensures reseller.hold == old(reseller.hold) && panel.users == old(panel.users)
  {
    hide FirstPurchase.Purchased;
    if reseller.admin == "" {
      if v.name.None? {
        return;
      }
      ReserveName(order, reseller, v.name.value, v.target, v.reserves);
      if !v.reserves {
        return;
      }
    }
    ProcessReserved(order, reseller, product, panel, now, v);
  }

  /** A reserved order whose reseller the owner has taken out of PROVISIONING is paid and never applied:
      no later visit does it, and apply_order, which it now meets, refuses it on every account and under
      all faults, sending nothing. */
  lemma StrandedOrderIsNeverApplied(s: FirstPurchase.State, es: seq<FirstPurchase.Event>, r: Rows, name: string,
                                    product: Product, now: int, net: Net)
    requires FirstPurchase.Stranded(s) && FirstPurchase.Valid(s, es) && s.db.target.Some?
    requires r.order == Order(FirstPurchase.Final(s, es).db.order, Some(ReservedPlan(s.db.target.value)))
    ensures var f, a := FirstPurchase.Final(s, es), Attempted(r, name, product, now, net);
      && f.db.order == s.db.order && f.db.order != Applied && f.db.target == s.db.target
      && a.rows.order == r.order && a.rows.account == r.account && a.calls == [] && a.outcome != Changed
  {
    FirstPurchase.StrandedForever(s, es);
    Recovery.NoBeforeNeverApplies(r, name, product, now, net);
    hide Attempted;
  }

  // ----- Accounts over time -----

  // No request after the first `from` concerns the account.
  predicate Quiet(calls: seq<Call>, from: nat, admin: string) {
    forall k :: from <= k < |calls| ==> !Names(calls[k], admin)
  }

  /** Requests are only added; accounts do not disappear, none gains a privileged role, and one that no
      request names keeps every field and its password. */
  ghost predicate Grows(a: Provisioning.Accounts, b: Provisioning.Accounts) {
    && a.calls <= b.calls
    && a.admins.Keys <= b.admins.Keys
    && (forall n :: n in b.admins && Provisioning.Privileged(b.admins[n]) ==>
          n in a.admins && Provisioning.Privileged(a.admins[n]))
    && (forall n :: Quiet(b.calls, |a.calls|, n) ==>
          Lookup(b.admins, n) == Lookup(a.admins, n) && Lookup(b.passwords, n) == Lookup(a.passwords, n))
  }

  lemma GrowsTwice(a: Provisioning.Accounts, b: Provisioning.Accounts, c: Provisioning.Accounts)
    requires Grows(a, b) && Grows(b, c)
    ensures Grows(a, c)
  {
    hide Provisioning.Privileged, Names, Lookup;
  }

  lemma UnaskedIsUnchanged(a: Provisioning.Accounts, b: Provisioning.Accounts)
    requires Grows(a, b) && b.calls == a.calls
    ensures b == a
  {
    forall n ensures Lookup(b.admins, n) == Lookup(a.admins, n) && Lookup(b.passwords, n) == Lookup(a.passwords, n) {
      assert Quiet(b.calls, |a.calls|, n);
    }
    SameLookups(a.admins, b.admins);
    SameLookups(a.passwords, b.passwords);
  }

  lemma SameLookups<T>(a: map<string, T>, b: map<string, T>)
    requires forall n :: Lookup(a, n) == Lookup(b, n)
    ensures a == b
  {
    forall n ensures n in a <==> n in b {
      assert Lookup(a, n) == Lookup(b, n);
    }
    forall n | n in a ensures a[n] == b[n] {
      assert Lookup(a, n) == Lookup(b, n);
    }
  }

  // ----- What one order may ask of the panel -----

  /** A create only where no account is; a switch-off only of an account with a privileged role. */
  predicate PurchaseCall(c: Call, admin: string, admins: map<string, Admin>) {
    match c
    case CreateAdmin(n) => n == admin && n !in admins
    case UpdateAdmin(n) => n == admin
    case DisableAdmin(n) => n == admin && n in admins && Provisioning.Privileged(admins[n])
    case _ => false
  }

  predicate OrderCall(c: Call, admin: string, purchasing: bool, admins: map<string, Admin>) {
    c in {UpdateAdmin(admin), EnableAdmin(admin)} || (purchasing && PurchaseCall(c, admin, admins))
  }

  lemma ProvisionedStaysLocal(p: Provisioning.Accounts, username: string, t: Entitled, password: string,
                              net: Provisioning.Net)
    ensures var p' := Provisioning.Provisioned(p, username, t, password, net).0;
      && Grows(p, p')
      && forall k :: |p.calls| <= k < |p'.calls| ==> PurchaseCall(p'.calls[k], username, p.admins)
  {
    var p' := Provisioning.Provisioned(p, username, t, password, net).0;
    CallsOfProvision(p, username, t, password, net);
    Provisioning.OnlyTheNamedAccount(p, username, t, password, net);
    hide Provisioning.Provisioned, Provisioning.OthersKept, Provisioning.Privileged, PurchaseCall;
    forall n | n != username
      ensures Lookup(p'.admins, n) == Lookup(p.admins, n) && Lookup(p'.passwords, n) == Lookup(p.passwords, n)
    {
      OthersLookTheSame(p, p', username, n);
    }
    assert p.admins.Keys <= p'.admins.Keys by {
      KeysKept(p, p', username);
    }
    if p' != p {
      assert PurchaseCall(p'.calls[|p.calls|], username, p.admins);
      assert Names(p'.calls[|p.calls|], username) by {
        NamedByPurchase(p'.calls[|p.calls|], username, p.admins);
      }
      assert !Quiet(p'.calls, |p.calls|, username);
    }
    forall n | n in p'.admins && Provisioning.Privileged(p'.admins[n])
      ensures n in p.admins && Provisioning.Privileged(p.admins[n])
    {
      assert n != username ==> Lookup(p'.admins, n) == Lookup(p.admins, n);
    }
  }

  lemma NamedByPurchase(c: Call, username: string, admins: map<string, Admin>)
    requires PurchaseCall(c, username, admins)
    ensures Names(c, username)
  {
  }

  lemma KeysKept(p: Provisioning.Accounts, p': Provisioning.Accounts, username: string)
    requires Provisioning.OthersKept(p, p', username)
    ensures p.admins.Keys <= p'.admins.Keys
  {
  }

  lemma OthersLookTheSame(p: Provisioning.Accounts, p': Provisioning.Accounts, username: string, n: string)
    requires Provisioning.OthersKept(p, p', username) && n != username
    ensures Lookup(p'.admins, n) == Lookup(p.admins, n) && Lookup(p'.passwords, n) == Lookup(p.passwords, n)
  {
    assert n in p.admins - {username} <==> n in p.admins;
    assert n in p'.admins - {username} <==> n in p'.admins;
    assert n in p.passwords - {username} <==> n in p.passwords;
    assert n in p'.passwords - {username} <==> n in p'.passwords;
    assert n in p.admins ==> (p.admins - {username})[n] == p.admins[n];
    assert n in p'.admins ==> (p'.admins - {username})[n] == p'.admins[n];
    assert n in p.passwords ==> (p.passwords - {username})[n] == p.passwords[n];
    assert n in p'.passwords ==> (p'.passwords - {username})[n] == p'.passwords[n];
  }

  lemma CallsOfProvision(p: Provisioning.Accounts, username: string, t: Entitled, password: string,
                         net: Provisioning.Net)
    ensures var p' := Provisioning.Provisioned(p, username, t, password, net).0;
      && p.calls <= p'.calls
      && (forall k :: |p.calls| <= k < |p'.calls| ==> PurchaseCall(p'.calls[k], username, p.admins))
      && (p' != p ==> |p.calls| < |p'.calls|)
      && (username in p'.admins && Provisioning.Privileged(p'.admins[username]) ==>
            username in p.admins && Provisioning.Privileged(p.admins[username]))
  {
    if net.readable && !(username in p.admins && Provisioning.Privileged(p.admins[username])) {
      var written := if username in p.admins then Provisioning.Reset(p, username, t, password, net.write)
                     else Provisioning.Create(p, username, t, password, net.write);
      assert username in written.admins ==> !Provisioning.Privileged(written.admins[username]);
      assert Provisioning.Checked(written, username, t, net).0 == written by {
        hide Provisioning.VerifyEntitlement, Provisioning.Create, Provisioning.Reset;
      }
      hide Provisioning.Checked;
    }
    hide Provisioning.Checked, Fill, WithStatus;
  }

  /** The desk of one reseller: its row, and the panel's accounts. */
  datatype Desk = Desk(
    admin: string, hold: bool, status: ResellerStatus, saved: ResellerStatus, accounts: Provisioning.Accounts)

  ghost function DeskOf(reseller: ResellerRow, panel: Panel): Desk
    reads reseller, panel
  {
    Desk(reseller.admin, reseller.hold, reseller.status, reseller.saved.status, Provisioning.View(panel))
  }

  function DeskFrom(s: Scene): Desk {
    Desk(s.admin, s.hold, s.row.status, s.saved.status, s.accounts)
  }

  predicate Purchasing(d: Desk) {
    d.admin == "" || d.status == ResellerStatus.Provisioning || d.saved == ResellerStatus.Provisioning
  }

  /** What working on its orders does to a reseller and to the panel: a name is reserved once, and new
      everywhere; all requests are for that name; dry run and suspension leave everything as it is. */
  ghost predicate OrderFrame(d: Desk, d': Desk, reserved: set<string>, dry: Option<bool>) {
    && Grows(d.accounts, d'.accounts)
    && d'.hold == d.hold
    && (d.admin != "" ==> d'.admin == d.admin)
    && (d.admin == "" && d'.admin != "" ==> d'.admin !in reserved && d'.admin !in d.accounts.admins)
    && (d'.admin == "" ==> d'.accounts == d.accounts)
    && (forall k :: |d.accounts.calls| <= k < |d'.accounts.calls| ==>
          OrderCall(d'.accounts.calls[k], d'.admin, Purchasing(d), d.accounts.admins))
    && (dry != Some(false) || (d.admin != "" && d.status == Suspended) ==> d' == d)
    && (d.status != Suspended && d.saved != Suspended ==> d'.status != Suspended && d'.saved != Suspended)
    && (Purchasing(d') ==> Purchasing(d))
  }

  lemma FrameFromItself(d: Desk, reserved: set<string>, dry: Option<bool>)
    ensures OrderFrame(d, d, reserved, dry)
  {
  }

  lemma FrameTwice(a: Desk, b: Desk, c: Desk, reserved: set<string>, dry: Option<bool>)
    requires OrderFrame(a, b, reserved, dry) && OrderFrame(b, c, reserved, dry)
    ensures OrderFrame(a, c, reserved, dry)
  {
    GrowsTwice(a.accounts, b.accounts, c.accounts);
    forall k | |a.accounts.calls| <= k < |c.accounts.calls|
      ensures OrderCall(c.accounts.calls[k], c.admin, Purchasing(a), a.accounts.admins)
    {
      if k < |b.accounts.calls| {
        assert c.accounts.calls[k] == b.accounts.calls[k];
      } else {
        assert OrderCall(c.accounts.calls[k], c.admin, Purchasing(b), b.accounts.admins);
      }
    }
    hide OrderCall;
  }

  lemma PurchasedStaysLocal(s: FirstPurchase.State, v: FirstPurchase.Visit)
    requires s.mem.username.Some?
    ensures var s' := FirstPurchase.Purchased(s, v);
      && Grows(s.panel, s'.panel)
      && s'.mem.username in {s.mem.username, s.db.username} && s'.db.username in {s.mem.username, s.db.username}
      && (forall k :: |s.panel.calls| <= k < |s'.panel.calls| ==>
            PurchaseCall(s'.panel.calls[k], s.mem.username.value, s.panel.admins))
      && s'.mem.reseller in {s.mem.reseller, s.db.reseller, ResellerActive}
      && s'.db.reseller in {s.mem.reseller, s.db.reseller}
  {
    if s.mem.target.Some? {
      ProvisionedStaysLocal(s.panel, s.mem.username.value, s.mem.target.value, v.password, v.net);
    }
    hide Provisioning.Provisioned, PurchaseCall, Grows;
    assert Grows(s.panel, s.panel) by { GrowsFromItself(s.panel); }
  }

  lemma GrowsFromItself(a: Provisioning.Accounts)
    ensures Grows(a, a)
  {
  }

  lemma VisitedStaysLocal(s: FirstPurchase.State, v: FirstPurchase.Visit)
    requires s.db.username == s.mem.username && s.mem.order in {Paid, Applying}
    ensures var s' := FirstPurchase.Visited(s, v);
      && Grows(s.panel, s'.panel)
      && s'.db.username == s'.mem.username
      && (s.mem.username.Some? ==> s'.mem.username == s.mem.username)
      && (s.mem.username.None? ==> s'.mem.username in {None, v.name})
      && (s'.mem.username.None? ==> s'.panel == s.panel)
      && (forall k :: |s.panel.calls| <= k < |s'.panel.calls| ==>
            s'.mem.username.Some? && PurchaseCall(s'.panel.calls[k], s'.mem.username.value, s.panel.admins))
      && s'.mem.reseller in {s.mem.reseller, s.db.reseller, ResellerActive, ResellerStatus.Provisioning}
      && s'.db.reseller in {s.mem.reseller, s.db.reseller, ResellerStatus.Provisioning}
  {
    GrowsFromItself(s.panel);
    if s.mem.username.Some? {
      PurchasedStaysLocal(s, v);
    } else if v.name.Some? && v.reserves {
      var rows := FirstPurchase.Rows(v.name, ResellerStatus.Provisioning, Applying, Some(v.target));
      PurchasedStaysLocal(s.(db := rows, mem := rows), v);
    }
    hide FirstPurchase.Purchased, PurchaseCall, Grows;
  }

  // ----- The loop over the orders -----

  type Username = s: string | s != "" witness "a"

  /** What happens around one order: its product, the clock and the faults of either branch; and the names
      tried for a first purchase. */
  datatype Turn = Turn(product: Option<Product>, now: int, net: Net, visit: FirstPurchase.Visit,
                       candidates: seq<Username>, reachable: nat -> bool)

  predicate Selected(order: OrderStatus, t: Turn) {
    order in {Paid, Applying} && t.product.Some?
  }

  /** The first-purchase branch, from one order and reseller to the next: the name tried, the visit, and
      what it hands over. */
  ghost predicate VisitedTo(o: Paper, s: Scene, o': Paper, s': Scene, t: Turn, reserved: set<string>,
                            name: Option<string>)
    requires t.product.Some?
  {
    && (s.admin == "" ==> Provisioning.Chosen(name, s.accounts.admins, reserved, t.candidates, t.reachable))
    && SameRows(ShowOf(o', s'),
                FirstPurchase.Visited(ShowOf(o, s),
                                      t.visit.(name := name, target := FirstTarget(t.product.value, t.now))))
    && (s.admin != "" ==> s'.admin == s.admin)
    && s'.hold == s.hold
    && (o'.now.order.status == Applied ==>
          o'.now == o.saved || (s'.row.productId == Some(t.product.value.id) && o'.now.appliedAt == Some(t.now)))
    && (s.admin == "" && o.saved.order.status != Applied && o'.now.order.status == Applied ==>
          && s'.row.status == ResellerActive && s'.admin != ""
          && HandedOver(s'.accounts.admins, s'.admin, t.product.value, t.now)
          && (t.visit.arrived ==> s'.received == Some(t.visit.password)))
  }

  lemma VisitIsFramed(d: Desk, d': Desk, o: Paper, s: Scene, o': Paper, s': Scene, v: FirstPurchase.Visit,
                      reserved: set<string>)
    requires d == DeskFrom(s) && d' == DeskFrom(s') && o.now.order.status in {Paid, Applying} && s'.hold == s.hold
    requires SameRows(ShowOf(o', s'), FirstPurchase.Visited(ShowOf(o, s), v))
    requires s.admin == "" || s.row.status == ResellerStatus.Provisioning
    requires v.name.Some? && s.admin == "" ==> v.name.value !in reserved && v.name.value !in s.accounts.admins
    ensures OrderFrame(d, d', reserved, Some(false))
  {
    VisitedStaysLocal(ShowOf(o, s), v);
    hide FirstPurchase.Visited, PurchaseCall, Grows;
  }

  // A first purchase: no account yet, or one not handed over.
  method VisitPurchase(order: OrderRow, reseller: ResellerRow, panel: Panel, t: Turn, reserved: set<string>)
    returns (ghost name: Option<string>)
    requires Selected(order.status, t) && (reseller.admin == "" || reseller.status == ResellerStatus.Provisioning)
    modifies order, reseller, panel
    ensures VisitedTo(old(PaperOf(order)), old(SceneOf(reseller, panel)), PaperOf(order), SceneOf(reseller, panel), t,
                      reserved, name)
    ensures old(reseller.admin) != "" ==>
      && order.plan in {old(order.plan), old(order.saved.order.plan)}
      && order.saved.order.plan in {old(order.plan), old(order.saved.order.plan)}
    ensures OrderFrame(old(DeskOf(reseller, panel)), DeskOf(reseller, panel), reserved, Some(false))
    ensures panel.users == old(panel.users)
  {
    name := None;
    var chosen := None;
    if reseller.admin == "" {
      chosen := Provisioning.AvailableUsername(panel, reserved, t.candidates, t.reachable);
      name := chosen;
    }
    var v := t.visit.(name := chosen, target := FirstTarget(t.product.value, t.now));
    ghost var o, s := PaperOf(order), SceneOf(reseller, panel);
    hide FirstPurchase.Visited, OrderFrame, VisitedTo, ShowOf, FirstTarget, Provisioning.Chosen, SameRows;
    ProcessPurchase(order, reseller, t.product.value, panel, t.now, v);
    VisitEnds(o, s, PaperOf(order), SceneOf(reseller, panel), t, reserved, name);
  }

  lemma VisitEnds(o: Paper, s: Scene, o': Paper, s': Scene, t: Turn, reserved: set<string>, name: Option<string>)
    requires Selected(o.now.order.status, t) && (s.admin == "" || s.row.status == ResellerStatus.Provisioning)
    requires SameRows(ShowOf(o', s'),
                      FirstPurchase.Visited(ShowOf(o, s),
                                            t.visit.(name := name, target := FirstTarget(t.product.value, t.now))))
    requires if s.admin == "" then Provisioning.Chosen(name, s.accounts.admins, reserved, t.candidates, t.reachable)
             else name == None && s'.admin == s.admin
    requires s'.hold == s.hold
    requires o'.now.order.status == Applied ==>
      o'.now == o.saved || (s'.row.productId == Some(t.product.value.id) && o'.now.appliedAt == Some(t.now))
    ensures VisitedTo(o, s, o', s', t, reserved, name)
    ensures OrderFrame(DeskFrom(s), DeskFrom(s'), reserved, Some(false))
  {
    var v := t.visit.(name := name, target := FirstTarget(t.product.value, t.now));
    VisitIsFramed(DeskFrom(s), DeskFrom(s'), o, s, o', s', v, reserved);
    if s.admin == "" && o.saved.order.status != Applied {
      AppliedMeansHandedOver(ShowOf(o, s), v, t.product.value, t.now);
    }
    hide FirstPurchase.Visited, OrderFrame, HandedOver, FirstTarget, Provisioning.Chosen;
  }

  /** What any renewal attempt leaves alone. */
  lemma AttemptStaysLocal(r: Rows, name: string, product: Product, now: int, net: Net)
    ensures var a := Attempted(r, name, product, now, net);
      && (forall c :: c in a.calls ==> c in {UpdateAdmin(name), EnableAdmin(name)})
      && (r.reseller == Suspended ==> a.rows == r && a.calls == [])
      && a.rows.reseller in {r.reseller, Reactivated(r.reseller), r.savedReseller.status}
      && a.rows.savedReseller.status in {r.reseller, r.savedReseller.status}
      && (a.rows.account.None? <==> r.account.None?)
      && (a.rows.account.Some? ==> a.rows.account.value.role == r.account.value.role)
      && (a.calls == [] ==> a.rows.account == r.account)
      && (r.order.plan.Some? ==> a.rows.order.plan == r.order.plan && a.rows.savedOrder == r.savedOrder)
  {
    hide Matches, EntitlementSnapshot, TargetSnapshot;
  }

  lemma RenewalIsFramed(d: Desk, d': Desk, r: Rows, product: Product, now: int, net: Net, reserved: set<string>)
    requires d.admin != "" && d.status != ResellerStatus.Provisioning
    requires r.reseller == d.status && r.savedReseller.status == d.saved
    requires r.account == Lookup(d.accounts.admins, d.admin)
    requires var a := Attempted(r, d.admin, product, now, net);
      && d' == Desk(d.admin, d.hold, a.rows.reseller, a.rows.savedReseller.status, d'.accounts)
      && d'.accounts.calls == d.accounts.calls + a.calls && d'.accounts.passwords == d.accounts.passwords
      && Lookup(d'.accounts.admins, d.admin) == a.rows.account
      && d'.accounts.admins - {d.admin} == d.accounts.admins - {d.admin}
      && (a.calls == [] ==> d'.accounts.admins == d.accounts.admins)
    ensures OrderFrame(d, d', reserved, Some(false))
  {
    AttemptStaysLocal(r, d.admin, product, now, net);
    var a := Attempted(r, d.admin, product, now, net);
    hide Attempted;
    assert forall k :: |d.accounts.calls| <= k < |d'.accounts.calls| ==> d'.accounts.calls[k] in a.calls;
    LocalChangeGrows(d.accounts, d'.accounts, d.admin);
    hide Grows;
  }

  /** The renewal branch: one attempt of apply_order on this reseller's account, and on no other. */
  predicate AttemptedTo(o: Paper, s: Scene, o': Paper, s': Scene, t: Turn)
    requires t.product.Some?
  {
    var a := Attempted(RowsFrom(o, s), s.admin, t.product.value, t.now, t.net);
    && RowsFrom(o', s') == a.rows
    && s'.admin == s.admin && s'.hold == s.hold && s'.received == s.received
    && s'.accounts.calls == s.accounts.calls + a.calls
    && s'.accounts.passwords == s.accounts.passwords
    && s'.accounts.admins - {s.admin} == s.accounts.admins - {s.admin}
  }

  /** A faultless first attempt on a renewal whose target is recognisable applies it: the account has what
      was bought, and an expired or disabled reseller is active again. */
  lemma CleanRenewalIsApplied(o: Paper, s: Scene, o': Paper, s': Scene, t: Turn)
    requires t.product.Some? && AttemptedTo(o, s, o', s', t) && t.net == Payments.CLEAN
    requires o.now.order == Order(Paid, None) && s.row.status != Suspended && s.admin in s.accounts.admins
    requires Purchase(t.product.value) && t.now >= 1_000_000 && s.accounts.admins[s.admin].used >= 0
    requires Recovery.Recognisable(s.accounts.admins[s.admin],
                                   TargetSnapshot(s.accounts.admins[s.admin], t.product.value, t.now), s.row.status)
    ensures o'.now.order.status == Applied && o'.now.appliedAt == Some(t.now)
    ensures s'.row.status
         == if s.row.status in {ResellerExpired, ResellerDisabled} then ResellerActive else s.row.status
    ensures s.admin in s'.accounts.admins
    ensures var a, b, p := s.accounts.admins[s.admin], s'.accounts.admins[s.admin], t.product.value;
      && b.expire == Some((if a.expire.Some? && a.expire.value > t.now then a.expire.value else t.now)
                          + p.days * 86_400_000_000)
      && b.dataLimit == Some((if a.dataLimit.Some? && a.dataLimit.value > 0 && a.dataLimit.value > a.used
                              then a.dataLimit.value else a.used) + p.trafficGb * 1_073_741_824)
      && b.services == p.services && b.usersLimit == p.usersLimit
  {
    var r, a, p := RowsFrom(o, s), s.accounts.admins[s.admin], t.product.value;
    Recovery.FirstAttempt(r, s.admin, p, t.now);
    TargetInUnits(a, p, t.now);
    Recovery.SettlingBringsBack(r, s.admin, p, t.now, t.net);
    hide Attempted, TargetSnapshot, Recovery.Recognisable;
  }

  /** A faultless first visit under a free name applies its order. */
  lemma CleanVisitIsApplied(o: Paper, s: Scene, o': Paper, s': Scene, t: Turn, reserved: set<string>,
                            name: Option<string>)
    requires t.product.Some? && VisitedTo(o, s, o', s', t, reserved, name) && name.Some? && s.admin == ""
    requires o.now.order.status in {Paid, Applying} && o.saved.order.status != Applied
    requires var v := t.visit; v.reserves && v.commits && v.arrived && v.reported && v.net == FirstPurchase.CLEAN
    requires t.now + t.product.value.days * 86_400_000_000 >= 1_000_000
    ensures o'.now.order.status == Applied && s'.row.status == ResellerActive
    ensures s'.received == Some(t.visit.password)
    ensures HandedOver(s'.accounts.admins, s'.admin, t.product.value, t.now)
  {
    var v := t.visit.(name := name, target := FirstTarget(t.product.value, t.now));
    FirstPurchaseIsARenewalOfNothing(t.product.value, t.now);
    FirstPurchase.CleanVisitHandsOver(ShowOf(o, s), v);
    hide FirstPurchase.Visited, HandedOver, FirstTarget;
  }

  method AttemptRenewal(order: OrderRow, reseller: ResellerRow, panel: Panel, t: Turn, ghost reserved: set<string>)
    requires Selected(order.status, t) && reseller.admin != "" && reseller.status != ResellerStatus.Provisioning
    modifies order, reseller, panel
    ensures AttemptedTo(old(PaperOf(order)), old(SceneOf(reseller, panel)), PaperOf(order), SceneOf(reseller, panel), t)
    ensures OrderFrame(old(DeskOf(reseller, panel)), DeskOf(reseller, panel), reserved, Some(false))
    ensures old(order.plan).Some? ==> order.plan == old(order.plan) && order.saved == old(order.saved)
    ensures panel.users == old(panel.users)
  {
    ghost var r, name, before := RowsOf(order, reseller, panel), reseller.admin, DeskOf(reseller, panel);
    AttemptStaysLocal(r, name, t.product.value, t.now, t.net);
    hide Attempted, OrderFrame;
    var _ := ApplyOrder(order, reseller, t.product.value, panel, t.now, t.net);
    RenewalIsFramed(before, DeskOf(reseller, panel), r, t.product.value, t.now, t.net, reserved);
  }

  lemma LocalChangeGrows(a: Provisioning.Accounts, b: Provisioning.Accounts, name: string)
    requires a.calls <= b.calls && b.passwords == a.passwords
    requires b.admins - {name} == a.admins - {name}
    requires Lookup(b.admins, name).None? <==> Lookup(a.admins, name).None?
    requires name in a.admins && name in b.admins ==> b.admins[name].role == a.admins[name].role
    requires forall k :: |a.calls| <= k < |b.calls| ==> b.calls[k] in {UpdateAdmin(name), EnableAdmin(name)}
    requires b.calls == a.calls ==> b.admins == a.admins
    ensures Grows(a, b)
  {
    forall n | n != name ensures Lookup(b.admins, n) == Lookup(a.admins, n) {
      assert n in a.admins - {name} <==> n in a.admins;
      assert n in b.admins - {name} <==> n in b.admins;
      assert n in a.admins ==> (a.admins - {name})[n] == a.admins[n];
      assert n in b.admins ==> (b.admins - {name})[n] == b.admins[n];
    }
    if b.calls != a.calls {
      assert Names(b.calls[|a.calls|], name);
      assert !Quiet(b.calls, |a.calls|, name);
    }
    forall n | n in a.admins ensures n in b.admins {
      assert n != name ==> Lookup(b.admins, n) == Lookup(a.admins, n);
    }
    forall n | n in b.admins && Provisioning.Privileged(b.admins[n])
      ensures n in a.admins && Provisioning.Privileged(a.admins[n])
    {
      assert n != name ==> Lookup(b.admins, n) == Lookup(a.admins, n);
    }
  }

  // A durable plan stays in both copies.
  predicate KeepsPlan(o: Paper, o': Paper) {
    o.now.order.plan.Some? && o.saved.order.plan == o.now.order.plan ==>
      o'.saved.order.plan == o'.now.order.plan == o.now.order.plan
  }

  // An order that is not selected stays as it is.
  predicate KeepsOthers(o: Paper, o': Paper) {
    o.now.order.status !in {Paid, Applying} ==> o' == o
  }

  /** What the pass does with one order: nothing unless it is selected and the mode is live; then a visit for
      a first purchase, an attempt for a renewal. */
  ghost predicate Reconciled(o: Paper, s: Scene, o': Paper, s': Scene, dry: Option<bool>, t: Turn,
                             reserved: set<string>) {
    if !Selected(o.now.order.status, t) || dry != Some(false) then o' == o && s' == s
    else if s.admin == "" || s.row.status == ResellerStatus.Provisioning then
      (s.admin != "" ==> KeepsPlan(o, o')) && exists name :: VisitedTo(o, s, o', s', t, reserved, name)
    else AttemptedTo(o, s, o', s', t)
  }

  /** One selected order, by its branch. A failure is recorded and does not stop the pass; an unreadable
      mode does. */
  method ReconcileOrder(order: OrderRow, reseller: ResellerRow, panel: Panel, dry: Option<bool>, t: Turn,
                        reserved: set<string>)
    returns (aborted: bool)
    modifies order, reseller, panel
    ensures aborted == (Selected(old(PaperOf(order)).now.order.status, t) && dry.None?)
    ensures Reconciled(old(PaperOf(order)), old(SceneOf(reseller, panel)), PaperOf(order), SceneOf(reseller, panel),
                       dry, t, reserved)
    ensures KeepsOthers(old(PaperOf(order)), PaperOf(order))
    ensures old(reseller.admin) == "" && old(order.status) != Applied && old(order.saved.order.status) != Applied
            && order.status == Applied ==>
      && t.product.Some? && reseller.status == ResellerActive && reseller.admin != ""
      && HandedOver(panel.admins, reseller.admin, t.product.value, t.now)
      && (t.visit.arrived ==> reseller.received == Some(t.visit.password))
    ensures OrderFrame(old(DeskOf(reseller, panel)), DeskOf(reseller, panel), reserved, dry)
    ensures old(reseller.admin) != "" ==> KeepsPlan(old(PaperOf(order)), PaperOf(order))
    ensures panel.users == old(panel.users)
  {
    aborted := false;
    GrowsFromItself(Provisioning.View(panel));
    hide FirstPurchase.Visited, AttemptedTo, Grows, OrderCall, HandedOver;
    if order.status !in {Paid, Applying} || t.product.None? {
      return;
    }
    if dry.None? {
      aborted := true;
    } else if !dry.value {
      if reseller.admin == "" || reseller.status == ResellerStatus.Provisioning {
        ghost var name := VisitPurchase(order, reseller, panel, t, reserved);
      } else {
        AttemptRenewal(order, reseller, panel, t, reserved);
      }
    }
  }

  // The first orders' turns, one after the other, from the orders as they were.
  ghost predicate AllReconciled(was: seq<Paper>, done: seq<Paper>, scenes: seq<Scene>, dry: Option<bool>,
                                turns: nat -> Turn, reserved: set<string>)
  {
    && |done| <= |was| && |scenes| == |done| + 1
    && forall k: nat :: k < |done| ==>
         Reconciled(was[k], scenes[k], done[k], scenes[k + 1], dry, turns(k), reserved)
  }

  lemma OneMoreReconciled(was: seq<Paper>, done: seq<Paper>, scenes: seq<Scene>, o: Paper, s: Scene, dry: Option<bool>,
                          turns: nat -> Turn, reserved: set<string>)
    requires AllReconciled(was, done, scenes, dry, turns, reserved) && |done| < |was|
    requires Reconciled(was[|done|], scenes[|done|], o, s, dry, turns(|done|), reserved)
    ensures AllReconciled(was, done + [o], scenes + [s], dry, turns, reserved)
  {
    hide Reconciled;
  }

  lemma ReconciledKeeps(o: Paper, s: Scene, o': Paper, s': Scene, dry: Option<bool>, t: Turn, reserved: set<string>)
    requires Reconciled(o, s, o', s', dry, t, reserved)
    ensures KeepsOthers(o, o') && (s.admin != "" ==> s'.admin == s.admin && KeepsPlan(o, o'))
  {
    if t.product.Some? {
      AttemptStaysLocal(RowsFrom(o, s), s.admin, t.product.value, t.now, t.net);
    }
    hide FirstPurchase.Visited, Attempted, HandedOver, Provisioning.Chosen;
  }

  // So orders that are not selected stay, and the durable plans of a reseller that has its account.
  lemma {:induction false} TurnsKeep(was: seq<Paper>, done: seq<Paper>, scenes: seq<Scene>, dry: Option<bool>,
                                     turns: nat -> Turn, reserved: set<string>, n: nat)
    requires AllReconciled(was, done, scenes, dry, turns, reserved) && n <= |done|
    ensures forall k: nat :: k < n ==> KeepsOthers(was[k], done[k])
    ensures scenes[0].admin != "" ==>
      scenes[n].admin == scenes[0].admin && forall k: nat :: k < n ==> KeepsPlan(was[k], done[k])
  {
    hide Reconciled, KeepsOthers, KeepsPlan;
    if n > 0 {
      TurnsKeep(was, done, scenes, dry, turns, reserved, n - 1);
      ReconciledKeeps(was[n - 1], scenes[n - 1], done[n - 1], scenes[n], dry, turns(n - 1), reserved);
    }
  }

  ghost function Papers(orders: seq<OrderRow>): seq<Paper>
    reads orders
  {
    seq(|orders|, k requires 0 <= k < |orders| reads orders => PaperOf(orders[k]))
  }

  method ReconcileNext(orders: seq<OrderRow>, i: nat, reseller: ResellerRow, panel: Panel, dry: Option<bool>, t: Turn,
                       reserved: set<string>)
    returns (aborted: bool)
    requires i < |orders| && forall i, j :: 0 <= i < j < |orders| ==> orders[i] != orders[j]
    modifies orders[i], reseller, panel
    ensures aborted == (Selected(old(PaperOf(orders[i])).now.order.status, t) && dry.None?)
    ensures Reconciled(old(PaperOf(orders[i])), old(SceneOf(reseller, panel)), PaperOf(orders[i]),
                       SceneOf(reseller, panel), dry, t, reserved)
    ensures forall k: nat :: k < |orders| && k != i ==> PaperOf(orders[k]) == old(PaperOf(orders[k]))
    ensures OrderFrame(old(DeskOf(reseller, panel)), DeskOf(reseller, panel), reserved, dry)
    ensures panel.users == old(panel.users)
  {
    hide Reconciled, OrderFrame, Selected;
    aborted := ReconcileOrder(orders[i], reseller, panel, dry, t, reserved);
  }

  /** The loop. `scenes` are the reseller and the panel before each order and after the last: every order's
      row is what its own turn leaves, in the order of the loop. */
  method ReconcileOrdersOf(orders: seq<OrderRow>, reseller: ResellerRow, panel: Panel, dry: Option<bool>,
                           turns: nat -> Turn, reserved: set<string>)
    returns (aborted: bool, ghost scenes: seq<Scene>)
    requires forall i, j :: 0 <= i < j < |orders| ==> orders[i] != orders[j]
    modifies orders, reseller, panel
    ensures !aborted ==>
      && AllReconciled(old(Papers(orders)), Papers(orders), scenes, dry, turns, reserved)
      && scenes[0] == old(SceneOf(reseller, panel)) && scenes[|orders|] == SceneOf(reseller, panel)
    ensures aborted <==> dry.None? && exists k: nat ::
      k < |orders| && Selected(old(PaperOf(orders[k])).now.order.status, turns(k))
    ensures forall k: nat :: k < |orders| ==> KeepsOthers(old(PaperOf(orders[k])), PaperOf(orders[k]))
    ensures old(reseller.admin) != "" ==>
      forall k: nat :: k < |orders| ==> KeepsPlan(old(PaperOf(orders[k])), PaperOf(orders[k]))
    ensures OrderFrame(old(DeskOf(reseller, panel)), DeskOf(reseller, panel), reserved, dry)
    ensures panel.users == old(panel.users)
  {
    ghost var start, was, done: seq<Paper> := DeskOf(reseller, panel), Papers(orders), [];
    scenes := [SceneOf(reseller, panel)];
    FrameFromItself(start, reserved, dry);
    assert forall o: Paper :: KeepsOthers(o, o) && KeepsPlan(o, o);
    assert scenes[0].admin == reseller.admin;
    hide Reconciled, OrderFrame, KeepsOthers, KeepsPlan, PaperOf, Selected, DeskOf, SceneOf;
    aborted := false;
    for i := 0 to |orders|
      invariant AllReconciled(was, done, scenes, dry, turns, reserved) && |done| == i
      invariant scenes[0] == old(SceneOf(reseller, panel)) && scenes[i] == SceneOf(reseller, panel)
      invariant forall k: nat :: k < i ==> PaperOf(orders[k]) == done[k]
      invariant forall k: nat :: i <= k < |orders| ==> PaperOf(orders[k]) == was[k]
      invariant dry.None? ==> forall k: nat :: k < i ==> !Selected(was[k].now.order.status, turns(k))
      invariant OrderFrame(start, DeskOf(reseller, panel), reserved, dry)
      invariant panel.users == old(panel.users)
    {
      ghost var before := DeskOf(reseller, panel);
      aborted := ReconcileNext(orders, i, reseller, panel, dry, turns(i), reserved);
      FrameTwice(start, before, DeskOf(reseller, panel), reserved, dry);
      OneMoreReconciled(was, done, scenes, PaperOf(orders[i]), SceneOf(reseller, panel), dry, turns, reserved);
      done, scenes := done + [PaperOf(orders[i])], scenes + [SceneOf(reseller, panel)];
      if aborted {
        TurnsKeep(was, done, scenes, dry, turns, reserved, i + 1);
        return;
      }
    }
    TurnsKeep(was, done, scenes, dry, turns, reserved, |orders|);
    assert done == Papers(orders);
  }
}
