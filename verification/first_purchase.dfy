/** The first purchase of one reseller across crashes (app/scheduler/jobs.py, _reconcile_orders_locked):
    reserve a name and target durably, provision, deliver the password, activate. */
module FirstPurchase {
  import opened Prelude
  import opened Wire
  import opened Entitlement
  import opened RebeccaPanel
  import opened Provisioning

  /** The reseller row and its first order. `username` is None until a name is reserved. */
  datatype Rows = Rows(
    username: Option<string>, reseller: ResellerStatus, order: OrderStatus, target: Option<Entitled>)

  datatype Worker =
    | Idle
    | Reserved                      // name and target set on the rows, not yet committed
    | Ready                         // about to generate a password and call provision
    | Granted(password: string)     // provision returned normally
    | Undelivered(password: string)     // that much is committed; about to deliver
    | Delivered(password: string)   // delivery reported success

  /** `received` is the last password the customer got, `created` the names our creates brought into
      being, `granted` whether provision has returned normally, and `stored` whether the panel did store
      the password at the last such return. `issued` are the passwords generated so far, and `distinct` says
      that none was generated twice. */
  datatype State = State(
    panel: Accounts,
    db: Rows,
    mem: Rows,
    worker: Worker,
    received: Option<string>,
    created: seq<string>,
    granted: bool,
    stored: bool,
    issued: set<string>,
    distinct: bool)

  datatype Event =
    | Reserve(username: string, target: Entitled)
    | CommitReservation
    | Resume
    | Call(password: string, net: Net)
    | CommitGrant
    | Deliver(arrived: bool, reported: bool)
    | Activate
    | Fail
    | Commit
    | Crash
    | Elsewhere(username: string, account: Admin, password: string)
    | Consume(used: int)
    | Owner(reseller: ResellerStatus, switch: Option<Status>)

  predicate Can(s: State, e: Event) {
    match e
    case Reserve(username, target) =>
      && s.worker.Idle? && s.mem.username.None? && s.mem.order in {Paid, Applying}
      && username != "" && username !in s.panel.admins && target.expire >= SECOND
    case CommitReservation => s.worker.Reserved?
    case Resume =>
      && s.worker.Idle? && s.mem.username.Some? && s.mem.reseller == Provisioning
      && s.mem.order in {Paid, Applying} && s.mem.target.Some?
    case Call(_, _) => s.worker.Ready? && s.mem.username.Some? && s.mem.target.Some?
    case CommitGrant => s.worker.Granted?
    case Deliver(arrived, reported) => s.worker.Undelivered? && (reported ==> arrived)
    case Activate => s.worker.Delivered?
    case Fail => !s.worker.Idle? && !s.worker.Reserved?
    case Commit => s.worker.Idle?
    case Crash => true
    case Elsewhere(username, _, _) => Some(username) != s.db.username && Some(username) != s.mem.username
    case Consume(_) => true
    case Owner(reseller, _) => s.worker.Idle? && s.db == s.mem && reseller != Provisioning && s.db.username.Some?
  }

  function Called(s: State, username: string, target: Entitled, password: string, net: Net): State {
    var (panel, r) := Provisioned(s.panel, username, target, password, net);
    s.(panel := panel,
       worker := if r.Verified? then Granted(password) else Idle,
       created := if username in panel.admins && username !in s.panel.admins then s.created + [username] else s.created,
       granted := s.granted || r.Verified?,
       stored := if r.Verified? then net.write.executed && Password in net.write.parts else s.stored,
       issued := s.issued + {password},
       distinct := s.distinct && password !in s.issued)
  }

  function Step(s: State, e: Event): State
    requires Can(s, e)
  {
    match e
    case Reserve(username, target) =>
      s.(mem := Rows(Some(username), Provisioning, Applying, Some(target)), worker := Reserved)
    case CommitReservation => s.(db := s.mem, worker := Ready)
    case Resume => s.(worker := Ready)
    case Call(password, net) => Called(s, s.mem.username.value, s.mem.target.value, password, net)
    case CommitGrant => s.(db := s.mem, worker := Undelivered(s.worker.password))
    case Deliver(arrived, reported) =>
      s.(received := if arrived then Some(s.worker.password) else s.received,
         worker := if reported then Delivered(s.worker.password) else Idle)
    case Activate => s.(mem := s.mem.(reseller := ResellerActive, order := Applied), worker := Idle)
    case Fail => s.(worker := Idle)
    case Commit => s.(db := s.mem)
    case Crash => s.(mem := s.db, worker := Idle)
    case Elsewhere(username, account, password) =>
      s.(panel := s.panel.(admins := s.panel.admins[username := account],
                           passwords := s.panel.passwords[username := password]))
    case Consume(used) =>
      if s.db.username.Some? && s.db.username.value in s.panel.admins then
        var u := s.db.username.value;
        s.(panel := s.panel.(admins := s.panel.admins[u := s.panel.admins[u].(used := used)]))
      else s
    case Owner(reseller, switch) =>
      s.(db := s.db.(reseller := reseller), mem := s.mem.(reseller := reseller),
         panel := if switch.Some?
                  then s.panel.(admins := WithStatus(s.panel.admins, s.db.username.value, switch.value)) else s.panel)
  }

  predicate Valid(s: State, es: seq<Event>)
    decreases |es|
  {
    es == [] || (Can(s, es[0]) && Valid(Step(s, es[0]), es[1..]))
  }

  function Final(s: State, es: seq<Event>): State
    requires Valid(s, es)
    decreases |es|
  {
    if es == [] then s else Final(Step(s, es[0]), es[1..])
  }

  predicate Init(s: State) {
    && s.db == s.mem && s.db.username.None? && s.db.target.None? && s.db.order in {Paid, Applying}
    && s.worker.Idle? && s.received.None? && s.created == [] && !s.granted
    && s.panel.passwords.Keys <= s.panel.admins.Keys && s.issued == {} && s.distinct
  }

  // ----- Building runs -----

  ghost predicate Leads(from: State, es: seq<Event>, to: State) {
    Valid(from, es) && Final(from, es) == to
  }

  lemma {:induction false} Append(from: State, es: seq<Event>, to: State, e: Event)
    requires Leads(from, es, to) && Can(to, e)
    ensures Leads(from, es + [e], Step(to, e))
    decreases |es|
  {
    if es == [] {
      assert [e][1..] == [];
    } else {
      Append(Step(from, es[0]), es[1..], to, e);
      assert (es + [e])[1..] == es[1..] + [e];
    }
  }

  lemma Next(from: State, es: seq<Event>, to: State, e: Event) returns (es': seq<Event>, to': State)
    requires Leads(from, es, to) && Can(to, e)
    ensures to' == Step(to, e) && Leads(from, es', to')
  {
    Append(from, es, to, e);
    es', to' := es + [e], Step(to, e);
  }

  // ----- What every step keeps -----

  // No password but the worker's own latest can be on the panel while it is about to hand it over.
  predicate PasswordIs(s: State, password: string) {
    && s.db.username.Some? && s.db.username.value in s.panel.passwords
    && s.panel.passwords[s.db.username.value] == password
  }

  // The password is on the panel if it was stored, and if no password was generated twice only then.
  predicate PasswordOk(s: State, password: string) {
    (s.stored ==> PasswordIs(s, password)) && (s.distinct && !s.stored ==> !PasswordIs(s, password))
  }

  predicate WorkerOk(s: State) {
    match s.worker
    case Idle => true
    case Reserved =>
      && s.db.username.None? && s.mem.target.Some? && s.mem.username.Some? && s.mem.order == Applying
      && s.mem.username.value !in s.panel.admins
    case Granted(p) => s.granted && PasswordOk(s, p)
    case Undelivered(p) => s.granted && PasswordOk(s, p)
    case Delivered(p) => s.granted && PasswordOk(s, p) && s.received == Some(p)
    case Ready => true
  }

  // Passwords belong to accounts, and the reserved account's came from here.
  predicate PasswordsOk(s: State) {
    && s.panel.passwords.Keys <= s.panel.admins.Keys
    && (s.db.username.Some? && s.db.username.value in s.panel.passwords ==>
          s.panel.passwords[s.db.username.value] in s.issued)
  }

  // An account that provision can complete.
  predicate Usable(a: Admin, username: string) {
    a.username == username && !Privileged(a) && a.status == Active
  }

  // PROVISIONING is left for good, by activation or by the owner; until then the account is usable.
  predicate StatusOk(s: State) {
    && (!s.worker.Idle? ==> s.mem.reseller == Provisioning)
    && (s.mem.order == Applied ==> s.mem.reseller != Provisioning && s.mem.username == s.db.username)
    && (s.db.order == Applied ==> s.db.reseller != Provisioning)
    && (s.mem.order == Applied && s.db.order != Applied ==> s.db.reseller == Provisioning)
    && (s.db.username.Some? && s.db.username.value in s.panel.admins && s.db.reseller == Provisioning ==>
          Usable(s.panel.admins[s.db.username.value], s.db.username.value))
  }

  // While the worker is between the reservation and activation, the rows it works on are durable.
  predicate Durable(s: State) {
    (s.worker.Idle? && s.mem.order == Applied) || s.worker.Reserved? || s.mem == s.db
  }

  predicate RowsOk(r: Rows) {
    && (r.username.None? <==> r.target.None?)
    && (r.order in {Paid, Applying, Applied})
    && (r.order == Applied ==> r.username.Some?)
    && (r.target.Some? ==> r.target.value.expire >= SECOND)
  }

  predicate Ahead(db: Rows, mem: Rows) {
    && (db.username.Some? ==> mem.username == db.username && mem.target == db.target)
    && (db.order == Applied ==> mem.order == Applied)
  }

  predicate AccountsOk(s: State) {
    && (s.created != [] ==> s.db.username.Some? && s.created == [s.db.username.value])
    && (s.created != [] || s.granted ==> s.db.username.Some? && s.db.username.value in s.panel.admins)
    && (s.granted ==>
          s.db.target.Some? && Grants(s.panel.admins[s.db.username.value], s.db.username.value, s.db.target.value))
  }

  predicate Inv(s: State) {
    && RowsOk(s.db) && RowsOk(s.mem) && Ahead(s.db, s.mem)
    && WorkerOk(s) && Durable(s) && AccountsOk(s) && PasswordsOk(s) && StatusOk(s)
    && (!s.worker.Idle? ==> s.mem.order != Applied && s.mem.username.Some?)
    && (s.mem.order == Applied ==> s.received.Some? && PasswordOk(s, s.received.value))
  }

  // What any call leaves of the named account: a usable one stays usable, and passwords change only to the
  // one given.
  lemma CallKeepsAccount(p: Accounts, username: string, t: Entitled, password: string, net: Net)
    requires username in p.admins ==> Usable(p.admins[username], username)
    requires p.passwords.Keys <= p.admins.Keys
    ensures var (p', r) := Provisioned(p, username, t, password, net);
      && (username in p'.admins ==> Usable(p'.admins[username], username))
      && p'.passwords.Keys <= p'.admins.Keys
      && (Lookup(p'.passwords, username) in {Lookup(p.passwords, username), Some(password)})
      && (r.Verified? && !(net.write.executed && Password in net.write.parts) ==>
            Lookup(p'.passwords, username) == Lookup(p.passwords, username))
  {
    hide VerifyEntitlement;
  }

  lemma CallKeepsPasswords(s: State, password: string, net: Net)
    requires Inv(s) && Can(s, Call(password, net))
    ensures var s' := Step(s, Call(password, net)); PasswordsOk(s') && StatusOk(s') && WorkerOk(s')
  {
    var u, t := s.mem.username.value, s.mem.target.value;
    CallKeepsAccount(s.panel, u, t, password, net);
    NormalReturnMeansGranted(s.panel, u, t, password, net);
    hide Provisioned, Grants, AccountsOk, RowsOk;
  }

  lemma CallKeepsInv(s: State, password: string, net: Net)
    requires Inv(s) && Can(s, Call(password, net))
    ensures Inv(Step(s, Call(password, net)))
  {
    var u, t := s.mem.username.value, s.mem.target.value;
    OnlyTheNamedAccount(s.panel, u, t, password, net);
    NormalReturnMeansGranted(s.panel, u, t, password, net);
    CallKeepsPasswords(s, password, net);
    if s.granted {
      RetryKeepsGrant(s.panel, u, t, password, net);
    }
    hide Provisioned, Grants, OthersKept, PasswordsOk, StatusOk, WorkerOk;
  }

  lemma StepKeepsInv(s: State, e: Event)
    requires Inv(s) && Can(s, e)
    ensures Inv(Step(s, e))
  {
    match e
    case Call(password, net) => CallKeepsInv(s, password, net);
    case _ =>
  }

  lemma {:induction false} RunKeepsInv(s: State, es: seq<Event>)
    requires Inv(s) && Valid(s, es)
    ensures Inv(Final(s, es))
    decreases |es|
  {
    if es != [] {
      hide Inv, Can, Step;
      StepKeepsInv(s, es[0]);
      RunKeepsInv(Step(s, es[0]), es[1..]);
    }
  }

  lemma InitIsOk(s: State)
    requires Init(s)
    ensures Inv(s)
  {
  }

  // ----- Main results -----

  /** At most one account is ever created for the reseller, under the durably reserved name; and every
      call to provision uses exactly the committed name and target. */
  lemma AtMostOneAccount(s: State, es: seq<Event>)
    requires Init(s) && Valid(s, es)
    ensures var f := Final(s, es);
      && |f.created| <= 1
      && (f.created != [] ==> f.db.username == Some(f.created[0]) && f.created[0] in f.panel.admins)
      && (f.worker.Ready? ==> f.db.username.Some? && f.mem.username == f.db.username && f.mem.target == f.db.target)
  {
    InitIsOk(s);
    RunKeepsInv(s, es);
  }

  lemma StepKeepsReservation(s: State, e: Event)
    requires Inv(s) && Can(s, e) && s.db.username.Some?
    ensures Step(s, e).db.username == s.db.username && Step(s, e).db.target == s.db.target
    ensures s.db.order == Applied ==> Step(s, e).db.order == Applied
    ensures s.granted ==> Step(s, e).granted
  {
  }

  /** Once committed, the reserved name and the target never change, whatever crashes follow. */
  lemma {:induction false} ReservationIsPermanent(s: State, es: seq<Event>)
    requires Inv(s) && Valid(s, es) && s.db.username.Some?
    ensures Final(s, es).db.username == s.db.username && Final(s, es).db.target == s.db.target
    ensures s.db.order == Applied ==> Final(s, es).db.order == Applied
    ensures s.granted ==> Final(s, es).granted
    decreases |es|
  {
    if es != [] {
      hide Inv, Can, Step;
      StepKeepsInv(s, es[0]);
      StepKeepsReservation(s, es[0]);
      ReservationIsPermanent(Step(s, es[0]), es[1..]);
    }
  }

  /** When the order is durably applied the customer has received a password, however many deliveries
      failed or crashed before. It is the panel's if the panel stored it when it last confirmed one; and,
      no password being generated twice, only if. */
  lemma CredentialsAgree(s: State, es: seq<Event>)
    requires Init(s) && Valid(s, es)
    ensures var f := Final(s, es);
      f.db.order == Applied ==>
        && f.db.username.Some? && f.received.Some?
        && (f.stored ==> PasswordIs(f, f.received.value))
        && (f.distinct ==> (PasswordIs(f, f.received.value) <==> f.stored))
  {
    InitIsOk(s);
    RunKeepsInv(s, es);
  }

  /** After the first normal return of provision the account keeps granting the committed target through
      every later reset, crash and failed delivery. */
  lemma GrantSurvivesRetries(s: State, es: seq<Event>, more: seq<Event>)
    requires Init(s) && Valid(s, es) && Final(s, es).granted && Valid(Final(s, es), more)
    ensures var g, f := Final(s, es), Final(Final(s, es), more);
      && g.db.username.Some? && g.db.target.Some? && g.db.username.value in f.panel.admins
      && Grants(f.panel.admins[g.db.username.value], g.db.username.value, g.db.target.value)
  {
    InitIsOk(s);
    RunKeepsInv(s, es);
    RunKeepsInv(Final(s, es), more);
    ReservationIsPermanent(Final(s, es), more);
  }

  predicate NoOwner(es: seq<Event>) {
    forall i :: 0 <= i < |es| ==> !es[i].Owner?
  }

  predicate StaysProvisioning(r: Rows) {
    r.username.Some? ==> r.reseller == if r.order == Applied then ResellerActive else Provisioning
  }

  lemma {:induction false} ProvisioningUntilActivated(s: State, es: seq<Event>)
    requires Inv(s) && Valid(s, es) && NoOwner(es)
    requires StaysProvisioning(s.db) && StaysProvisioning(s.mem)
    ensures StaysProvisioning(Final(s, es).db) && StaysProvisioning(Final(s, es).mem)
    decreases |es|
  {
    if es != [] {
      StepKeepsInv(s, es[0]);
      ProvisioningUntilActivated(Step(s, es[0]), es[1..]);
    }
  }

  /** Left alone by the owner, the reseller row is PROVISIONING from the reservation until the commit
      that applies the order, and ACTIVE from then on. */
  lemma PendingStaysProvisioning(s: State, es: seq<Event>)
    requires Init(s) && Valid(s, es) && NoOwner(es)
    ensures StaysProvisioning(Final(s, es).db)
  {
    InitIsOk(s);
    ProvisioningUntilActivated(s, es);
  }

  // ----- When a reserved order can still be applied -----

  // Reserved, not applied, and no longer PROVISIONING.
  predicate Stranded(s: State) {
    && s.worker.Idle? && s.db == s.mem && s.db.username.Some?
    && s.db.order != Applied && s.db.reseller != Provisioning
  }

  /** Once the owner has moved a reserved reseller out of PROVISIONING before its activation, the order
      is never applied, and the panel is never asked anything for it again. */
  lemma {:induction false} StrandedForever(s: State, es: seq<Event>)
    requires Stranded(s) && Valid(s, es)
    ensures var f := Final(s, es);
      Stranded(f) && f.db.order == s.db.order && f.db.target == s.db.target && f.panel.calls == s.panel.calls
    decreases |es|
  {
    if es != [] {
      StrandedForever(Step(s, es[0]), es[1..]);
    }
  }

  /** The owner can bring that about for every paid order: suspending or enabling the reseller between the
      reservation and its activation is enough. */
  lemma OwnerCanStrand(s: State, username: string, target: Entitled, reseller: ResellerStatus, switch: Option<Status>)
    returns (es: seq<Event>)
    requires Init(s) && Can(s, Reserve(username, target)) && reseller != Provisioning
    ensures Valid(s, es) && Stranded(Final(s, es))
    ensures Final(s, es).db.order == Applying && Final(s, es).db.target == Some(target)
    ensures Final(s, es).db.reseller == reseller
  {
    es := [];
    var f := s;
    assert Leads(s, es, f);
    hide Leads;
    es, f := Next(s, es, f, Reserve(username, target));
    es, f := Next(s, es, f, CommitReservation);
    es, f := Next(s, es, f, Fail);
    es, f := Next(s, es, f, Owner(reseller, switch));
  }

  const CLEAN := Net(true, Written(true, ALL_PARTS, true), Delivery(true, true), true)

  // Without faults a usable or missing account is granted.
  lemma CleanCallGrants(p: Accounts, username: string, t: Entitled, password: string)
    requires username in p.admins ==> Usable(p.admins[username], username)
    requires t.expire >= SECOND
    ensures Provisioned(p, username, t, password, CLEAN).1.Verified?
  {
  }

  // From a durable reservation one attempt without faults reaches the grant.
  lemma GrantIsReachable(s: State, password: string) returns (es: seq<Event>, f: State)
    requires Inv(s) && s.db.username.Some? && s.db.order != Applied && s.db.reseller == Provisioning
    ensures Leads(s, es, f) && f.worker == Granted(password) && f.mem == f.db == s.db
  {
    es, f := [], s;
    assert Leads(s, es, f);
    CleanCallGrants(s.panel, s.db.username.value, s.db.target.value, password);
    RowsOfInv(s);
    hide Leads, Provisioned, Inv;
    es, f := Next(s, es, f, Crash);
    es, f := Next(s, es, f, Resume);
    es, f := Next(s, es, f, Call(password, CLEAN));
  }

  lemma ProvisioningCanFinish(s: State, password: string) returns (es: seq<Event>)
    requires Inv(s) && s.db.username.Some? && s.db.order != Applied && s.db.reseller == Provisioning
    ensures Valid(s, es) && Final(s, es).db.order == Applied
  {
    var f;
    es, f := GrantIsReachable(s, password);
    hide Leads, Inv;
    es, f := Next(s, es, f, CommitGrant);
    es, f := Next(s, es, f, Deliver(true, true));
    es, f := Next(s, es, f, Activate);
    es, f := Next(s, es, f, Commit);
  }

  lemma RowsOfInv(s: State)
    requires Inv(s)
    ensures RowsOk(s.db)
  {
  }

  ghost predicate CanBeApplied(s: State) {
    exists es :: Valid(s, es) && Final(s, es).db.order == Applied
  }

  /** The exact condition, in every reachable state: a reserved order that is not applied yet can still be
      applied if and only if its reseller is PROVISIONING in the database. */
  lemma CanBeAppliedIff(start: State, es: seq<Event>)
    requires Init(start) && Valid(start, es)
    requires Final(start, es).db.username.Some? && Final(start, es).db.order != Applied
    ensures CanBeApplied(Final(start, es)) <==> Final(start, es).db.reseller == Provisioning
  {
    var s := Final(start, es);
    InitIsOk(start);
    RunKeepsInv(start, es);
    if s.db.reseller == Provisioning {
      var more := ProvisioningCanFinish(s, "");
    } else {
      assert Stranded(s);
      forall more | Valid(s, more) ensures Final(s, more).db.order != Applied {
        StrandedForever(s, more);
      }
    }
  }

  /** Left alone by the owner it always can. */
  lemma CanBeAppliedUnlessOwnerActs(start: State, es: seq<Event>)
    requires Init(start) && Valid(start, es) && NoOwner(es) && Final(start, es).db.username.Some?
    ensures Final(start, es).db.order == Applied || CanBeApplied(Final(start, es))
  {
    PendingStaysProvisioning(start, es);
    if Final(start, es).db.order != Applied {
      CanBeAppliedIff(start, es);
    }
  }

  // ----- One pass over the order, as the scheduler runs it -----

  /** What one pass meets: the free name found (if any), the target computed for it, the password
      generated, the panel's and Telegram's behaviour, and whether the two commits succeed. */
  datatype Visit = Visit(
    name: Option<string>,
    target: Entitled,
    reserves: bool,
    password: string,
    net: Net,
    commits: bool,
    arrived: bool,
    reported: bool)

  // From provision on. A failed commit loses the session, as a crash does.
  function Purchased(s: State, v: Visit): State {
    if s.mem.username.None? || s.mem.target.None? || s.mem.reseller != Provisioning then s
    else
      var called := Called(s, s.mem.username.value, s.mem.target.value, v.password, v.net);
      if called.worker.Idle? then called
      else if !v.commits then called.(mem := called.db, worker := Idle)
      else
        var told := called.(db := called.mem, worker := Idle,
                            received := if v.arrived then Some(v.password) else called.received);
        if v.reported then told.(mem := told.mem.(reseller := ResellerActive, order := Applied)) else told
  }

  function Visited(s: State, v: Visit): State {
    if s.mem.order !in {Paid, Applying} then s
    else if s.mem.username.Some? then Purchased(s, v)
    else if v.name.None? then s
    else if !v.reserves then s.(mem := s.db)
    else
      var rows := Rows(v.name, Provisioning, Applying, Some(v.target));
      Purchased(s.(db := rows, mem := rows), v)
  }

  /** A visit applies the order exactly when a name is durably reserved, now or before, the target is there,
      provision returns normally, the commit succeeds and delivery reports success. The reseller is then
      ACTIVE, and what reached the chat is the password just stored. */
  lemma VisitAppliesIff(s: State, v: Visit)
    requires s.mem.order in {Paid, Applying} && s.db.order != Applied
    ensures var f := Visited(s, v);
      var username := if s.mem.username.Some? then s.mem.username else v.name;
      var target := if s.mem.username.Some? then s.mem.target else Some(v.target);
      && (f.mem.order == Applied <==>
            && username.Some? && target.Some?
            && (if s.mem.username.Some? then s.mem.reseller == ResellerStatus.Provisioning else v.reserves)
            && Provisioned(s.panel, username.value, target.value, v.password, v.net).1.Verified?
            && v.commits && v.reported)
      && (f.mem.order == Applied ==>
            && f.mem.username == username && f.db.username == username && f.mem.target == target
            && f.mem.reseller == ResellerActive
            && f.panel == Provisioned(s.panel, username.value, target.value, v.password, v.net).0
            && (v.arrived ==> f.received == Some(v.password)))
  {
    hide Provisioned;
  }

  /** What any visit leaves. Without a free name nothing; after a failed reservation the row as saved. Once a
      name is reserved, durably, the panel is what one call of provision for it leaves, and the chat has the
      new password exactly when that call returned normally, its commit succeeded and delivery arrived. */
  lemma VisitLeaves(s: State, v: Visit)
    requires s.mem.order in {Paid, Applying}
    ensures var f := Visited(s, v);
      && (s.mem.username.None? && (v.name.None? || !v.reserves) ==>
            && f.panel == s.panel && f.received == s.received && f.db == s.db
            && f.mem == if v.name.None? then s.mem else s.db)
      && (s.mem.username.None? && v.name.Some? && v.reserves ==>
            && f.db.username == v.name && f.db.target == Some(v.target)
            && f.mem.username == v.name && f.mem.target == Some(v.target)
            && var called := Provisioned(s.panel, v.name.value, v.target, v.password, v.net);
            && f.panel == called.0
            && f.received == (if called.1.Verified? && v.commits && v.arrived then Some(v.password) else s.received)
            && (f.mem.order != Applied ==>
                  f.db.order == Applying && f.mem.order == Applying && f.db.reseller == ResellerStatus.Provisioning))
  {
    hide Provisioned;
  }

  /** So a clean first visit to a paid order under a free name hands over the account it asked for. */
  lemma CleanVisitHandsOver(s: State, v: Visit)
    requires s.mem.order in {Paid, Applying} && s.db.order != Applied && s.mem.username.None?
    requires v.name.Some? && v.name.value !in s.panel.admins && v.target.expire >= 1_000_000
    requires v.reserves && v.commits && v.arrived && v.reported && v.net == CLEAN
    ensures var f := Visited(s, v);
      && f.mem.order == Applied && f.mem.reseller == ResellerActive && f.received == Some(v.password)
      && v.name.value in f.panel.passwords && f.panel.passwords[v.name.value] == v.password
      && v.name.value in f.panel.admins
      && f.panel.admins[v.name.value]
         == Admin(v.name.value, "reseller", Active, Some(v.target.expire - v.target.expire % 1_000_000),
                  Some(v.target.dataLimit), 0, v.target.services, v.target.usersLimit)
  {
    CleanCallGrants(s.panel, v.name.value, v.target, v.password);
    VisitAppliesIff(s, v);
    FillInFull(NewAccount(v.name.value), v.target);
    NormalReturnMeansGranted(s.panel, v.name.value, v.target, v.password, v.net);
    CleanCreate(s.panel, v.name.value, v.target, v.password);
    hide Provisioned, Visited, Fill;
  }

  lemma CleanCreate(p: Accounts, username: string, t: Entitled, password: string)
    requires username !in p.admins && t.expire >= 1_000_000
    ensures var p' := Provisioned(p, username, t, password, CLEAN).0;
      && username in p'.admins && p'.admins[username] == Fill(NewAccount(username), t, ALL_PARTS)
      && username in p'.passwords && p'.passwords[username] == password
  {
    hide VerifyEntitlement;
    FillInFull(NewAccount(username), t);
  }

  predicate Acceptable(s: State, v: Visit) {
    && (v.reported ==> v.arrived)
    && (v.name.Some? ==> v.name.value != "" && v.name.value !in s.panel.admins && v.target.expire >= SECOND)
  }

  lemma PurchaseIsRun(from: State, es0: seq<Event>, s: State, v: Visit) returns (es: seq<Event>)
    requires Leads(from, es0, s) && s.worker.Ready? && (v.reported ==> v.arrived)
    requires s.mem.username.Some? && s.mem.target.Some? && s.mem.reseller == Provisioning
    ensures Leads(from, es, Purchased(s, v))
  {
    hide Leads, Provisioned;
    var f;
    es, f := Next(from, es0, s, Call(v.password, v.net));
    if !f.worker.Idle? {
      if !v.commits {
        es, f := Next(from, es, f, Crash);
      } else {
        es, f := Next(from, es, f, CommitGrant);
        es, f := Next(from, es, f, Deliver(v.arrived, v.reported));
        if v.reported {
          es, f := Next(from, es, f, Activate);
        }
      }
    }
  }

  lemma ReservationIsRun(s: State, v: Visit) returns (es: seq<Event>, f: State)
    requires s.worker.Idle? && Acceptable(s, v) && s.mem.order in {Paid, Applying} && s.mem.username.None?
    requires v.name.Some?
    ensures Leads(s, es, f)
    ensures var rows := Rows(v.name, Provisioning, Applying, Some(v.target));
      f == if v.reserves then s.(db := rows, mem := rows, worker := Ready) else s.(mem := s.db)
  {
    es, f := [], s;
    assert Leads(s, es, f);
    hide Leads;
    es, f := Next(s, es, f, Reserve(v.name.value, v.target));
    es, f := Next(s, es, f, if v.reserves then CommitReservation else Crash);
  }

  /** Every pass, whatever fails in it, is a run of the machine: so its results hold of any series of
      passes. */
  lemma VisitIsRun(s: State, v: Visit) returns (es: seq<Event>)
    requires s.worker.Idle? && Inv(s) && Acceptable(s, v)
    ensures Valid(s, es) && Final(s, es) == Visited(s, v)
  {
    es := [];
    var f := s;
    assert Leads(s, es, f);
    hide Provisioned, Inv, Called;
    if s.mem.order in {Paid, Applying} {
      if s.mem.username.Some? {
        if s.mem.target.Some? && s.mem.reseller == Provisioning {
          es, f := Next(s, es, f, Resume);
          es := PurchaseIsRun(s, es, f, v);
          SameCall(f, s, v);
        }
      } else if v.name.Some? {
        es, f := ReservationIsRun(s, v);
        if v.reserves {
          es := PurchaseIsRun(s, es, f, v);
          SameCall(f, f.(worker := Idle), v);
        }
      }
    }
  }

  // Only the outcome of a call shows in the worker, not where it started.
  lemma SameCall(s: State, t: State, v: Visit)
    requires t == s.(worker := t.worker) && t.worker.Idle?
    requires s.mem.username.Some? && s.mem.target.Some? && s.mem.reseller == Provisioning
    ensures Purchased(s, v) == Purchased(t, v)
  {
    hide Provisioned;
  }
}
