/** First purchases: provision (app/reseller/service.py) and the username reservation
    (app/scheduler/jobs.py, _available_username). */
module Provisioning {
  import opened Prelude
  import opened Wire
  import opened Entitlement
  import opened RebeccaPanel

  datatype Refusal =
    | NoAnswer | WrongIdentity | UnsafeRole | NotActive | WrongExpire | WrongLimit | WrongServices | WrongUsersLimit

  datatype Result = Verified(live: Admin) | Raised(why: Refusal)

  predicate Privileged(a: Admin) {
    a.role in {"sudo", "full_access"}
  }

  function Distinct(services: multiset<string>): set<string> {
    set x | x in services
  }

  // What the final read is checked for, status aside.
  predicate Grants(a: Admin, username: string, t: Entitled) {
    && a.username == username && a.role == "reseller"
    && SameSecond(a.expire, Some(t.expire))
    && a.dataLimit == Some(t.dataLimit)
    && Distinct(a.services) == Distinct(t.services)
    && a.usersLimit == t.usersLimit
  }

  function VerifyEntitlement(live: Option<Admin>, username: string, t: Entitled): (r: Result)
    ensures r.Verified? <==>
      && live.Some? && Grants(live.value, username, t)
      && NormalizeStatus(live.value.status) == Active
    ensures r.Verified? ==> Some(r.live) == live
  {
    if live.None? || live.value.username != username then Raised(WrongIdentity)
    else
      var a := live.value;
      if a.role != "reseller" then Raised(UnsafeRole)
      else if a.status !in {Active, Enabled} then Raised(NotActive)
      else if !SameSecond(a.expire, Some(t.expire)) then Raised(WrongExpire)
      else if a.dataLimit != Some(t.dataLimit) then Raised(WrongLimit)
      else if Distinct(a.services) != Distinct(t.services) then Raised(WrongServices)
      else if a.usersLimit != t.usersLimit then Raised(WrongUsersLimit)
      else Verified(a)
  }

  datatype Net = Net(readable: bool, write: Written, guard: Delivery, verifiable: bool)

  /** Accounts, their passwords, and the requests issued. */
  datatype Accounts = Accounts(admins: map<string, Admin>, passwords: map<string, string>, calls: seq<Call>)

  function Create(p: Accounts, username: string, t: Entitled, password: string, w: Written): Accounts {
    var issued := p.(calls := p.calls + [CreateAdmin(username)]);
    if w.executed && username !in p.admins then Filled(issued, username, NewAccount(username), t, password, w.parts)
    else issued
  }

  function Reset(p: Accounts, username: string, t: Entitled, password: string, w: Written): Accounts {
    var issued := p.(calls := p.calls + [UpdateAdmin(username)]);
    if w.executed && username in p.admins then Filled(issued, username, p.admins[username], t, password, w.parts)
    else issued
  }

  function Filled(p: Accounts, username: string, a: Admin, t: Entitled, password: string, parts: set<Part>): Accounts {
    p.(admins := p.admins[username := Fill(a, t, parts)],
       passwords := if Password in parts then p.passwords[username := password] else p.passwords)
  }

  // The best-effort switch-off of a privileged account; its outcome is ignored.
  function SwitchedOff(p: Accounts, username: string, d: Delivery): Accounts {
    p.(admins := if d.executed then WithStatus(p.admins, username, Disabled) else p.admins,
       calls := p.calls + [DisableAdmin(username)])
  }

  function Checked(p: Accounts, username: string, t: Entitled, net: Net): (Accounts, Result) {
    if !net.verifiable then (p, Raised(NoAnswer))
    else
      var live := Lookup(p.admins, username);
      var r := VerifyEntitlement(live, username, t);
      (if r.Raised? && live.Some? && Privileged(live.value) then SwitchedOff(p, username, net.guard) else p, r)
  }

  function Provisioned(p: Accounts, username: string, t: Entitled, password: string, net: Net): (Accounts, Result) {
    if !net.readable then (p, Raised(NoAnswer))
    else if username !in p.admins then
      var p' := Create(p, username, t, password, net.write);
      if net.write.acknowledged then Checked(p', username, t, net) else (p', Raised(NoAnswer))
    else if Privileged(p.admins[username]) then
      (SwitchedOff(p, username, net.guard), Raised(UnsafeRole))
    else
      var p' := Reset(p, username, t, password, net.write);
      if net.write.acknowledged then Checked(p', username, t, net) else (p', Raised(NoAnswer))
  }

  ghost function View(panel: Panel): Accounts
    reads panel
  {
    Accounts(panel.admins, panel.passwords, panel.calls)
  }

  method Provision(panel: Panel, username: string, password: string, t: Entitled, net: Net) returns (r: Result)
    modifies panel
    ensures (View(panel), r) == Provisioned(old(View(panel)), username, t, password, net)
    ensures panel.users == old(panel.users)
  {
    var read := panel.GetAdmin(username, net.readable);
    if read.Unavailable? {
      return Raised(NoAnswer);
    }
    var ok: bool;
    if read.value.None? {
      ok := panel.AddAdmin(username, t, password, net.write);
    } else {
      if Privileged(read.value.value) {
        var _ := panel.SetAdminStatus(username, Disabled, net.guard);
        return Raised(UnsafeRole);
      }
      // A password from before a crash was never stored: the reset issues a new one.
      ok := panel.ResetAdmin(username, t, password, net.write);
    }
    if !ok {
      return Raised(NoAnswer);
    }
    var again := panel.GetAdmin(username, net.verifiable);
    if again.Unavailable? {
      return Raised(NoAnswer);
    }
    r := VerifyEntitlement(again.value, username, t);
    if r.Raised? && again.value.Some? && Privileged(again.value.value) {
      var _ := panel.SetAdminStatus(username, Disabled, net.guard);
    }
  }

  predicate Taken(name: string, reserved: set<string>, admins: map<string, Admin>) {
    name in reserved || name in admins
  }

  /** The first candidate that is neither reserved locally nor an account on the panel. None means that
      every candidate is taken, or that the panel did not answer about one before any was found free. */
  predicate Chosen(r: Option<string>, admins: map<string, Admin>, reserved: set<string>, candidates: seq<string>,
                   reachable: nat -> bool) {
    if r.Some? then
      && r.value !in reserved && r.value !in admins
      && (exists i :: 0 <= i < |candidates| && candidates[i] == r.value
                      && forall j :: 0 <= j < i ==> Taken(candidates[j], reserved, admins))
    else
      || (forall i :: 0 <= i < |candidates| ==> Taken(candidates[i], reserved, admins))
      || (exists i: nat :: i < |candidates| && candidates[i] !in reserved && !reachable(i)
                           && forall j :: 0 <= j < i ==> Taken(candidates[j], reserved, admins))
  }

  method AvailableUsername(panel: Panel, reserved: set<string>, candidates: seq<string>, reachable: nat -> bool)
    returns (r: Option<string>)
    ensures Chosen(r, panel.admins, reserved, candidates, reachable)
  {
    for k := 0 to |candidates|
      invariant forall j :: 0 <= j < k ==> Taken(candidates[j], reserved, panel.admins)
    {
      var candidate := candidates[k];
      if candidate !in reserved {
        var read := panel.GetAdmin(candidate, reachable(k));
        if read.Unavailable? {
          return None;
        }
        if read.value.None? {
          return Some(candidate);
        }
      }
    }
    return None;
  }

  // ----- What one call guarantees -----

  predicate OthersKept(p: Accounts, p': Accounts, username: string) {
    && p'.admins - {username} == p.admins - {username}
    && p'.passwords - {username} == p.passwords - {username}
    && p.admins.Keys <= p'.admins.Keys
  }

  lemma WritesKeepOthers(p: Accounts, username: string, t: Entitled, password: string, w: Written, d: Delivery)
    ensures OthersKept(p, Create(p, username, t, password, w), username)
    ensures OthersKept(p, Reset(p, username, t, password, w), username)
    ensures OthersKept(p, SwitchedOff(p, username, d), username)
  {
  }

  lemma CheckKeepsOthers(p: Accounts, p': Accounts, username: string, t: Entitled, net: Net)
    requires OthersKept(p, p', username)
    ensures OthersKept(p, Checked(p', username, t, net).0, username)
  {
  }

  /** No account but the named one changes, none disappears, and a create is sent only where the name
      was free. */
  lemma OnlyTheNamedAccount(p: Accounts, username: string, t: Entitled, password: string, net: Net)
    ensures var (p', r) := Provisioned(p, username, t, password, net);
      && OthersKept(p, p', username)
      && |p.calls| <= |p'.calls|
      && (CreateAdmin(username) in p'.calls[|p.calls|..] ==> username !in p.admins)
  {
    hide OthersKept;
    WritesKeepOthers(p, username, t, password, net.write, net.guard);
    var created := Create(p, username, t, password, net.write);
    var reset := Reset(p, username, t, password, net.write);
    CheckKeepsOthers(p, created, username, t, net);
    CheckKeepsOthers(p, reset, username, t, net);
    Untouched(p, username);
  }

  lemma Untouched(p: Accounts, username: string)
    ensures OthersKept(p, p, username)
  {
  }

  /** An account with a privileged role is never written; it is asked off, and is off if that is executed. */
  lemma PrivilegedIsNeverUpdated(p: Accounts, username: string, t: Entitled, password: string, net: Net)
    requires username in p.admins && Privileged(p.admins[username]) && net.readable
    ensures var (p', r) := Provisioned(p, username, t, password, net);
      && r == Raised(UnsafeRole)
      && p'.calls == p.calls + [DisableAdmin(username)]
      && p'.passwords == p.passwords
      && username in p'.admins
      && p'.admins[username]
         == if net.guard.executed then p.admins[username].(status := Disabled) else p.admins[username]
  {
  }

  /** Normal return: the account now on the panel is the one requested, to the second, and active. */
  lemma NormalReturnMeansGranted(p: Accounts, username: string, t: Entitled, password: string, net: Net)
    ensures var (p', r) := Provisioned(p, username, t, password, net);
      r.Verified? ==>
        && username in p'.admins && p'.admins[username] == r.live
        && Grants(r.live, username, t) && NormalizeStatus(r.live.status) == Active
        && (Password in net.write.parts && net.write.executed ==>
              username in p'.passwords && p'.passwords[username] == password)
  {
  }

  /** Repeating the request never takes the entitlement away, whatever part of it gets through. */
  lemma RetryKeepsGrant(p: Accounts, username: string, t: Entitled, password: string, net: Net)
    requires t.expire >= SECOND
    requires username in p.admins && Grants(p.admins[username], username, t)
    ensures var (p', _) := Provisioned(p, username, t, password, net);
      && username in p'.admins && Grants(p'.admins[username], username, t)
      && p'.admins[username].status == p.admins[username].status
      && (p'.passwords == p.passwords || p'.passwords == p.passwords[username := password])
  {
  }
}
