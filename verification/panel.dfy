/** The remote panel as its client sees it (app/rebecca/client.py). Every call names what the network
    did: whether the panel executed the request, and whether the caller learned so. */
module RebeccaPanel {
  import opened Prelude
  import opened Wire
  import opened Entitlement

  datatype Reply<+T> = Answer(value: T) | Unavailable

  /** Mutating requests the program issued, oldest first. */
  datatype Call =
    | CreateAdmin(username: string)
    | UpdateAdmin(username: string)
    | EnableAdmin(username: string)
    | DisableAdmin(username: string)
    | DisableAdminUsers(username: string)
    | EnableUser(username: string)
    | DisableUser(username: string)
    | DeleteUser(username: string)

  // Whether a request concerns the account.
  predicate Names(c: Call, admin: string) {
    match c
    case CreateAdmin(n) => n == admin
    case UpdateAdmin(n) => n == admin
    case EnableAdmin(n) => n == admin
    case DisableAdmin(n) => n == admin
    case DisableAdminUsers(n) => n == admin
    case _ => false
  }

  // What happened to one mutating request.
  datatype Delivery = Delivery(executed: bool, acknowledged: bool)

  /** The account a first purchase asks for. */
  datatype Entitled = Entitled(
    expire: int, dataLimit: int, services: multiset<string>, usersLimit: Option<int>)

  /** What a create or reset request carries. */
  datatype Part = Password | Role | Entitlement(field: Field)

  const ALL_PARTS := {Password, Role, Entitlement(DataLimit), Entitlement(Expire), Entitlement(Services),
                      Entitlement(UsersLimit)}

  function Fill(a: Admin, t: Entitled, parts: set<Part>): Admin {
    a.(role := if Role in parts then "reseller" else a.role,
       dataLimit := if Entitlement(DataLimit) in parts then Some(t.dataLimit) else a.dataLimit,
       expire := if Entitlement(Expire) in parts then Image(Some(t.expire)) else a.expire,
       services := if Entitlement(Services) in parts then t.services else a.services,
       usersLimit := if Entitlement(UsersLimit) in parts then t.usersLimit else a.usersLimit)
  }

  // What the panel starts a new account from.
  function NewAccount(username: string): Admin {
    Admin(username, "standard", Active, None, None, 0, multiset{}, None)
  }

  /** How much of a create or reset request was executed, and whether the caller learned of it. */
  datatype Written = Written(executed: bool, parts: set<Part>, acknowledged: bool)

  function Lookup<T>(m: map<string, T>, key: string): Option<T> {
    if key in m then Some(m[key]) else None
  }

  function WithStatus(m: map<string, Admin>, key: string, status: Status): map<string, Admin> {
    if key in m then m[key := m[key].(status := status)] else m
  }

  function UserWithStatus(m: map<string, User>, key: string, status: Status): map<string, User> {
    if key in m then m[key := m[key].(status := status)] else m
  }

  // The users after `key` became `u`, or disappeared.
  function PutUser(m: map<string, User>, key: string, u: Option<User>): map<string, User> {
    if u.Some? then m[key := u.value] else m - {key}
  }

  function AllOff(users: map<string, User>, admin: string): map<string, User> {
    map n | n in users :: if VerifiedOwner(users[n], admin) then users[n].(status := Disabled) else users[n]
  }

  class Panel {
    var admins: map<string, Admin>
    var users: map<string, User>
    var passwords: map<string, string>
    var calls: seq<Call>

    constructor ()
      ensures admins == map[] && users == map[] && passwords == map[] && calls == []
    {
      admins, users, passwords, calls := map[], map[], map[], [];
    }

    method GetAdmin(username: string, reachable: bool) returns (r: Reply<Option<Admin>>)
      ensures r == if reachable then Answer(Lookup(admins, username)) else Unavailable
    {
      if reachable {
        r := Answer(Lookup(admins, username));
      } else {
        r := Unavailable;
      }
    }

    method GetUser(username: string, reachable: bool) returns (r: Reply<Option<User>>)
      ensures r == if reachable then Answer(Lookup(users, username)) else Unavailable
    {
      if reachable {
        r := Answer(Lookup(users, username));
      } else {
        r := Unavailable;
      }
    }

    // A create is refused when the name exists; otherwise it may fill in any part of the request.
    method AddAdmin(username: string, t: Entitled, password: string, w: Written) returns (ok: bool)
      modifies this
      ensures if w.executed && username !in old(admins)
              then admins == old(admins)[username := Fill(NewAccount(username), t, w.parts)]
                   && passwords == if Password in w.parts then old(passwords)[username := password] else old(passwords)
              else admins == old(admins) && passwords == old(passwords)
      ensures users == old(users) && calls == old(calls) + [CreateAdmin(username)]
      ensures ok == (w.acknowledged && username !in old(admins))
    {
      calls := calls + [CreateAdmin(username)];
      ok := w.acknowledged && username !in admins;
      if w.executed && username !in admins {
        admins := admins[username := Fill(NewAccount(username), t, w.parts)];
        if Password in w.parts {
          passwords := passwords[username := password];
        }
      }
    }

    method ResetAdmin(username: string, t: Entitled, password: string, w: Written) returns (ok: bool)
      modifies this
      ensures if w.executed && username in old(admins)
              then admins == old(admins)[username := Fill(old(admins)[username], t, w.parts)]
                   && passwords == if Password in w.parts then old(passwords)[username := password] else old(passwords)
              else admins == old(admins) && passwords == old(passwords)
      ensures users == old(users) && calls == old(calls) + [UpdateAdmin(username)]
      ensures ok == (w.acknowledged && username in old(admins))
    {
      calls := calls + [UpdateAdmin(username)];
      ok := w.acknowledged && username in admins;
      if w.executed && username in admins {
        admins := admins[username := Fill(admins[username], t, w.parts)];
        if Password in w.parts {
          passwords := passwords[username := password];
        }
      }
    }

    // The panel may execute any part of an update. A lost reply, and an account missing on the client's
    // own re-read, surface as false.
    method UpdateEntitlement(username: string, target: Snapshot, fields: set<Field>, acknowledged: bool)
      returns (ok: bool)
      modifies this
      ensures admins == if username in old(admins)
                        then old(admins)[username := Write(old(admins)[username], target, fields)]
                        else old(admins)
      ensures users == old(users) && passwords == old(passwords)
      ensures calls == old(calls) + [UpdateAdmin(username)]
      ensures ok == (acknowledged && username in old(admins))
    {
      calls := calls + [UpdateAdmin(username)];
      if username in admins {
        admins := admins[username := Write(admins[username], target, fields)];
      }
      ok := acknowledged && username in admins;
    }

    method SetAdminStatus(username: string, status: Status, d: Delivery) returns (ok: bool)
      requires status in {Active, Disabled}
      modifies this
      ensures admins == if d.executed then WithStatus(old(admins), username, status) else old(admins)
      ensures users == old(users) && passwords == old(passwords)
      ensures calls == old(calls) + [if status == Active then EnableAdmin(username) else DisableAdmin(username)]
      ensures ok == d.acknowledged
    {
      calls := calls + [if status == Active then EnableAdmin(username) else DisableAdmin(username)];
      if d.executed {
        admins := WithStatus(admins, username, status);
      }
      ok := d.acknowledged;
    }

    // update_user looks the user up first and fails when it is missing.
    method SetUserStatus(username: string, status: Status, d: Delivery) returns (ok: bool)
      requires status in {Active, Disabled}
      modifies this
      ensures users == if d.executed then UserWithStatus(old(users), username, status) else old(users)
      ensures admins == old(admins) && passwords == old(passwords)
      ensures calls == old(calls) + [if status == Active then EnableUser(username) else DisableUser(username)]
      ensures ok == (d.acknowledged && username in old(users))
    {
      calls := calls + [if status == Active then EnableUser(username) else DisableUser(username)];
      ok := d.acknowledged && username in users;
      if d.executed {
        users := UserWithStatus(users, username, status);
      }
    }

    method DisableUsersOf(admin: string, d: Delivery) returns (ok: bool)
      modifies this
      ensures users == if d.executed then AllOff(old(users), admin) else old(users)
      ensures admins == old(admins) && passwords == old(passwords)
      ensures calls == old(calls) + [DisableAdminUsers(admin)]
      ensures ok == d.acknowledged
    {
      calls := calls + [DisableAdminUsers(admin)];
      if d.executed {
        users := AllOff(users, admin);
      }
      ok := d.acknowledged;
    }

    method RemoveUser(username: string, d: Delivery) returns (ok: bool)
      modifies this
      ensures users == if d.executed then old(users) - {username} else old(users)
      ensures admins == old(admins) && passwords == old(passwords)
      ensures calls == old(calls) + [DeleteUser(username)]
      ensures ok == (d.acknowledged && username in old(users))
    {
      calls := calls + [DeleteUser(username)];
      ok := d.acknowledged && username in users;
      if d.executed {
        users := users - {username};
      }
    }
  }

  /** Switching off an administrator's users reaches exactly those it owns, and only their status. */
  lemma AllOffIff(users: map<string, User>, admin: string, name: string)
    requires name in users
    ensures AllOff(users, admin).Keys == users.Keys
    ensures AllOff(users, admin)[name]
         == if users[name].owner == Some(admin) && admin != "" then users[name].(status := Disabled) else users[name]
  {
  }

  /** A full request leaves the account as asked, an empty one as it was. */
  lemma FillInFull(a: Admin, t: Entitled)
    requires t.expire >= 1_000_000
    ensures var b := Fill(a, t, ALL_PARTS);
      && b == Admin(a.username, "reseller", a.status, Some(t.expire - t.expire % 1_000_000), Some(t.dataLimit), a.used,
                    t.services, t.usersLimit)
    ensures Fill(a, t, {}) == a
  {
    RoundTrip(t.expire);
  }
}
