/** Locks with a time limit (app/database/locks.py): when two holders of one key exclude each other. */
module Locks {
  import opened Prelude

  // ----- The lock rows -----

  // A key is free when it has no row or its row has expired.
  predicate Free(rows: map<string, int>, key: string, now: int) {
    key in rows ==> rows[key] <= now
  }

  function Without(rows: map<string, int>, keys: set<string>): map<string, int> {
    rows - keys
  }

  /** What one database session sees: the rows every session is checked against, and the keys it added
      itself since its last commit. */
  datatype View = View(rows: map<string, int>, unsaved: set<string>)

  // Expired rows of the key go first; a conflict rolls back the whole session, with whatever else it had
  // not committed.
  function Acquired(v: View, key: string, ttl: int, now: int): View {
    if Free(v.rows, key, now) then View(v.rows[key := now + ttl], v.unsaved + {key})
    else View(Without(v.rows, v.unsaved), {})
  }

  function Released(v: View, key: string): View {
    View(Without(v.rows, {key}), v.unsaved - {key})
  }

  class LockTable {
    var rows: map<string, int>
    var unsaved: set<string>

    constructor ()
      ensures Now() == View(map[], {})
    {
      rows, unsaved := map[], {};
    }

    ghost function Now(): View
      reads this
    {
      View(rows, unsaved)
    }

    method Acquire(key: string, ttl: int, now: int) returns (won: bool)
      modifies this
      ensures won == Free(old(rows), key, now) && Now() == Acquired(old(Now()), key, ttl, now)
    {
      if key in rows && rows[key] <= now {
        rows := rows - {key};
      }
      if key in rows {
        rows, unsaved := rows - unsaved, {};
        return false;
      }
      rows, unsaved := rows[key := now + ttl], unsaved + {key};
      return true;
    }

    method Release(key: string)
      modifies this
      ensures Now() == Released(old(Now()), key)
    {
      rows, unsaved := rows - {key}, unsaved - {key};
    }
  }

  // ----- Many sessions -----

  /** A body running under a lock it won. `saved` once its session has no change to the row left that a
      rollback could undo. */
  datatype Hold = Hold(session: nat, key: string, until: int, saved: bool)

  datatype State = State(rows: map<string, int>, holds: set<Hold>)

  datatype Event =
    | Enter(session: nat, key: string, ttl: int, now: int)
    | Leave(session: nat, key: string)
    | Save(session: nat)
    | Die(session: nat)

  ghost function Unsaved(s: State, session: nat): set<string> {
    set h | h in s.holds && h.session == session && !h.saved :: h.key
  }

  ghost function Saved(holds: set<Hold>, session: nat): set<Hold> {
    set h | h in holds :: if h.session == session then h.(saved := true) else h
  }

  predicate Wins(s: State, e: Event) {
    e.Enter? && Free(s.rows, e.key, e.now)
  }

  ghost function Step(s: State, e: Event): State {
    match e
    case Enter(session, key, ttl, now) =>
      if Wins(s, e) then State(s.rows[key := now + ttl], s.holds + {Hold(session, key, now + ttl, false)})
      else State(Without(s.rows, Unsaved(s, session)), Saved(s.holds, session))
    case Leave(session, key) =>
      if exists h :: h in s.holds && h.session == session && h.key == key then
        State(Without(s.rows, {key}), set h | h in s.holds && !(h.session == session && h.key == key))
      else s
    case Save(session) => s.(holds := Saved(s.holds, session))
    case Die(session) => State(Without(s.rows, Unsaved(s, session)), set h | h in s.holds && h.session != session)
  }

  ghost function Seen(s: State, session: nat): View {
    View(s.rows, Unsaved(s, session))
  }

  /** Entering and leaving are acquire and release, seen from the session that does it. */
  lemma EnterIsAcquire(s: State, session: nat, key: string, ttl: int, now: int)
    ensures var e := Enter(session, key, ttl, now);
      && Wins(s, e) == Free(s.rows, key, now)
      && Seen(Step(s, e), session) == Acquired(Seen(s, session), key, ttl, now)
  {
  }

  lemma LeaveIsRelease(s: State, session: nat, key: string)
    requires exists h :: h in s.holds && h.session == session && h.key == key
    ensures Seen(Step(s, Leave(session, key)), session) == Released(Seen(s, session), key)
  {
  }

  // The state after the first n events.
  ghost function At(s: State, es: seq<Event>, n: nat): State
    requires n <= |es|
  {
    if n == 0 then s else Step(At(s, es, n - 1), es[n - 1])
  }

  // Time does not run backwards, and limits are positive.
  predicate Timed(es: seq<Event>) {
    && (forall i :: 0 <= i < |es| && es[i].Enter? ==> es[i].ttl > 0)
    && (forall i, j :: 0 <= i < j < |es| && es[i].Enter? && es[j].Enter? ==> es[i].now <= es[j].now)
  }

  // ----- Separation: any trace -----

  // The key's row is given up: released, or lost in the rollback or crash of a session that had not saved it.
  ghost predicate GivesUp(s: State, e: Event, key: string) {
    match e
    case Enter(session, _, _, _) => !Wins(s, e) && key in Unsaved(s, session)
    case Leave(_, k) => k == key
    case Save(_) => false
    case Die(session) => key in Unsaved(s, session)
  }

  lemma {:induction false} RowStands(s: State, es: seq<Event>, i: nat, n: nat)
    requires i < n <= |es| && Timed(es) && Wins(At(s, es, i), es[i])
    requires forall m :: i < m < n ==> !GivesUp(At(s, es, m), es[m], es[i].key)
    ensures es[i].key in At(s, es, n).rows && At(s, es, n).rows[es[i].key] >= es[i].now + es[i].ttl
  {
    if i + 1 < n {
      RowStands(s, es, i, n - 1);
      assert !GivesUp(At(s, es, n - 1), es[n - 1], es[i].key);
    }
  }

  /** Over any trace, two successful acquisitions of one key are separated by the moment the key was
      given up, or by at least the first one's time limit. */
  lemma AcquisitionsAreSeparated(s: State, es: seq<Event>, i: nat, j: nat)
    requires i < j < |es| && Timed(es) && es[i].Enter? && es[j].Enter? && es[j].key == es[i].key
    requires Wins(At(s, es, i), es[i]) && Wins(At(s, es, j), es[j])
    ensures (exists m :: i < m < j && GivesUp(At(s, es, m), es[m], es[i].key)) || es[j].now >= es[i].now + es[i].ttl
  {
    if forall m :: i < m < j ==> !GivesUp(At(s, es, m), es[m], es[i].key) {
      RowStands(s, es, i, j);
    }
  }

  // ----- Exclusion -----

  /** Every running body still has its row, and no two share a key. */
  ghost predicate Exclusive(s: State) {
    && (forall h :: h in s.holds ==> h.key in s.rows && s.rows[h.key] == h.until)
    && (forall g, h :: g in s.holds && h in s.holds && g.key == h.key ==> g == h)
  }

  /** Nobody asks for a key whose holder runs past its limit, and no session is refused a lock while an
      earlier lock of its own is uncommitted. */
  ghost predicate Steady(s: State, e: Event) {
    e.Enter? ==>
      && (forall h :: h in s.holds && h.key == e.key ==> e.now < h.until)
      && (!Wins(s, e) ==> forall h :: h in s.holds && h.session == e.session ==> h.saved)
  }

  lemma SteadyKeepsExclusion(s: State, e: Event)
    requires Exclusive(s) && Steady(s, e) && (e.Enter? ==> e.ttl > 0)
    ensures Exclusive(Step(s, e))
  {
  }

  /** The two conditions are exact: every holder still has its own row after an acquisition if and only if
      both hold. */
  lemma ExclusionLastsIffSteady(s: State, e: Event)
    requires Exclusive(s) && e.Enter? && e.ttl > 0
    ensures Exclusive(Step(s, e)) <==> Steady(s, e)
  {
  }

  /** Holders themselves meet only at an acquisition, and exactly when one of the key has outlived its
      limit; a refusal that drops a row lets them meet later. */
  lemma HoldersMeetIff(s: State, e: Event)
    requires Exclusive(s) && e.Enter? && e.ttl > 0
    ensures (exists g, h :: g in Step(s, e).holds && h in Step(s, e).holds && g.key == h.key && g != h)
       <==> exists h :: h in s.holds && h.key == e.key && h.until <= e.now
  {
    if h :| h in s.holds && h.key == e.key && h.until <= e.now {
      var g := Hold(e.session, e.key, e.now + e.ttl, false);
      assert g in Step(s, e).holds && h in Step(s, e).holds && g.until != h.until;
    } else {
      assert Wins(s, e) ==> forall h :: h in s.holds ==> h.key != e.key;
    }
  }

  // Two sessions run a body under the key.
  ghost predicate Shared(s: State, key: string) {
    exists g, h :: g in s.holds && h in s.holds && g.session != h.session && g.key == key == h.key
  }

  lemma {:induction false} PassesStayExclusive(s: State, es: seq<Event>, n: nat)
    requires s.holds == {} && n <= |es| && Timed(es)
    requires forall m :: 0 <= m < n ==> Steady(At(s, es, m), es[m])
    ensures Exclusive(At(s, es, n))
  {
    hide Steady, Step;
    if n > 0 {
      hide Exclusive;
      PassesStayExclusive(s, es, n - 1);
      assert Steady(At(s, es, n - 1), es[n - 1]);
      SteadyKeepsExclusion(At(s, es, n - 1), es[n - 1]);
    }
  }

  /** Passes that end within their limit never overlap. */
  lemma PassesNeverOverlap(s: State, es: seq<Event>, n: nat, key: string)
    requires s.holds == {} && n <= |es| && Timed(es)
    requires forall m :: 0 <= m < n ==> Steady(At(s, es, m), es[m])
    ensures !Shared(At(s, es, n), key)
  {
    PassesStayExclusive(s, es, n);
    hide Steady, At;
  }

  /** A lock left behind by a crash keeps the key until its limit and not a moment longer, as long as
      nobody else takes it. */
  lemma {:induction false} CrashBlocksUntilTheLimit(s: State, es: seq<Event>, n: nat, h: Hold, now: int)
    requires Exclusive(s) && h in s.holds && h.saved && 0 < n <= |es| && es[0] == Die(h.session)
    requires forall m :: 0 <= m < n ==>
      Steady(At(s, es, m), es[m]) && (es[m].Enter? ==> es[m].ttl > 0 && es[m].key != h.key)
    ensures Exclusive(At(s, es, n)) && (forall g :: g in At(s, es, n).holds ==> g.key != h.key)
    ensures Free(At(s, es, n).rows, h.key, now) <==> h.until <= now
    ensures h.key in At(s, es, n).rows && At(s, es, n).rows[h.key] == h.until
  {
    if n == 1 {
      assert At(s, es, 0) == s;
      SteadyKeepsExclusion(s, es[0]);
      assert h.key !in Unsaved(s, h.session);
    } else {
      CrashBlocksUntilTheLimit(s, es, n - 1, h, now);
      var t := At(s, es, n - 1);
      assert Steady(t, es[n - 1]);
      SteadyKeepsExclusion(t, es[n - 1]);
      assert h.key !in Unsaved(t, es[n - 1].session);
    }
  }

  // ----- What goes wrong otherwise -----

  /** A pass that outlives its limit releases the lock of its successor, and then two passes run that
      are both within their own limits. */
  lemma LateReleaseFreesAnother()
    ensures exists s: State, es: seq<Event> ::
      && s.holds == {} && s.rows == map[] && |es| == 4 && Timed(es) && es[3].Enter?
      && Shared(At(s, es, 4), "orders:reconcile")
      && forall h :: h in At(s, es, 4).holds ==> es[3].now < h.until
  {
    var key, ttl := "orders:reconcile", 300 * SECOND;
    var s := State(map[], {});
    var es := [Enter(1, key, ttl, 0), Enter(2, key, ttl, ttl), Leave(1, key), Enter(3, key, ttl, ttl + 1)];
    var a, b := Hold(1, key, ttl, false), Hold(2, key, 2 * ttl, false);
    assert At(s, es, 1) == State(map[key := ttl], {a}) by { assert At(s, es, 0) == s; }
    assert At(s, es, 2) == State(map[key := 2 * ttl], {a, b});
    assert a in At(s, es, 2).holds;
    assert At(s, es, 3) == State(map[], {b});
    var c := Hold(3, key, 2 * ttl + 1, false);
    assert At(s, es, 4) == State(map[key := 2 * ttl + 1], {b, c});
    assert b in At(s, es, 4).holds && c in At(s, es, 4).holds;
  }

  /** A refused inner lock rolls the session back and with it an outer lock not yet committed: a second
      pass can then start beside the first, with every limit respected. */
  lemma RefusedInnerLockDropsTheOuter()
    ensures exists s: State, es: seq<Event> ::
      && s.holds == {} && s.rows == map[] && |es| == 4 && Timed(es) && es[3].Enter?
      && Shared(At(s, es, 4), "scheduler:global")
      && forall h :: h in At(s, es, 4).holds ==> es[3].now < h.until
  {
    var outer, inner := "scheduler:global", "orders:reconcile";
    var s := State(map[], {});
    var es := [Enter(1, inner, 300, 0), Enter(2, outer, 240, 1), Enter(2, inner, 300, 2), Enter(3, outer, 240, 3)];
    var a, b, c := Hold(1, inner, 300, false), Hold(2, outer, 241, false), Hold(3, outer, 243, false);
    assert At(s, es, 0) == s;
    assert At(s, es, 1) == State(map[inner := 300], {a});
    assert At(s, es, 2) == State(map[inner := 300, outer := 241], {a, b});
    assert Unsaved(At(s, es, 2), 2) == {outer};
    var b' := b.(saved := true);
    assert Saved({a, b}, 2) == {a, b'} by {
      assert a in Saved({a, b}, 2) && b' in Saved({a, b}, 2);
    }
    assert At(s, es, 3) == State(map[inner := 300], {a, b'});
    assert At(s, es, 4) == State(map[inner := 300, outer := 243], {a, b', c});
    assert b' in At(s, es, 4).holds && c in At(s, es, 4).holds;
  }
}
