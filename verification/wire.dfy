/** Expiry on the wire and account status names (app/rebecca/models.py). */
module Wire {
  import opened Prelude

  // What a panel payload may hold where an expiry is expected. Number(0), Null and Blank all mean "none".
  datatype Value = Null | Blank | Number(seconds: int) | Instant(micros: int)

  // int() drops the fraction towards zero.
  function WholeSeconds(t: int): int {
    if t >= 0 then t / SECOND else -(-t / SECOND)
  }

  function SerializeExpire(expire: Option<int>): Value {
    match expire
    case None => Null
    case Some(t) => Number(WholeSeconds(t))
  }

  function ParseExpire(v: Value): Option<int> {
    match v
    case Null => None
    case Blank => None
    case Number(n) => if n == 0 then None else Some(n * SECOND)
    case Instant(t) => Some(t)
  }

  // The expiry the panel reports after it accepted `expire`.
  function Image(expire: Option<int>): Option<int> {
    ParseExpire(SerializeExpire(expire))
  }

  predicate SameSecond(left: Option<int>, right: Option<int>) {
    if left.None? || right.None? then left.None? && right.None?
    else WholeSeconds(left.value) == WholeSeconds(right.value)
  }

  predicate WholeSecond(t: int) {
    t % SECOND == 0
  }

  /** Round trip: an instant a second or more away from the epoch comes back truncated to the second;
      anything nearer comes back as "no expiry". */
  lemma RoundTrip(t: int)
    ensures (t >= SECOND || t <= -SECOND) <==> Image(Some(t)).Some?
    ensures t >= SECOND ==> Image(Some(t)) == Some(t - t % SECOND)
    ensures Image(Some(t)).Some? ==> Image(Image(Some(t))) == Image(Some(t))
    ensures Image(Some(t)) == Some(t) <==> t != 0 && WholeSecond(t)
  {
  }

  /** Which live values each comparison accepts for a requested expiry: the second-wise one accepts
      exactly the instants with the same wire form; the exact one accepts the panel's own answer only
      when the request was a whole second. */
  lemma AcceptedImages(requested: int, live: Option<int>)
    requires requested >= SECOND
    ensures live.Some? ==>
      (SameSecond(live, Some(requested)) <==> SerializeExpire(live) == SerializeExpire(Some(requested)))
    ensures SameSecond(Image(Some(requested)), Some(requested))
    ensures Image(Some(requested)) == Some(requested) <==> WholeSecond(requested)
  {
  }

  /** Account status as text, by what the program tells apart. */
  datatype Status = Active | Enabled | Disabled | Inactive | Other(text: string)

  function NormalizeStatus(s: Status): Status
  {
    match s
    case Enabled => Active
    case Inactive => Disabled
    case _ => s
  }

  /** Which words say that an account is on, and which that it is off; all others stand for themselves. */
  lemma StatusWords(s: Status)
    ensures NormalizeStatus(s) == Active <==> s == Active || s == Enabled
    ensures NormalizeStatus(s) == Disabled <==> s == Disabled || s == Inactive
    ensures s.Other? ==> NormalizeStatus(s) == s
  {
  }
}
