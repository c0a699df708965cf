/** Shared vocabulary of the service layer: optional values, results, the
    `{success, message}` reply, documents with their ids, store outages and
    the ids the document store generates. */
module Common {

  datatype Option<T> = None | Some(value: T)

  /** A stored or listed document: its id and its fields. */
  datatype Doc<T> = Doc(id: string, data: T)

  /** The `{ success, message }` object the service functions return. */
  datatype Reply = Reply(success: bool, message: string)

  /** What a service function throws (a rejected promise). */
  datatype Error =
    | NotConfigured(message: string)   // an Error the service raises itself
    | StoreFailure(reason: string)     // an error raised by the document store
    | NotFound(key: string)            // the store's "no document to update"

  datatype Result<T> = Ok(value: T) | Err(error: Error)

  /** Availability of the document store during one service call: it either
      answers every operation, or answers the first `after` operations of
      the call and fails every later one with an error whose message is
      `reason`. */
  datatype Outage = Reachable | Unreachable(after: nat, reason: string)

  /** Does the store answer operation number `op` (counted from 0) of the call? */
  predicate Answers(o: Outage, op: nat) {
    o.Reachable? || op < o.after
  }

  /** The value of a field after a partial update: the supplied value if there
      is one, the current one otherwise (object spread / `updateDoc`). */
  function Override<T>(current: T, supplied: Option<T>): (r: T)
    ensures supplied.None? ==> r == current
    ensures supplied.Some? ==> r == supplied.value
  {
    match supplied
    case None => current
    case Some(v) => v
  }

  /** The value of an optional field after a partial update. */
  function Merge<T>(current: Option<T>, supplied: Option<T>): (r: Option<T>)
    ensures supplied.None? ==> r == current
    ensures supplied.Some? ==> r == supplied
  {
    if supplied.Some? then supplied else current
  }

  /** JavaScript truthiness of an optional string. */
  predicate Truthy(s: Option<string>) {
    s.Some? && s.value != ""
  }

  /** `s || fallback` for an optional string. */
  function OrElse(s: Option<string>, fallback: string): (r: string)
    ensures Truthy(s) ==> r == s.value
    ensures !Truthy(s) ==> r == fallback
  {
    if Truthy(s) then s.value else fallback
  }

  function Digit(d: nat): (c: char)
    requires d < 10
    ensures c as int == '0' as int + d
  {
    ('0' as int + d) as char
  }

  /** Decimal rendering of a natural number, as a template literal does it. */
  function NatToString(n: nat): (s: string)
    ensures |s| >= 1
    ensures |s| == 1 <==> n < 10
    ensures s[|s| - 1] == Digit(n % 10)
  {
    if n < 10 then [Digit(n)] else NatToString(n / 10) + [Digit(n % 10)]
  }

  lemma {:induction false} NatToStringInjective(a: nat, b: nat)
    requires NatToString(a) == NatToString(b)
    ensures a == b
  {
    var sa, sb := NatToString(a), NatToString(b);
    assert a % 10 == b % 10 by {
      assert Digit(a % 10) == sa[|sa| - 1] == sb[|sb| - 1] == Digit(b % 10);
    }
    if a >= 10 {
      assert b >= 10;
      assert NatToString(a / 10) == sa[..|sa| - 1] == sb[..|sb| - 1] == NatToString(b / 10);
      NatToStringInjective(a / 10, b / 10);
    }
  }

  /** Rendering of a (possibly negative) millisecond count, as `${Date.now()}`. */
  function IntToString(i: int): (s: string)
    ensures i >= 0 ==> s == NatToString(i)
    ensures i < 0 ==> s == "-" + NatToString(-i)
  {
    if i < 0 then "-" + NatToString(-i) else NatToString(i)
  }

  /** The id the store generates for the `n`-th document it creates
      (stands in for `addDoc` / `doc(collection)`). */
  function AutoId(n: nat): string {
    "auto-" + NatToString(n)
  }

  lemma AutoIdInjective(a: nat, b: nat)
    ensures AutoId(a) == AutoId(b) ==> a == b
  {
    if AutoId(a) == AutoId(b) {
      assert NatToString(a) == AutoId(a)[5..] == AutoId(b)[5..] == NatToString(b);
      NatToStringInjective(a, b);
    }
  }

  /** No id the store will still generate (from `next` on) is a key of `m`. */
  ghost predicate Fresh<T>(next: nat, m: map<string, T>) {
    forall n: nat {:trigger AutoId(n) in m} :: next <= n ==> AutoId(n) !in m
  }

  lemma FreshAfterInsert<T>(next: nat, m: map<string, T>, v: T)
    requires Fresh(next, m)
    ensures AutoId(next) !in m
    ensures Fresh(next + 1, m[AutoId(next) := v])
  {
    forall n: nat | next + 1 <= n
      ensures AutoId(n) !in m[AutoId(next) := v]
    {
      AutoIdInjective(n, next);
    }
  }

  /** Freshness survives dropping keys and skipping ids. */
  lemma FreshShrink<T, U>(next: nat, m: map<string, T>, next': nat, m': map<string, U>)
    requires Fresh(next, m) && next <= next' && m'.Keys <= m.Keys
    ensures Fresh(next', m')
  {
    forall n: nat | next' <= n
      ensures AutoId(n) !in m'
    {
      assert AutoId(n) !in m;
    }
  }
}
