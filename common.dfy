/** Entities and helpers shared by every page of the parking front end:
    the records the REST API returns, the shape of a response, and the few
    JavaScript value rules (falsy strings, `null` versus `undefined`,
    string order, upper-casing) that the page logic depends on. */
module Common {

  datatype Option<T> = None | Some(value: T)

  /** A JavaScript value that may be a string, `null` or `undefined`.
      Used where the source distinguishes the two empty values. */
  datatype JsValue = Undefined | Null | Str(s: string)

  /** `===` on two such values. */
  predicate StrictEq(a: JsValue, b: JsValue)
  {
    match (a, b)
    case (Undefined, Undefined) => true
    case (Null, Null) => true
    case (Str(x), Str(y)) => x == y
    case _ => false
  }

  /** JavaScript truthiness of such a value: `null`, `undefined` and "" are falsy. */
  predicate Truthy(v: JsValue)
  {
    v.Str? && v.s != ""
  }

  /** A JavaScript number as the pages produce it: an integer or NaN. */
  datatype JsNumber = Num(n: int) | NaN

  /** The outcome of one `fetch`: `response.ok` with the decoded JSON
      payload, or a rejection whose JSON body may carry a `message`. */
  datatype Reply<T> = Ok(data: T) | NotOk(message: Option<string>)

  /** A toast notification: its kind and its text. */
  datatype Toast = ErrorToast(text: string) | SuccessToast(text: string)

  /** A parking slot as `/slots/status` and `/admin/slots` return it.
      `occupiedById` is `slot.occupiedBy?._id` (None is `undefined`). */
  datatype Slot = Slot(id: string, slotNumber: string, isOccupied: bool, occupiedById: Option<string>)

  /** A booking as `/bookings/my-bookings` and `/admin/bookings` return it.
      `parkingSlotId` is `booking.parkingSlot?._id`; instants are integer
      milliseconds since the epoch. */
  datatype Booking = Booking(
    id: string,
    parkingSlotId: Option<string>,
    status: string,
    startTime: int,
    endTime: int,
    createdAt: int)

  /** A user record: the session object kept under the storage key "user",
      and the entries of `/admin/users`. None stands for a missing field. */
  datatype User = User(id: Option<string>, username: string, email: string, role: string, token: Option<string>)

  /** `currentUser?._id` */
  function CurrentUserId(u: Option<User>): Option<string>
  {
    if u.Some? then u.value.id else None
  }

  /** `!!currentUser?.token`: a session exists and its token is a non-empty string. */
  predicate HasToken(u: Option<User>)
  {
    u.Some? && u.value.token.Some? && u.value.token.value != ""
  }

  /** `data.message || fallback`: an absent or empty message gives the fallback. */
  function MessageOr(message: Option<string>, fallback: string): (r: string)
    ensures message.Some? && message.value != "" ==> r == message.value
    ensures (message.None? || message.value == "") ==> r == fallback
  {
    if message.Some? && message.value != "" then message.value else fallback
  }

  /** The text a template literal gives for a possibly missing id. */
  function IdText(id: Option<string>): string
  {
    if id.Some? then id.value else "undefined"
  }

  // ---------------------------------------------------------------------
  // Filtering, as `Array.prototype.filter` does it.

  /** `x` occurs in `y` in order, possibly with gaps. */
  predicate Embeds<T(==)>(x: seq<T>, y: seq<T>)
    decreases |y|
  {
    if x == [] then true
    else if y == [] then false
    else if x[0] == y[0] then Embeds(x[1..], y[1..])
    else Embeds(x, y[1..])
  }

  lemma EmbedsCons<T>(x: seq<T>, y: seq<T>, e: T)
    requires Embeds(x, y)
    ensures Embeds([e] + x, [e] + y) && Embeds(x, [e] + y)
  {
    assert ([e] + x)[1..] == x;
    assert ([e] + y)[1..] == y;
    EmbedsSkip(x, y, e);
  }

  lemma EmbedsSkip<T>(x: seq<T>, y: seq<T>, e: T)
    requires Embeds(x, y)
    ensures Embeds(x, [e] + y)
    decreases |y|, 1
  {
    assert ([e] + y)[1..] == y;
    if x != [] && x[0] == e {
      EmbedsTail(x, y);
    }
  }

  lemma EmbedsTail<T>(x: seq<T>, y: seq<T>)
    requires x != [] && Embeds(x, y)
    ensures Embeds(x[1..], y)
    decreases |y|, 0
  {
    assert [y[0]] + y[1..] == y;
    if x[0] == y[0] {
      EmbedsSkip(x[1..], y[1..], y[0]);
    } else {
      EmbedsTail(x, y[1..]);
      EmbedsSkip(x[1..], y[1..], y[0]);
    }
  }

  /** The elements of `s` that satisfy `p`, in the order of `s`. */
  function Filter<T(==,!new)>(s: seq<T>, p: T -> bool): (r: seq<T>)
    ensures |r| <= |s|
  {
    if s == [] then []
    else (if p(s[0]) then [s[0]] else []) + Filter(s[1..], p)
  }

  /** `filter` keeps each element that satisfies `p` as often as it occurs,
      and nothing else. */
  lemma {:induction false} FilterCount<T(!new)>(s: seq<T>, p: T -> bool)
    ensures forall x :: multiset(Filter(s, p))[x] == if p(x) then multiset(s)[x] else 0
  {
    if s != [] {
      FilterCount(s[1..], p);
      assert s == [s[0]] + s[1..];
      assert multiset(s) == multiset{s[0]} + multiset(s[1..]);
      var head := if p(s[0]) then [s[0]] else [];
      assert multiset(Filter(s, p)) == multiset(head) + multiset(Filter(s[1..], p));
    }
  }

  lemma FilterMembers<T(!new)>(s: seq<T>, p: T -> bool)
    ensures forall x :: x in Filter(s, p) <==> x in s && p(x)
  {
    FilterCount(s, p);
    forall x ensures x in Filter(s, p) <==> x in s && p(x) {
      assert x in Filter(s, p) <==> multiset(Filter(s, p))[x] > 0;
      assert x in s <==> multiset(s)[x] > 0;
    }
  }

  /** `filter` keeps the original order. */
  lemma {:induction false} FilterEmbeds<T(!new)>(s: seq<T>, p: T -> bool)
    ensures Embeds(Filter(s, p), s)
  {
    if s != [] {
      var rest := Filter(s[1..], p);
      FilterEmbeds(s[1..], p);
      assert s == [s[0]] + s[1..];
      if p(s[0]) {
        assert Filter(s, p) == [s[0]] + rest;
        EmbedsCons(rest, s[1..], s[0]);
      } else {
        assert Filter(s, p) == [] + rest == rest;
        EmbedsSkip(rest, s[1..], s[0]);
      }
    }
  }

  lemma {:induction false} FilterAppend<T(!new)>(s: seq<T>, x: T, p: T -> bool)
    ensures Filter(s + [x], p) == Filter(s, p) + (if p(x) then [x] else [])
  {
    var t := s + [x];
    if s == [] {
      assert t[1..] == [];
    } else {
      assert t[0] == s[0];
      assert t[1..] == s[1..] + [x];
      FilterAppend(s[1..], x, p);
      var head := if p(s[0]) then [s[0]] else [];
      calc {
        Filter(t, p);
        head + Filter(t[1..], p);
        head + (Filter(s[1..], p) + (if p(x) then [x] else []));
        (head + Filter(s[1..], p)) + (if p(x) then [x] else []);
        Filter(s, p) + (if p(x) then [x] else []);
      }
    }
  }

  /** Filtering with a predicate every element meets changes nothing. */
  lemma {:induction false} FilterAll<T(!new)>(s: seq<T>, p: T -> bool)
    requires forall i :: 0 <= i < |s| ==> p(s[i])
    ensures Filter(s, p) == s
  {
    if s != [] {
      FilterAll(s[1..], p);
    }
  }

  /** Filtering twice with the same predicate equals filtering once. */
  lemma FilterIdempotent<T(!new)>(s: seq<T>, p: T -> bool)
    ensures Filter(Filter(s, p), p) == Filter(s, p)
  {
    var r := Filter(s, p);
    FilterMembers(s, p);
    forall i | 0 <= i < |r| ensures p(r[i]) {
      assert r[i] in r;
    }
    FilterAll(r, p);
  }

  // ---------------------------------------------------------------------
  // JavaScript string rules.

  /** `a < b` on JavaScript strings: code-unit lexicographic order.
      (Dafny characters are compared by code point, which agrees with
      code units on the characters the model compares.) */
  predicate StrLess(a: string, b: string)
  {
    if |a| == 0 then |b| > 0
    else if |b| == 0 then false
    else if a[0] != b[0] then a[0] < b[0]
    else StrLess(a[1..], b[1..])
  }

  lemma StrLessIrreflexive(a: string)
    ensures !StrLess(a, a)
  {
  }

  lemma StrLessAsymmetric(a: string, b: string)
    requires StrLess(a, b)
    ensures !StrLess(b, a)
  {
  }

  lemma StrLessTotal(a: string, b: string)
    requires a != b
    ensures StrLess(a, b) || StrLess(b, a)
  {
    if |a| > 0 && |b| > 0 && a[0] == b[0] {
      assert a == [a[0]] + a[1..] && b == [b[0]] + b[1..];
      StrLessTotal(a[1..], b[1..]);
    }
  }

  /** Exactly one of `a == b`, `a < b` and `b < a` holds. */
  lemma StrLessTrichotomy(a: string, b: string)
    ensures a == b || StrLess(a, b) || StrLess(b, a)
    ensures !(StrLess(a, b) && StrLess(b, a))
    ensures a == b ==> !StrLess(a, b)
  {
    StrLessIrreflexive(a);
    if a != b {
      StrLessTotal(a, b);
    }
    if StrLess(a, b) {
      StrLessAsymmetric(a, b);
    }
  }

  lemma StrLessTransitive(a: string, b: string, c: string)
    requires StrLess(a, b) && StrLess(b, c)
    ensures StrLess(a, c)
  {
    if |a| > 0 && |b| > 0 && |c| > 0 && a[0] == b[0] == c[0] {
      StrLessTransitive(a[1..], b[1..], c[1..]);
    }
  }

  /** The ASCII part of `String.prototype.toUpperCase`. */
  function UpperChar(c: char): char
  {
    if 'a' <= c <= 'z' then (c as int - 'a' as int + 'A' as int) as char else c
  }

  function ToUpper(s: string): (r: string)
    ensures |r| == |s|
    ensures forall i :: 0 <= i < |s| ==> r[i] == UpperChar(s[i])
  {
    seq(|s|, i requires 0 <= i < |s| => UpperChar(s[i]))
  }

  predicate IsDigit(c: char)
  {
    '0' <= c <= '9'
  }

  /** The decimal value of a string of digits. */
  function DigitsValue(s: string): (n: nat)
    requires forall i :: 0 <= i < |s| ==> IsDigit(s[i])
  {
    if s == [] then 0
    else
      assert IsDigit(s[|s| - 1]);
      10 * DigitsValue(s[..|s| - 1]) + (s[|s| - 1] as int - '0' as int)
  }

  /** The decimal text of a natural number, as `${n}` prints it. */
  function NatToString(n: nat): (s: string)
    ensures |s| > 0
    ensures forall i :: 0 <= i < |s| ==> IsDigit(s[i])
    ensures DigitsValue(s) == n
    decreases n
  {
    var d := ['0' + ((n % 10) as char)];
    if n < 10 then d
    else
      var s := NatToString(n / 10) + d;
      assert s[..|s| - 1] == NatToString(n / 10);
      s
  }
}
