/** The slot grid of the home page (src/app/page.js): the natural order of
    slot numbers, the occupancy counters, what a click on a slot opens,
    the booking request and the cancel-from-slot lookup. */
module HomePage {

  import opened Common
  import opened Sorting

  // ---------------------------------------------------------------------
  // The slot-number order: `slotNumber.match(/[A-Z]+|\d+/g) || ["", "0"]`,
  // the first match compared as a string, then `parseInt` of the second
  // match subtracted.

  predicate IsUpper(c: char)
  {
    'A' <= c <= 'Z'
  }

  /** The character class of one alternative of the pattern. */
  predicate InClass(c: char, digits: bool)
  {
    if digits then IsDigit(c) else IsUpper(c)
  }

  /** Length of the longest prefix of `s` inside the class. */
  function RunLength(s: string, digits: bool): (n: nat)
    ensures n <= |s|
    ensures forall i :: 0 <= i < n ==> InClass(s[i], digits)
    ensures n < |s| ==> !InClass(s[n], digits)
    ensures (forall i :: 0 <= i < |s| ==> InClass(s[i], digits)) ==> n == |s|
  {
    if s == [] || !InClass(s[0], digits) then 0 else 1 + RunLength(s[1..], digits)
  }

  /** Where the first match starts: the position of the first upper-case
      letter or digit, or `|s|` when there is none. */
  function MatchStart(s: string): (p: nat)
    ensures p <= |s|
    ensures forall i :: 0 <= i < p ==> !IsUpper(s[i]) && !IsDigit(s[i])
    ensures p < |s| ==> IsUpper(s[p]) || IsDigit(s[p])
  {
    if s == [] || IsUpper(s[0]) || IsDigit(s[0]) then 0 else 1 + MatchStart(s[1..])
  }

  predicate Homogeneous(t: string)
  {
    (forall i :: 0 <= i < |t| ==> IsUpper(t[i])) || (forall i :: 0 <= i < |t| ==> IsDigit(t[i]))
  }

  /** The matches of the global pattern, left to right: maximal runs of
      upper-case letters and maximal runs of digits; other characters are
      skipped. */
  function Tokens(s: string): (r: seq<string>)
    ensures forall k :: 0 <= k < |r| ==> |r[k]| > 0 && Homogeneous(r[k])
    decreases |s|
  {
    if s == [] then []
    else if IsUpper(s[0]) then
      var n := RunLength(s, false);
      [s[..n]] + Tokens(s[n..])
    else if IsDigit(s[0]) then
      var n := RunLength(s, true);
      [s[..n]] + Tokens(s[n..])
    else Tokens(s[1..])
  }

  /** A character outside both classes is skipped. */
  lemma SkipOne(s: string)
    requires s != [] && !IsUpper(s[0]) && !IsDigit(s[0])
    ensures Tokens(s) == Tokens(s[1..])
    ensures MatchStart(s) == 1 + MatchStart(s[1..])
  {
  }

  /** The maximal run of the class of `s[p]` that starts at `p`. */
  function RunAt(s: string, p: nat): string
    requires p < |s|
  {
    s[p..p + RunLength(s[p..], IsDigit(s[p]))]
  }

  /** A match starting at the first character is its maximal run. */
  lemma MatchHere(s: string)
    requires s != [] && (IsUpper(s[0]) || IsDigit(s[0]))
    ensures MatchStart(s) == 0
    ensures Tokens(s) != [] && Tokens(s)[0] == RunAt(s, 0)
  {
    assert s[0..] == s;
  }

  /** There is no match exactly when the slot number holds no upper-case
      letter and no digit. */
  lemma {:induction false} NoMatch(s: string)
    ensures Tokens(s) == [] <==> MatchStart(s) == |s|
    decreases |s|
  {
    if s == [] {
    } else if IsUpper(s[0]) || IsDigit(s[0]) {
      MatchHere(s);
    } else {
      SkipOne(s);
      NoMatch(s[1..]);
    }
  }

  /** Otherwise the first match is the maximal run that starts at the first
      upper-case letter or digit. */
  lemma {:induction false} FirstMatch(s: string)
    requires MatchStart(s) < |s|
    ensures Tokens(s) != [] && Tokens(s)[0] == RunAt(s, MatchStart(s))
    decreases |s|
  {
    if IsUpper(s[0]) || IsDigit(s[0]) {
      MatchHere(s);
    } else {
      SkipOne(s);
      FirstMatch(s[1..]);
      ShiftRun(s, MatchStart(s[1..]));
    }
  }

  /** The text right behind the run that starts at `p`. */
  function RestAfter(s: string, p: nat): string
    requires p < |s|
  {
    s[p + |RunAt(s, p)|..]
  }

  /** A match at the first character is followed by the scan of the rest. */
  lemma MatchHereThenRest(s: string)
    requires s != [] && (IsUpper(s[0]) || IsDigit(s[0]))
    ensures Tokens(s) == [RunAt(s, 0)] + Tokens(RestAfter(s, 0))
  {
    assert s[0..] == s;
  }

  /** The rest behind a run inside `s[1..]` seen from `s`. */
  lemma ShiftRest(s: string, q: nat)
    requires q + 1 < |s|
    ensures RestAfter(s[1..], q) == RestAfter(s, q + 1)
  {
    ShiftRun(s, q);
  }

  /** After the first match the scan goes on right behind it: the matches
      are the first one followed by the matches of the rest. */
  lemma {:induction false} MatchesAfterFirst(s: string)
    requires MatchStart(s) < |s|
    ensures Tokens(s) == [RunAt(s, MatchStart(s))] + Tokens(RestAfter(s, MatchStart(s)))
    decreases |s|
  {
    if IsUpper(s[0]) || IsDigit(s[0]) {
      MatchHereThenRest(s);
    } else {
      SkipOne(s);
      MatchesAfterFirst(s[1..]);
      ShiftRun(s, MatchStart(s[1..]));
      ShiftRest(s, MatchStart(s[1..]));
    }
  }

  /** A separator between the letters and the digits is skipped: "A-12"
      has the matches "A" and "12", so its key is ("A", 12). */
  lemma SeparatedKey()
    ensures Tokens("A-12") == ["A", "12"]
    ensures KeyOf("A-12") == SlotKey("A", Num(12))
  {
    var s := "A-12";
    MatchHereThenRest(s);
    assert RunLength(s[0..], false) == 1;
    assert RunAt(s, 0) == "A";
    var t := s[1..];
    assert Tokens(s) == ["A"] + Tokens(t);
    assert t == "-12";
    SkipOne(t);
    var d := t[1..];
    assert d == "12";
    RunAll(d, [], true);
    assert d + [] == d;
    assert d[..2] == d && d[2..] == [];
    assert Tokens(d) == [d] + Tokens([]);
    assert Tokens(t) == ["12"];
    assert ParseInt(d) == Num(DigitsValue(d));
    assert d[..1] == "1" && "1"[..0] == [];
    assert DigitsValue(d) == 12;
  }

  /** A run inside `s[1..]` seen from `s`. */
  lemma ShiftRun(s: string, q: nat)
    requires q + 1 < |s|
    ensures RunAt(s[1..], q) == RunAt(s, q + 1)
  {
    assert s[1..][q..] == s[q + 1..];
  }

  /** `parseInt` of a string that carries no sign or leading blanks: the
      value of its leading digits, or NaN when it does not start with one. */
  function ParseInt(t: string): (r: JsNumber)
    ensures (|t| > 0 && IsDigit(t[0])) <==> r.Num?
    ensures r.Num? ==> r.n >= 0
    ensures |t| > 0 && (forall i :: 0 <= i < |t| ==> IsDigit(t[i])) ==> r == Num(DigitsValue(t))
  {
    if |t| > 0 && IsDigit(t[0]) then
      var n := RunLength(t, true);
      assert n == |t| ==> t[..n] == t;
      Num(DigitsValue(t[..n]))
    else NaN
  }

  /** The two parts of a slot number the comparator looks at. */
  datatype SlotKey = SlotKey(letter: string, num: JsNumber)

  function KeyOf(slotNumber: string): SlotKey
  {
    var m := Tokens(slotNumber);
    if m == [] then SlotKey("", ParseInt("0"))
    // `parseInt(undefined)` is NaN when there is no second match
    else SlotKey(m[0], if |m| >= 2 then ParseInt(m[1]) else NaN)
  }

  /** The key holds the first match as its "letter" part (a digit run when
      the slot number starts with digits) and `parseInt` of the second
      match as its number, NaN when there is none; without any match it is
      the fallback ("", 0). */
  lemma KeyOfSpec(slotNumber: string)
    ensures Tokens(slotNumber) == [] ==> KeyOf(slotNumber) == SlotKey("", Num(0))
    ensures Tokens(slotNumber) != [] ==> KeyOf(slotNumber).letter == Tokens(slotNumber)[0]
    ensures |Tokens(slotNumber)| == 1 ==> KeyOf(slotNumber).num.NaN?
    ensures |Tokens(slotNumber)| >= 2 ==> KeyOf(slotNumber).num == ParseInt(Tokens(slotNumber)[1])
    ensures KeyOf(slotNumber).num.Num? ==> KeyOf(slotNumber).num.n >= 0
    ensures Homogeneous(KeyOf(slotNumber).letter)
  {
    assert ParseInt("0") == Num(DigitsValue("0"));
  }

  function Subtract(a: JsNumber, b: JsNumber): JsNumber
  {
    if a.Num? && b.Num? then Num(a.n - b.n) else NaN
  }

  /** The comparator of src/app/page.js:56-62, returning a JavaScript number. */
  function Compare(a: string, b: string): JsNumber
  {
    CompareKeys(KeyOf(a), KeyOf(b))
  }

  /** The comparator once both keys are computed. */
  function CompareKeys(ka: SlotKey, kb: SlotKey): JsNumber
  {
    if StrLess(ka.letter, kb.letter) then Num(-1)
    else if StrLess(kb.letter, ka.letter) then Num(1)
    else Subtract(ka.num, kb.num)
  }

  /** Different letter runs order the two slot numbers by JavaScript
      string order, giving -1 or 1; equal letter runs give the difference
      of the numbers, NaN exactly when one of them is NaN. */
  lemma CompareSpec(a: string, b: string)
    ensures KeyOf(a).letter != KeyOf(b).letter ==>
      (Compare(a, b) == Num(-1) <==> StrLess(KeyOf(a).letter, KeyOf(b).letter))
      && (Compare(a, b) == Num(1) <==> StrLess(KeyOf(b).letter, KeyOf(a).letter))
      && (Compare(a, b) == Num(-1) || Compare(a, b) == Num(1))
    ensures KeyOf(a).letter == KeyOf(b).letter ==>
      (Compare(a, b).NaN? <==> KeyOf(a).num.NaN? || KeyOf(b).num.NaN?)
      && (Compare(a, b).Num? ==> Compare(a, b).n == KeyOf(a).num.n - KeyOf(b).num.n)
  {
    StrLessTrichotomy(KeyOf(a).letter, KeyOf(b).letter);
  }

  /** What the sort makes of a comparator result: NaN counts as 0. */
  function SortValue(n: JsNumber): int
  {
    if n.Num? then n.n else 0
  }

  function SlotOrder(x: Slot, y: Slot): int
  {
    SortValue(Compare(x.slotNumber, y.slotNumber))
  }

  function LetterRun(s: Slot): string
  {
    KeyOf(s.slotNumber).letter
  }

  /** The slot order is one the sort can use: swapping the arguments
      flips the sign. */
  lemma SlotOrderAntisymmetric()
    ensures SignAntisymmetric(SlotOrder)
  {
    forall x: Slot, y: Slot ensures SlotOrder(x, y) > 0 <==> SlotOrder(y, x) < 0 {
      var la, lb := LetterRun(x), LetterRun(y);
      if StrLess(la, lb) {
        StrLessAsymmetric(la, lb);
      } else if StrLess(lb, la) {
        StrLessAsymmetric(lb, la);
      } else if la != lb {
        StrLessTotal(la, lb);
      }
    }
  }

  /** A smaller letter run sorts first whatever the numbers: "A9" before "B1". */
  lemma PrefixBeatsNumber()
    ensures Compare("A9", "B1") == Num(-1)
    ensures Compare("B1", "A9") == Num(1)
  {
    TokensOfLetterDigit("A", "9");
    TokensOfLetterDigit("B", "1");
  }

  /** Equal letter runs compare by the value of the digits: "A2" before "A10". */
  lemma NumberByValue()
    ensures Compare("A2", "A10") == Num(-8)
  {
    TokensOfLetterDigit("A", "2");
    TokensOfLetterDigit("A", "10");
  }

  lemma TokensOfLetterDigit(l: string, d: string)
    requires |l| > 0 && forall i :: 0 <= i < |l| ==> IsUpper(l[i])
    requires |d| > 0 && forall i :: 0 <= i < |d| ==> IsDigit(d[i])
    ensures Tokens(l + d) == [l, d]
    ensures KeyOf(l + d) == SlotKey(l, Num(DigitsValue(d)))
  {
    var s := l + d;
    RunAll(l, d, false);
    assert s[..|l|] == l && s[|l|..] == d;
    RunAll(d, [], true);
    assert d + [] == d;
    assert d[..|d|] == d && d[|d|..] == [];
    assert Tokens(d) == [d] + Tokens([]);
    assert ParseInt(d) == Num(DigitsValue(d));
  }

  /** A run that fills `t` stops where `t` ends, when the next character is
      outside the class. */
  lemma {:induction false} RunAll(t: string, rest: string, digits: bool)
    requires forall i :: 0 <= i < |t| ==> InClass(t[i], digits)
    requires rest == [] || !InClass(rest[0], digits)
    ensures RunLength(t + rest, digits) == |t|
  {
    if t != [] {
      assert (t + rest)[1..] == t[1..] + rest;
      RunAll(t[1..], rest, digits);
    }
  }

  /** A slot number without upper-case letters or digits gets the fallback
      key `("", "0")`, that is, letter "" and number 0. */
  lemma {:induction false} FallbackKey(s: string)
    requires forall i :: 0 <= i < |s| ==> !IsUpper(s[i]) && !IsDigit(s[i])
    ensures KeyOf(s) == SlotKey("", Num(0))
  {
    NoTokens(s);
    assert ParseInt("0") == Num(DigitsValue("0"));
  }

  lemma {:induction false} NoTokens(s: string)
    requires forall i :: 0 <= i < |s| ==> !IsUpper(s[i]) && !IsDigit(s[i])
    ensures Tokens(s) == []
    decreases |s|
  {
    if s != [] {
      NoTokens(s[1..]);
    }
  }

  /** A slot number with letters only has no number: it compares equal to
      every slot number with the same letters, so the order among "A",
      "A1" and "A2" is not a preorder and is left to the engine's sort. */
  lemma LetterOnlyComparesEqual()
    ensures Compare("A", "A1") == NaN
    ensures SlotOrder(Slot("x", "A", false, None), Slot("y", "A1", false, None)) == 0
  {
    RunAll("A", [], false);
    assert "A" + [] == "A";
    assert "A"[..1] == "A" && "A"[1..] == [];
    assert Tokens("A") == ["A"] + Tokens([]);
    TokensOfLetterDigit("A", "1");
  }

  // The sorted-list lemmas below reason on the keys of the slots, computed
  // once, so that the proofs never unfold the slot-number matcher.

  function KeyOrder(x: SlotKey, y: SlotKey): int
  {
    SortValue(CompareKeys(x, y))
  }

  /** The key of every slot of the list. */
  function KeysOf(s: seq<Slot>): (ks: seq<SlotKey>)
    ensures |ks| == |s|
    ensures forall k :: 0 <= k < |s| ==> ks[k] == KeyOf(s[k].slotNumber)
  {
    seq(|s|, k requires 0 <= k < |s| => KeyOf(s[k].slotNumber))
  }

  /** A list in slot order has its keys in key order. */
  lemma SortedKeys(s: seq<Slot>)
    requires AdjacentSorted(s, SlotOrder)
    ensures AdjacentSorted(KeysOf(s), KeyOrder)
  {
    var ks := KeysOf(s);
    forall k | 0 <= k < |ks| - 1 ensures KeyOrder(ks[k], ks[k + 1]) <= 0 {
      assert SlotOrder(s[k], s[k + 1]) <= 0;
    }
  }

  /** In a list the slot sort has put in order, letter runs never decrease
      (JavaScript string order), whatever the numbers are. */
  lemma {:induction false} SortedLetterRuns(s: seq<Slot>)
    requires AdjacentSorted(s, SlotOrder)
    ensures forall i, j :: 0 <= i < j < |s| ==> !StrLess(LetterRun(s[j]), LetterRun(s[i]))
  {
    SortedKeys(s);
    var ks := KeysOf(s);
    forall i, j | 0 <= i < j < |s| ensures !StrLess(LetterRun(s[j]), LetterRun(s[i])) {
      KeyLettersChain(ks, i, j);
    }
  }

  /** Two neighbours in key order have non-decreasing letter runs. */
  lemma NeighbourLetters(x: SlotKey, y: SlotKey)
    requires KeyOrder(x, y) <= 0
    ensures !StrLess(y.letter, x.letter)
  {
    if StrLess(y.letter, x.letter) {
      StrLessAsymmetric(y.letter, x.letter);
    }
  }

  lemma {:induction false} KeyLettersChain(ks: seq<SlotKey>, i: int, j: int)
    requires AdjacentSorted(ks, KeyOrder)
    requires 0 <= i < j < |ks|
    ensures !StrLess(ks[j].letter, ks[i].letter)
    decreases j - i
  {
    assert KeyOrder(ks[j - 1], ks[j]) <= 0;
    NeighbourLetters(ks[j - 1], ks[j]);
    if j - 1 > i {
      KeyLettersChain(ks, i, j - 1);
      var a, b, c := ks[i].letter, ks[j - 1].letter, ks[j].letter;
      // a <= b and b <= c, hence not c < a
      if StrLess(c, a) {
        if a == b {
        } else if b == c {
        } else {
          StrLessTotal(a, b);
          StrLessTotal(b, c);
          StrLessTransitive(a, b, c);
          StrLessAsymmetric(a, c);
        }
      }
    }
  }

  predicate HasNumber(s: Slot)
  {
    KeyOf(s.slotNumber).num.Num?
  }

  /** The number of a slot as the comparator subtracts it (0 for NaN). */
  function NumberOf(s: Slot): int
  {
    SortValue(KeyOf(s.slotNumber).num)
  }

  /** Every slot of the list whose letter run is `l` carries a number. */
  predicate RunHasNumbers(s: seq<Slot>, l: string)
  {
    forall k {:trigger HasNumber(s[k])} :: 0 <= k < |s| && LetterRun(s[k]) == l ==> HasNumber(s[k])
  }

  predicate KeyRunHasNumbers(ks: seq<SlotKey>, l: string)
  {
    forall k :: 0 <= k < |ks| && ks[k].letter == l ==> ks[k].num.Num?
  }

  lemma RunKeysHaveNumbers(s: seq<Slot>, l: string)
    requires RunHasNumbers(s, l)
    ensures KeyRunHasNumbers(KeysOf(s), l)
  {
    forall k | 0 <= k < |s| && KeysOf(s)[k].letter == l ensures KeysOf(s)[k].num.Num? {
      assert HasNumber(s[k]);
    }
  }

  /** In a sorted list, the slots of a letter run whose slot numbers all
      carry a number appear in increasing numeric order, whatever the other
      runs hold (letters-only slot numbers included). */
  lemma {:induction false} SortedNumbers(s: seq<Slot>)
    requires AdjacentSorted(s, SlotOrder)
    ensures forall i, j :: 0 <= i < j < |s| && LetterRun(s[i]) == LetterRun(s[j]) && RunHasNumbers(s, LetterRun(s[i])) ==>
      NumberOf(s[i]) <= NumberOf(s[j])
  {
    SortedKeys(s);
    var ks := KeysOf(s);
    forall i, j | 0 <= i < j < |s| && LetterRun(s[i]) == LetterRun(s[j]) && RunHasNumbers(s, LetterRun(s[i]))
      ensures NumberOf(s[i]) <= NumberOf(s[j])
    {
      RunKeysHaveNumbers(s, LetterRun(s[i]));
      KeyNumbersChain(ks, i, j);
    }
  }

  lemma {:induction false} KeyNumbersChain(ks: seq<SlotKey>, i: int, j: int)
    requires AdjacentSorted(ks, KeyOrder)
    requires 0 <= i < j < |ks| && ks[i].letter == ks[j].letter
    requires KeyRunHasNumbers(ks, ks[i].letter)
    ensures SortValue(ks[i].num) <= SortValue(ks[j].num)
    decreases j - i
  {
    if j - 1 > i {
      BetweenSameRun(ks, i, j - 1, j);
      KeyNumbersChain(ks, i, j - 1);
    }
    assert KeyOrder(ks[j - 1], ks[j]) <= 0;
    NeighbourNumbers(ks[j - 1], ks[j]);
  }

  /** A key between two keys of one letter run has that run too. */
  lemma BetweenSameRun(ks: seq<SlotKey>, i: int, m: int, j: int)
    requires AdjacentSorted(ks, KeyOrder)
    requires 0 <= i < m < j < |ks| && ks[i].letter == ks[j].letter
    ensures ks[m].letter == ks[i].letter
  {
    KeyLettersChain(ks, i, m);
    KeyLettersChain(ks, m, j);
    StrLessTrichotomy(ks[i].letter, ks[m].letter);
  }

  /** Two neighbours in key order with the same letter run and numbers
      have non-decreasing numbers. */
  lemma NeighbourNumbers(x: SlotKey, y: SlotKey)
    requires KeyOrder(x, y) <= 0 && x.letter == y.letter
    requires x.num.Num? && y.num.Num?
    ensures x.num.n <= y.num.n
  {
    StrLessIrreflexive(x.letter);
  }

  /** `data.sort(...)` on the fetched slot list. */
  method SortSlots(a: array<Slot>)
    modifies a
    ensures multiset(a[..]) == old(multiset(a[..]))
    ensures AdjacentSorted(a[..], SlotOrder)
  {
    SlotOrderAntisymmetric();
    SortInPlace(a, SlotOrder);
  }

  /** The fetched list, copied into an array and sorted there. */
  method SortedSlots(data: seq<Slot>) returns (r: seq<Slot>)
    ensures multiset(r) == multiset(data)
    ensures AdjacentSorted(r, SlotOrder)
  {
    var a := new Slot[|data|](i requires 0 <= i < |data| => data[i]);
    assert a[..] == data;
    SortSlots(a);
    r := a[..];
  }

  // ---------------------------------------------------------------------
  // Occupancy counters (src/app/page.js:82-87).

  datatype SlotStats = SlotStats(available: int, occupied: nat, total: nat)

  predicate IsOccupied(s: Slot)
  {
    s.isOccupied
  }

  /** The positions of the occupied slots. */
  function OccupiedPositions(slots: seq<Slot>): set<int>
  {
    set k | 0 <= k < |slots| && slots[k].isOccupied
  }

  function Stats(slots: seq<Slot>): (r: SlotStats)
    ensures r.total == |slots|
    ensures r.occupied == |OccupiedPositions(slots)|
    ensures 0 <= r.available && r.available + r.occupied == r.total
  {
    OccupiedIndices(slots);
    var occupied := |Filter(slots, IsOccupied)|;
    SlotStats(|slots| - occupied, occupied, |slots|)
  }

  /** `filter(s => s.isOccupied).length` counts the occupied positions. */
  lemma {:induction false} OccupiedIndices(slots: seq<Slot>)
    ensures |Filter(slots, IsOccupied)| == |OccupiedPositions(slots)|
  {
    if slots != [] {
      var n := |slots|;
      var init := slots[..n - 1];
      assert slots == init + [slots[n - 1]];
      FilterAppend(init, slots[n - 1], IsOccupied);
      OccupiedIndices(init);
      var before := OccupiedPositions(init);
      assert n - 1 !in before;
      if slots[n - 1].isOccupied {
        assert OccupiedPositions(slots) == before + {n - 1};
      } else {
        assert OccupiedPositions(slots) == before;
      }
    }
  }

  /** Once a free slot becomes occupied, one fewer slot is available. */
  lemma OccupyingLowersAvailable(slots: seq<Slot>, k: int)
    requires 0 <= k < |slots| && !slots[k].isOccupied
    ensures Stats(slots[k := slots[k].(isOccupied := true)]).available == Stats(slots).available - 1
    ensures Stats(slots[k := slots[k].(isOccupied := true)]).total == Stats(slots).total
  {
    var after := slots[k := slots[k].(isOccupied := true)];
    assert OccupiedPositions(after) == OccupiedPositions(slots) + {k};
  }

  // ---------------------------------------------------------------------
  // Clicking a slot (src/app/page.js:96-116, 329-336).

  /** `slot.isOccupied && slot.occupiedBy?._id === currentUser?._id`; two
      missing ids are equal, so with no session an occupied slot whose
      occupant has no id counts as "mine". */
  predicate IsMySlot(slot: Slot, currentUser: Option<User>)
    ensures IsMySlot(slot, currentUser) ==> slot.isOccupied
    ensures currentUser.None? ==>
      (IsMySlot(slot, currentUser) <==> slot.isOccupied && slot.occupiedById.None?)
    ensures currentUser.Some? && currentUser.value.id.Some? ==>
      (IsMySlot(slot, currentUser) <==> slot.isOccupied && slot.occupiedById == currentUser.value.id)
  {
    slot.isOccupied && slot.occupiedById == CurrentUserId(currentUser)
  }

  /** The grid button is disabled for an occupied slot that is not mine. */
  predicate ButtonDisabled(slot: Slot, currentUser: Option<User>)
  {
    slot.isOccupied && !IsMySlot(slot, currentUser)
  }

  datatype ClickAction = OpenCancel | Ignore | OpenLogin | OpenBooking

  /** What a click on the grid button opens: the cancel dialog for my
      slot, nothing for someone else's, and for a free slot the login
      dialog or the booking dialog depending on the session. */
  function ClickActionFor(slot: Slot, currentUser: Option<User>, isLoggedIn: bool): (r: ClickAction)
    ensures r == OpenCancel <==> IsMySlot(slot, currentUser)
    ensures r == Ignore <==> ButtonDisabled(slot, currentUser)
    ensures r == OpenLogin <==> !slot.isOccupied && !isLoggedIn
    ensures r == OpenBooking <==> !slot.isOccupied && isLoggedIn
  {
    if IsMySlot(slot, currentUser) then OpenCancel
    else if slot.isOccupied then Ignore
    else if !isLoggedIn then OpenLogin
    else OpenBooking
  }

  /** A click does nothing exactly on the slots whose button is disabled,
      and only a free slot can lead to the login or booking dialog. */
  lemma ClickIgnoredIffDisabled(slot: Slot, currentUser: Option<User>, isLoggedIn: bool)
    ensures ClickActionFor(slot, currentUser, isLoggedIn) == Ignore <==> ButtonDisabled(slot, currentUser)
    ensures ClickActionFor(slot, currentUser, isLoggedIn) in {OpenLogin, OpenBooking} <==> !slot.isOccupied
  {
  }

  /** The missing-id quirk: with no session and an occupant without id,
      an occupied slot opens the cancel dialog. */
  lemma AnonymousOwnsUnattributedSlot(slot: Slot)
    requires slot.isOccupied && slot.occupiedById.None?
    ensures ClickActionFor(slot, None, false) == OpenCancel
  {
  }

  // ---------------------------------------------------------------------
  // Booking and cancelling from the grid.

  const HourMs := 60 * 60 * 1000

  /** `POST /bookings` with its bearer token and body. */
  datatype BookingRequest = BookingRequest(token: string, parkingSlotId: string, startTime: int, endTime: int)

  /** What the success dialog shows of the booking the server created. */
  datatype BookingDetails = BookingDetails(qrCode: string, slotNumber: string, startTime: int, endTime: int)

  /** The request window of `handleBookSlot`: it starts at `now` and lasts
      `hours` whole hours. */
  function BookingRequestFor(token: string, slot: Slot, hours: int, now: int): (r: BookingRequest)
    ensures r.endTime - r.startTime == hours * 3600000
    ensures r.startTime == now && r.parkingSlotId == slot.id && r.token == token
  {
    BookingRequest(token, slot.id, now, now + hours * HourMs)
  }

  /** A booking that `handleCancelBookingFromSlot` may cancel for `slotId`:
      status exactly "booked", lower case. */
  predicate ActiveFor(b: Booking, slotId: string)
    ensures ActiveFor(b, slotId) ==> b.parkingSlotId == Some(slotId)
    ensures b.status == "BOOKED" || b.status == "cancelled" ==> !ActiveFor(b, slotId)
  {
    b.parkingSlotId == Some(slotId) && b.status == "booked"
  }

  /** No booking before position `k` is active for the slot. */
  predicate FirstActive(bookings: seq<Booking>, slotId: string, k: int)
    requires 0 <= k <= |bookings|
  {
    forall m :: 0 <= m < k ==> !ActiveFor(bookings[m], slotId)
  }

  /** `userBookings.find(...)`: the first active booking for the slot. */
  function FindActiveBooking(bookings: seq<Booking>, slotId: string): (r: Option<Booking>)
    ensures r.None? <==> forall k :: 0 <= k < |bookings| ==> !ActiveFor(bookings[k], slotId)
    ensures r.Some? ==>
      exists k :: 0 <= k < |bookings| && bookings[k] == r.value && ActiveFor(r.value, slotId) && FirstActive(bookings, slotId, k)
  {
    if bookings == [] then None
    else if ActiveFor(bookings[0], slotId) then Some(bookings[0])
    else
      var r := FindActiveBooking(bookings[1..], slotId);
      if r.Some? then
        ghost var k :| 0 <= k < |bookings[1..]| && bookings[1..][k] == r.value && ActiveFor(r.value, slotId)
          && FirstActive(bookings[1..], slotId, k);
        assert bookings[k + 1] == r.value;
        assert FirstActive(bookings, slotId, k + 1) by {
          forall m | 0 <= m < k + 1 ensures !ActiveFor(bookings[m], slotId) {
            if m > 0 { assert bookings[m] == bookings[1..][m - 1]; }
          }
        }
        r
      else
        assert forall k :: 0 <= k < |bookings| ==> !ActiveFor(bookings[k], slotId) by {
          forall k | 0 <= k < |bookings| ensures !ActiveFor(bookings[k], slotId) {
            if k > 0 { assert bookings[k] == bookings[1..][k - 1]; }
          }
        }
        r
  }

  const NoActiveBookingMessage := "Could not find an active booking for this slot."
  const CancelledAlert := "Booking cancelled successfully!"

  /** The state of the home page component. */
  class Home {
    var slots: seq<Slot>
    var loading: bool
    var apiError: Option<string>
    var currentUser: Option<User>
    var isLoggedIn: bool
    var isLoginModalOpen: bool
    var isBookingModalOpen: bool
    var isSuccessModalOpen: bool
    var isCancelModalOpen: bool
    var selectedSlot: Option<Slot>
    var slotToCancel: Option<Slot>
    var bookingDetails: Option<BookingDetails>
    var isSubmitting: bool
    var bookingError: Option<string>
    var bookingHours: int

    /** The grid is in slot order and the duration is within the slider's range. */
    ghost predicate Valid()
      reads this
    {
      AdjacentSorted(slots, SlotOrder) && 1 <= bookingHours <= 6
    }

    constructor ()
      ensures Valid()
      ensures slots == [] && loading && apiError.None? && currentUser.None? && !isLoggedIn
      ensures !isLoginModalOpen && !isBookingModalOpen && !isSuccessModalOpen && !isCancelModalOpen
      ensures selectedSlot.None? && slotToCancel.None? && bookingDetails.None?
      ensures !isSubmitting && bookingError.None? && bookingHours == 1
    {
      slots, loading, apiError := [], true, None;
      currentUser, isLoggedIn := None, false;
      isLoginModalOpen, isBookingModalOpen, isSuccessModalOpen, isCancelModalOpen := false, false, false, false;
      selectedSlot, slotToCancel, bookingDetails := None, None, None;
      isSubmitting, bookingError, bookingHours := false, None, 1;
    }

    /** The mount effect: a stored "user" record logs the page in. */
    method RestoreSession(storage: map<string, User>)
      modifies this`currentUser, this`isLoggedIn
      ensures "user" in storage ==> currentUser == Some(storage["user"]) && isLoggedIn
      ensures "user" !in storage ==> currentUser == old(currentUser) && isLoggedIn == old(isLoggedIn)
    {
      if "user" in storage {
        currentUser := Some(storage["user"]);
        isLoggedIn := true;
      }
    }

    /** `handleLogout`: the stored "user" record is removed, the page is
        logged out and the router goes to "/auth". */
    method Logout(storage: map<string, User>) returns (rest: map<string, User>, redirect: string)
      modifies this`currentUser, this`isLoggedIn
      ensures "user" !in rest && forall k :: k in storage && k != "user" ==> k in rest && rest[k] == storage[k]
      ensures forall k :: k in rest ==> k in storage
      ensures currentUser.None? && !isLoggedIn && redirect == "/auth"
    {
      rest := storage - {"user"};
      currentUser, isLoggedIn, redirect := None, false, "/auth";
    }

    /** `fetchSlots`: on success the grid is the fetched list in slot order. */
    method FetchSlots(reply: Reply<seq<Slot>>)
      requires Valid()
      modifies this`slots, this`loading, this`apiError
      ensures Valid() && !loading
      ensures reply.Ok? ==> multiset(slots) == multiset(reply.data) && apiError.None?
      ensures reply.NotOk? ==> slots == old(slots) && apiError == Some("Failed to fetch parking slot status.")
    {
      if reply.Ok? {
        var sorted := SortedSlots(reply.data);
        slots, apiError, loading := sorted, None, false;
      } else {
        apiError, loading := Some("Failed to fetch parking slot status."), false;
      }
    }

    /** `handleSlotClick` */
    method ClickSlot(slot: Slot)
      requires Valid()
      modifies this`isLoginModalOpen, this`isBookingModalOpen, this`isCancelModalOpen, this`selectedSlot, this`slotToCancel, this`bookingError, this`bookingHours
      ensures Valid()
      ensures ClickActionFor(slot, old(currentUser), old(isLoggedIn)) == OpenCancel ==>
        slotToCancel == Some(slot) && bookingError.None? && isCancelModalOpen
        && unchanged(this`isLoginModalOpen, this`isBookingModalOpen, this`selectedSlot, this`bookingHours)
      ensures ClickActionFor(slot, old(currentUser), old(isLoggedIn)) == Ignore ==>
        unchanged(this`slotToCancel, this`bookingError, this`isCancelModalOpen)
        && unchanged(this`isLoginModalOpen, this`isBookingModalOpen, this`selectedSlot, this`bookingHours)
      ensures ClickActionFor(slot, old(currentUser), old(isLoggedIn)) == OpenLogin ==>
        isLoginModalOpen
        && unchanged(this`slotToCancel, this`bookingError, this`isCancelModalOpen)
        && unchanged(this`isBookingModalOpen, this`selectedSlot, this`bookingHours)
      ensures ClickActionFor(slot, old(currentUser), old(isLoggedIn)) == OpenBooking ==>
        selectedSlot == Some(slot) && bookingHours == 1 && bookingError.None? && isBookingModalOpen
        && unchanged(this`slotToCancel, this`isCancelModalOpen, this`isLoginModalOpen)
    {
      if slot.isOccupied && slot.occupiedById == CurrentUserId(currentUser) {
        slotToCancel := Some(slot);
        bookingError := None;
        isCancelModalOpen := true;
        return;
      }
      if slot.isOccupied {
        return;
      }
      if !isLoggedIn {
        isLoginModalOpen := true;
      } else {
        selectedSlot := Some(slot);
        bookingHours := 1;
        bookingError := None;
        isBookingModalOpen := true;
      }
    }

    /** The duration slider (`min="1" max="6" step="1"`). */
    method SetBookingHours(hours: int)
      requires Valid() && 1 <= hours <= 6
      modifies this`bookingHours
      ensures Valid() && bookingHours == hours
    {
      bookingHours := hours;
    }

    /** `handleBookSlot` at instant `now`, with the server's `reply`.
        Returns the request sent, if any, and whether the slots are fetched
        again, which a successful booking does (`FetchSlots` with the next
        reply). */
    method BookSlot(now: int, reply: Reply<BookingDetails>) returns (sent: Option<BookingRequest>, refetch: bool)
      requires Valid()
      modifies this`isBookingModalOpen, this`isSuccessModalOpen, this`bookingDetails, this`isSubmitting, this`bookingError
      ensures Valid()
      ensures (old(selectedSlot).None? || !HasToken(old(currentUser))) ==>
        sent.None? && unchanged(this)
      ensures old(selectedSlot).Some? && HasToken(old(currentUser)) ==>
        sent == Some(BookingRequestFor(old(currentUser).value.token.value, old(selectedSlot).value, old(bookingHours), now))
      ensures old(selectedSlot).Some? && HasToken(old(currentUser)) && reply.Ok? ==>
        bookingDetails == Some(reply.data) && !isBookingModalOpen && isSuccessModalOpen && bookingError.None?
      ensures old(selectedSlot).Some? && HasToken(old(currentUser)) && reply.NotOk? ==>
        bookingError == Some(MessageOr(reply.message, "Failed to create booking."))
        && unchanged(this`bookingDetails, this`isBookingModalOpen, this`isSuccessModalOpen)
      ensures sent.Some? ==> !isSubmitting
      ensures refetch <==> sent.Some? && reply.Ok?
    {
      refetch := false;
      if selectedSlot.None? || !HasToken(currentUser) {
        return None, false;
      }
      isSubmitting := true;
      bookingError := None;
      sent := Some(BookingRequestFor(currentUser.value.token.value, selectedSlot.value, bookingHours, now));
      if reply.Ok? {
        bookingDetails := Some(reply.data);
        isBookingModalOpen := false;
        isSuccessModalOpen := true;
        refetch := true;
      } else {
        bookingError := Some(MessageOr(reply.message, "Failed to create booking."));
      }
      isSubmitting := false;
    }

    /** `handleCancelBookingFromSlot` with the replies of
        `GET /bookings/my-bookings` and of the cancel request. Returns
        whether the list was requested, which booking id was cancelled, the
        text of the browser alert shown, if any, and whether the slots are
        fetched again. */
    method CancelFromSlot(listReply: Reply<seq<Booking>>, cancelReply: Reply<()>)
      returns (listed: bool, cancelled: Option<string>, alertText: Option<string>, refetch: bool)
      requires Valid()
      modifies this`isCancelModalOpen, this`slotToCancel, this`isSubmitting, this`bookingError
      ensures Valid()
      ensures (old(slotToCancel).None? || !HasToken(old(currentUser))) ==>
        !listed && cancelled.None? && unchanged(this)
      ensures old(slotToCancel).Some? && HasToken(old(currentUser)) ==> listed
      ensures listReply.NotOk? && listed ==>
        cancelled.None? && bookingError == Some("Could not retrieve your bookings.")
        && unchanged(this`isCancelModalOpen, this`slotToCancel)
      ensures listReply.Ok? && listed && FindActiveBooking(listReply.data, old(slotToCancel).value.id).None? ==>
        cancelled.None? && bookingError == Some(NoActiveBookingMessage)
        && unchanged(this`isCancelModalOpen, this`slotToCancel)
      ensures listReply.Ok? && listed && FindActiveBooking(listReply.data, old(slotToCancel).value.id).Some? ==>
        cancelled == Some(FindActiveBooking(listReply.data, old(slotToCancel).value.id).value.id)
      ensures cancelled.Some? && cancelReply.Ok? ==>
        !isCancelModalOpen && slotToCancel.None? && bookingError.None?
      ensures cancelled.Some? && cancelReply.NotOk? ==>
        bookingError == Some(MessageOr(cancelReply.message, "Failed to cancel booking."))
        && unchanged(this`isCancelModalOpen, this`slotToCancel)
      ensures listed ==> !isSubmitting
      ensures alertText == (if cancelled.Some? && cancelReply.Ok? then Some(CancelledAlert) else None)
      ensures refetch <==> alertText.Some?
    {
      listed, cancelled, alertText, refetch := false, None, None, false;
      if slotToCancel.None? || !HasToken(currentUser) {
        return;
      }
      isSubmitting := true;
      bookingError := None;
      listed := true;
      if listReply.NotOk? {
        bookingError := Some("Could not retrieve your bookings.");
      } else {
        var active := FindActiveBooking(listReply.data, slotToCancel.value.id);
        if active.None? {
          bookingError := Some(NoActiveBookingMessage);
        } else {
          cancelled := Some(active.value.id);
          if cancelReply.Ok? {
            isCancelModalOpen := false;
            slotToCancel := None;
            alertText, refetch := Some(CancelledAlert), true;
          } else {
            bookingError := Some(MessageOr(cancelReply.message, "Failed to cancel booking."));
          }
        }
      }
      isSubmitting := false;
    }
  }

  /** A logout survives a reload: restoring the session from the storage
      that the logout left behind keeps the page logged out. */
  method LogoutThenReload(storage: map<string, User>) returns (loggedIn: bool, user: Option<User>)
    ensures !loggedIn && user.None?
  {
    var home := new Home();
    var rest, redirect := home.Logout(storage);
    home.RestoreSession(rest);
    loggedIn, user := home.isLoggedIn, home.currentUser;
  }
}
