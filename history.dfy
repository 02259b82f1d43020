/** The booking history page (src/app/history/page.js): the bookings are
    kept newest first, split into active, upcoming and past buckets at
    instant `now`, and a cancelled booking is marked in place. */
module History {

  import opened Common
  import opened Sorting

  // ---------------------------------------------------------------------
  // Newest first (src/app/history/page.js:73-75).

  /** `new Date(b.createdAt) - new Date(a.createdAt)` */
  function NewestFirst(a: Booking, b: Booking): int
  {
    b.createdAt - a.createdAt
  }

  lemma NewestFirstIsTotalPreorder()
    ensures SignAntisymmetric(NewestFirst) && LessEqTransitive(NewestFirst)
  {
  }

  /** A list in newest-first order has non-increasing creation instants. */
  lemma SortedNewestFirst(s: seq<Booking>)
    requires AdjacentSorted(s, NewestFirst)
    ensures forall i, j :: 0 <= i < j < |s| ==> s[i].createdAt >= s[j].createdAt
  {
    NewestFirstIsTotalPreorder();
    AdjacentSortedIsSorted(s, NewestFirst);
    assert Sorted(s, NewestFirst);
  }

  /** `data.sort(NewestFirst)` on a fetched list. */
  method SortNewestFirst(s: seq<Booking>) returns (r: seq<Booking>)
    ensures multiset(r) == multiset(s)
    ensures AdjacentSorted(r, NewestFirst)
  {
    NewestFirstIsTotalPreorder();
    r := SortedCopy(s, NewestFirst);
  }

  // ---------------------------------------------------------------------
  // Categorisation (src/app/history/page.js:87-111).

  datatype Category = Active | Upcoming | Past

  /** `booking.status.toUpperCase() === "BOOKED"`; also the cancel button's
      condition (src/app/history/page.js:154). */
  predicate IsCancellable(b: Booking)
    ensures b.status == "booked" || b.status == "BOOKED" || b.status == "Booked" ==> IsCancellable(b)
    ensures |b.status| != 6 ==> !IsCancellable(b)
  {
    assert ToUpper("booked") == "BOOKED" && ToUpper("BOOKED") == "BOOKED" && ToUpper("Booked") == "BOOKED";
    ToUpper(b.status) == "BOOKED"
  }

  /** The bucket of a booking at instant `now`: a cancellable booking is
      active while `now` lies in its window (both ends included), upcoming
      before it starts, past afterwards; any other status is past. */
  function CategoryOf(b: Booking, now: int): (c: Category)
    ensures c == Active <==> IsCancellable(b) && b.startTime <= now <= b.endTime
    ensures c == Upcoming <==> IsCancellable(b) && now < b.startTime
    ensures c == Past <==> !IsCancellable(b) || (b.startTime <= now && b.endTime < now)
  {
    if !IsCancellable(b) then Past
    else if now >= b.startTime && now <= b.endTime then Active
    else if now < b.startTime then Upcoming
    else Past
  }

  function InCategory(now: int, c: Category): Booking -> bool
  {
    b => CategoryOf(b, now) == c
  }

  /** The bookings of one bucket, in list order. */
  function Bucket(bookings: seq<Booking>, now: int, c: Category): seq<Booking>
  {
    Filter(bookings, InCategory(now, c))
  }

  lemma BucketAppend(s: seq<Booking>, x: Booking, now: int, c: Category)
    ensures Bucket(s + [x], now, c) == Bucket(s, now, c) + (if CategoryOf(x, now) == c then [x] else [])
  {
    FilterAppend(s, x, InCategory(now, c));
  }

  /** `categorizedBookings`: one pass over the list that pushes every
      booking onto one of three lists. */
  method Categorize(bookings: seq<Booking>, now: int) returns (active: seq<Booking>, upcoming: seq<Booking>, past: seq<Booking>)
    ensures active == Bucket(bookings, now, Active)
    ensures upcoming == Bucket(bookings, now, Upcoming)
    ensures past == Bucket(bookings, now, Past)
  {
    active, upcoming, past := [], [], [];
    var i := 0;
    while i < |bookings|
      invariant 0 <= i <= |bookings|
      invariant active == Bucket(bookings[..i], now, Active)
      invariant upcoming == Bucket(bookings[..i], now, Upcoming)
      invariant past == Bucket(bookings[..i], now, Past)
    {
      var b := bookings[i];
      assert bookings[..i + 1] == bookings[..i] + [b];
      BucketAppend(bookings[..i], b, now, Active);
      BucketAppend(bookings[..i], b, now, Upcoming);
      BucketAppend(bookings[..i], b, now, Past);
      if ToUpper(b.status) != "BOOKED" {
        past := past + [b];
      } else {
        if now >= b.startTime && now <= b.endTime {
          active := active + [b];
        } else if now < b.startTime {
          upcoming := upcoming + [b];
        } else {
          past := past + [b];
        }
      }
      i := i + 1;
    }
    assert bookings[..i] == bookings;
  }

  /** The three buckets partition the list: each booking lands in the
      bucket of its category and in no other, as often as it occurs, and
      the bucket sizes add up to the list's length. */
  lemma {:induction false} BucketsPartition(bookings: seq<Booking>, now: int)
    ensures forall b, c :: b in Bucket(bookings, now, c) <==> b in bookings && CategoryOf(b, now) == c
    ensures multiset(Bucket(bookings, now, Active)) + multiset(Bucket(bookings, now, Upcoming))
      + multiset(Bucket(bookings, now, Past)) == multiset(bookings)
    ensures |Bucket(bookings, now, Active)| + |Bucket(bookings, now, Upcoming)| + |Bucket(bookings, now, Past)| == |bookings|
  {
    FilterMembers(bookings, InCategory(now, Active));
    FilterMembers(bookings, InCategory(now, Upcoming));
    FilterMembers(bookings, InCategory(now, Past));
    forall b, c ensures b in Bucket(bookings, now, c) <==> b in bookings && CategoryOf(b, now) == c {
      FilterMembers(bookings, InCategory(now, c));
    }
    FilterCount(bookings, InCategory(now, Active));
    FilterCount(bookings, InCategory(now, Upcoming));
    FilterCount(bookings, InCategory(now, Past));
    var a, u, p := Bucket(bookings, now, Active), Bucket(bookings, now, Upcoming), Bucket(bookings, now, Past);
    assert multiset(a) + multiset(u) + multiset(p) == multiset(bookings) by {
      forall x ensures (multiset(a) + multiset(u) + multiset(p))[x] == multiset(bookings)[x] {
        assert InCategory(now, Active)(x) == (CategoryOf(x, now) == Active);
        assert InCategory(now, Upcoming)(x) == (CategoryOf(x, now) == Upcoming);
        assert InCategory(now, Past)(x) == (CategoryOf(x, now) == Past);
      }
    }
    assert |multiset(a) + multiset(u) + multiset(p)| == |multiset(bookings)|;
  }

  /** Each bucket keeps the list's order. */
  lemma BucketsKeepOrder(bookings: seq<Booking>, now: int, c: Category)
    ensures Embeds(Bucket(bookings, now, c), bookings)
  {
    FilterEmbeds(bookings, InCategory(now, c));
  }

  /** A booking that is not cancellable is past at every instant; an
      active or upcoming booking is cancellable. */
  lemma NotCancellableIsPast(b: Booking, now: int)
    ensures !IsCancellable(b) ==> CategoryOf(b, now) == Past
    ensures CategoryOf(b, now) != Past ==> IsCancellable(b)
  {
  }

  /** A BOOKED booking is active on its closed window, upcoming before
      it, and past after it. */
  lemma BookedByTime(b: Booking, now: int)
    requires IsCancellable(b) && b.startTime <= b.endTime
    ensures CategoryOf(b, now) == Active <==> b.startTime <= now <= b.endTime
    ensures CategoryOf(b, now) == Upcoming <==> now < b.startTime
    ensures CategoryOf(b, now) == Past <==> b.endTime < now
  {
  }

  /** One BOOKED booking from an hour before `t` to an hour after `t`,
      categorised at `t`, is the only active one. */
  lemma OneActiveBooking(b: Booking, t: int)
    requires b.status == "BOOKED" && b.startTime == t - 3600000 && b.endTime == t + 3600000
    ensures Bucket([b], t, Active) == [b]
    ensures Bucket([b], t, Upcoming) == [] && Bucket([b], t, Past) == []
  {
    assert ToUpper("BOOKED") == "BOOKED";
    assert [b][1..] == [];
  }

  // ---------------------------------------------------------------------
  // The cancel update (src/app/history/page.js:138-142).

  function MarkCancelled(bookings: seq<Booking>, id: string): (r: seq<Booking>)
    ensures |r| == |bookings|
    ensures forall k :: 0 <= k < |r| ==>
      r[k] == if bookings[k].id == id then bookings[k].(status := "CANCELLED") else bookings[k]
  {
    seq(|bookings|, k requires 0 <= k < |bookings| =>
      if bookings[k].id == id then bookings[k].(status := "CANCELLED") else bookings[k])
  }

  /** After the update the cancelled booking is no longer cancellable and
      is past at every instant; every other booking is as it was. */
  lemma CancelledIsFinal(bookings: seq<Booking>, id: string, now: int)
    ensures forall k :: 0 <= k < |bookings| && bookings[k].id == id ==>
      !IsCancellable(MarkCancelled(bookings, id)[k]) && CategoryOf(MarkCancelled(bookings, id)[k], now) == Past
    ensures forall k :: 0 <= k < |bookings| && bookings[k].id != id ==> MarkCancelled(bookings, id)[k] == bookings[k]
  {
    var r := MarkCancelled(bookings, id);
    forall k | 0 <= k < |bookings| && bookings[k].id == id
      ensures !IsCancellable(r[k]) && CategoryOf(r[k], now) == Past
    {
      assert |ToUpper("CANCELLED")| == 9;
    }
  }

  /** Applying the update twice is applying it once. */
  lemma MarkCancelledIdempotent(bookings: seq<Booking>, id: string)
    ensures MarkCancelled(MarkCancelled(bookings, id), id) == MarkCancelled(bookings, id)
  {
  }

  /** The update keeps every creation instant, hence the newest-first order. */
  lemma MarkCancelledKeepsOrder(bookings: seq<Booking>, id: string)
    requires AdjacentSorted(bookings, NewestFirst)
    ensures AdjacentSorted(MarkCancelled(bookings, id), NewestFirst)
  {
    var r := MarkCancelled(bookings, id);
    assert forall k :: 0 <= k < |r| ==> r[k].createdAt == bookings[k].createdAt;
  }

  // ---------------------------------------------------------------------
  // The page component.

  class HistoryPage {
    var bookings: seq<Booking>
    var loading: bool
    var error: Option<string>
    var currentUser: Option<User>
    var isCancelModalOpen: bool
    var bookingToCancel: Option<Booking>
    var isSubmitting: bool

    /** The list is kept newest first. */
    ghost predicate Valid()
      reads this
    {
      AdjacentSorted(bookings, NewestFirst)
    }

    constructor ()
      ensures Valid()
      ensures bookings == [] && loading && error.None? && currentUser.None?
      ensures !isCancelModalOpen && bookingToCancel.None? && !isSubmitting
    {
      bookings, loading, error, currentUser := [], true, None, None;
      isCancelModalOpen, bookingToCancel, isSubmitting := false, None, false;
    }

    /** The mount effect: without a stored "user" the page redirects to
        "/auth"; otherwise it fetches the user's bookings and keeps them
        newest first. */
    method Mount(storage: map<string, User>, reply: Reply<seq<Booking>>) returns (redirect: Option<string>)
      requires Valid()
      modifies this`bookings, this`loading, this`error, this`currentUser
      ensures Valid()
      ensures "user" !in storage ==> redirect == Some("/auth") && unchanged(this)
      ensures "user" in storage ==> redirect.None? && currentUser == Some(storage["user"]) && !loading
      ensures "user" in storage && reply.Ok? ==> multiset(bookings) == multiset(reply.data) && error.None?
      ensures "user" in storage && reply.NotOk? ==>
        bookings == old(bookings) && error == Some("Failed to fetch booking history.")
    {
      if "user" !in storage {
        return Some("/auth");
      }
      redirect := None;
      if reply.Ok? {
        var sorted := SortNewestFirst(reply.data);
        currentUser, bookings, error, loading := Some(storage["user"]), sorted, None, false;
      } else {
        currentUser, error, loading := Some(storage["user"]), Some("Failed to fetch booking history."), false;
      }
    }

    /** `handleCancelClick` */
    method SelectForCancel(b: Booking)
      modifies this`bookingToCancel, this`isCancelModalOpen
      ensures bookingToCancel == Some(b) && isCancelModalOpen
    {
      bookingToCancel := Some(b);
      isCancelModalOpen := true;
    }

    /** `handleCancelBooking` with the server's reply. Returns the id of
        the booking whose cancel was requested, and the alert text shown
        when the server rejects it. */
    method CancelBooking(reply: Reply<()>) returns (sent: Option<string>, alertText: Option<string>)
      requires Valid()
      modifies this`bookings, this`isCancelModalOpen, this`bookingToCancel, this`isSubmitting
      ensures Valid()
      ensures (old(bookingToCancel).None? || !HasToken(old(currentUser))) ==>
        sent.None? && alertText.None? && unchanged(this)
      ensures old(bookingToCancel).Some? && HasToken(old(currentUser)) ==>
        sent == Some(old(bookingToCancel).value.id) && !isSubmitting
      ensures sent.Some? && reply.Ok? ==>
        bookings == MarkCancelled(old(bookings), sent.value) && !isCancelModalOpen && bookingToCancel.None?
        && alertText.None?
      ensures sent.Some? && reply.NotOk? ==>
        alertText == Some("Error: " + MessageOr(reply.message, "Failed to cancel booking."))
        && unchanged(this`bookings, this`isCancelModalOpen, this`bookingToCancel)
    {
      sent, alertText := None, None;
      if bookingToCancel.None? || !HasToken(currentUser) {
        return;
      }
      isSubmitting := true;
      var id := bookingToCancel.value.id;
      sent := Some(id);
      if reply.Ok? {
        MarkCancelledKeepsOrder(bookings, id);
        bookings := MarkCancelled(bookings, id);
        isCancelModalOpen := false;
        bookingToCancel := None;
      } else {
        alertText := Some("Error: " + MessageOr(reply.message, "Failed to cancel booking."));
      }
      isSubmitting := false;
    }
  }
}
