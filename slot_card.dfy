/** The slot card component (src/components/SlotCard.js): a local copy of
    one slot with a book/cancel request in flight at most once, and the
    three-way choice of what the card shows. */
module SlotCardView {

  import opened Common

  /** The card's local slot. `bookingId` and `bookedBy` keep the
      difference between `null` and `undefined`. */
  datatype CardSlot = CardSlot(id: string, slotNumber: string, isAvailable: bool, bookingId: JsValue, bookedBy: JsValue)

  /** The user of the auth context; `id` may be missing. */
  datatype CardUser = CardUser(id: JsValue)

  /** `user?.id` */
  function UserId(user: Option<CardUser>): JsValue
  {
    if user.Some? then user.value.id else Undefined
  }

  datatype Action = Book | Cancel

  const BookingsUrl := "http://localhost:5000/api/bookings"

  /** The request `handleAction` sends: URL, method, and the `slotId` of
      the JSON body (None for no body). */
  datatype CardRequest = CardRequest(url: string, httpMethod: string, slotId: Option<string>)

  /** `localSlot.bookingId || ""` */
  function BookingIdText(v: JsValue): (r: string)
    ensures Truthy(v) ==> r == v.s
    ensures !Truthy(v) ==> r == ""
  {
    if Truthy(v) then v.s else ""
  }

  function RequestFor(action: Action, slot: CardSlot): (r: CardRequest)
    ensures r.httpMethod == "POST" <==> action == Book
    ensures r.slotId.Some? <==> action == Book
    ensures |r.url| >= |BookingsUrl| && r.url[..|BookingsUrl|] == BookingsUrl
  {
    match action
    case Book => CardRequest(BookingsUrl, "POST", Some(slot.id))
    case Cancel => CardRequest(BookingsUrl + "/" + BookingIdText(slot.bookingId), "DELETE", None)
  }

  /** A book request posts the slot's id to the collection; a cancel
      request deletes the item named by the booking id, or the collection
      path with a trailing "/" when there is none. */
  lemma RequestShape(action: Action, slot: CardSlot)
    ensures action == Book ==>
      RequestFor(action, slot).httpMethod == "POST" && RequestFor(action, slot).slotId == Some(slot.id)
      && RequestFor(action, slot).url == BookingsUrl
    ensures action == Cancel ==>
      RequestFor(action, slot).httpMethod == "DELETE" && RequestFor(action, slot).slotId.None?
      && RequestFor(action, slot).url[..|BookingsUrl| + 1] == BookingsUrl + "/"
    ensures action == Cancel && Truthy(slot.bookingId) ==> RequestFor(action, slot).url == BookingsUrl + "/" + slot.bookingId.s
    ensures action == Cancel && !Truthy(slot.bookingId) ==> RequestFor(action, slot).url == BookingsUrl + "/"
  {
  }

  /** The local slot after a successful action: booked by `userId` under
      `bookingId`, or free with both cleared to `null`. */
  function AfterSuccess(slot: CardSlot, action: Action, bookingId: JsValue, userId: JsValue): (r: CardSlot)
    ensures r.id == slot.id && r.slotNumber == slot.slotNumber
    ensures r.isAvailable <==> action.Cancel?
    ensures action == Book ==> r.bookingId == bookingId && r.bookedBy == userId
    ensures action == Cancel ==> r.bookingId == Null && r.bookedBy == Null
  {
    match action
    case Book => slot.(isAvailable := false, bookingId := bookingId, bookedBy := userId)
    case Cancel => slot.(isAvailable := true, bookingId := Null, bookedBy := Null)
  }

  function SuccessText(action: Action): (r: string)
    ensures r == "Slot booked successfully!" <==> action == Book
    ensures r == "Slot canceled successfully!" <==> action.Cancel?
  {
    if action == Book then "Slot booked successfully!" else "Slot canceled successfully!"
  }

  // ---------------------------------------------------------------------
  // What the card shows (src/components/SlotCard.js:100-128).

  datatype View = BookButton(disabled: bool) | CancelButton(disabled: bool) | BookedByOther

  function ViewOf(slot: CardSlot, user: Option<CardUser>, isProcessing: bool): (v: View)
    ensures v.BookButton? <==> slot.isAvailable
    ensures v.CancelButton? <==> !slot.isAvailable && StrictEq(slot.bookedBy, UserId(user))
    ensures v.BookedByOther? <==> !slot.isAvailable && !StrictEq(slot.bookedBy, UserId(user))
    ensures isProcessing && !v.BookedByOther? ==> v.disabled
    ensures v.BookButton? ==> (v.disabled <==> isProcessing)
    ensures v.CancelButton? ==> (v.disabled <==> isProcessing || !Truthy(slot.bookingId))
  {
    if slot.isAvailable then BookButton(isProcessing)
    else if StrictEq(slot.bookedBy, UserId(user)) then CancelButton(isProcessing || !Truthy(slot.bookingId))
    else BookedByOther
  }

  lemma StrictEqReflexive(v: JsValue)
    ensures StrictEq(v, v)
  {
  }

  /** After the user's own successful booking the card offers Cancel,
      enabled exactly when the server returned a booking id. */
  lemma BookedCardOffersCancel(slot: CardSlot, bookingId: JsValue, user: CardUser)
    ensures ViewOf(AfterSuccess(slot, Book, bookingId, user.id), Some(user), false) == CancelButton(!Truthy(bookingId))
  {
    StrictEqReflexive(user.id);
  }

  /** After a successful cancel the card offers an enabled Book button. */
  lemma CancelledCardOffersBook(slot: CardSlot, user: Option<CardUser>)
    ensures ViewOf(AfterSuccess(slot, Cancel, Null, Null), user, false) == BookButton(false)
  {
  }

  /** A cancel after one's own successful booking targets that booking. */
  lemma CancelTargetsOwnBooking(slot: CardSlot, bookingId: JsValue, user: CardUser)
    requires Truthy(bookingId)
    ensures RequestFor(Cancel, AfterSuccess(slot, Book, bookingId, user.id)).url == BookingsUrl + "/" + bookingId.s
  {
  }

  /** A booked card without a `bookedBy` shows Cancel to a visitor who is
      not logged in, because `undefined === undefined`. */
  lemma UnattributedCardShowsCancel(slot: CardSlot)
    requires !slot.isAvailable && slot.bookedBy == Undefined
    ensures ViewOf(slot, None, false).CancelButton?
  {
  }

  // ---------------------------------------------------------------------
  // The component (src/components/SlotCard.js:9-57).

  class SlotCard {
    const user: Option<CardUser>
    const hasCallback: bool
    var localSlot: CardSlot
    var isProcessing: bool

    constructor (slot: CardSlot, user: Option<CardUser>, hasCallback: bool)
      ensures localSlot == slot && !isProcessing && this.user == user && this.hasCallback == hasCallback
    {
      this.user := user;
      this.hasCallback := hasCallback;
      localSlot := slot;
      isProcessing := false;
    }

    /** The current view. */
    function View(): View
      reads this
    {
      ViewOf(localSlot, user, isProcessing)
    }

    /** The first half of `handleAction`, up to the request: without a user
        an error toast is the only effect; otherwise the card is busy and
        the request for the action is sent. */
    method StartAction(action: Action) returns (request: Option<CardRequest>, toast: Option<Toast>)
      modifies this`isProcessing
      ensures user.None? ==> request.None? && toast == Some(ErrorToast("Please log in to proceed.")) && unchanged(this)
      ensures user.Some? ==> request == Some(RequestFor(action, old(localSlot))) && toast.None? && isProcessing
      ensures localSlot == old(localSlot)
    {
      if user.None? {
        return None, Some(ErrorToast("Please log in to proceed."));
      }
      isProcessing := true;
      request, toast := Some(RequestFor(action, localSlot)), None;
    }

    /** The second half, with the server's reply (`data.bookingId` on
        success): a success updates the local slot and notifies the parent
        with the slot's id; a failure leaves the slot as it was. The card
        is idle afterwards either way. */
    method FinishAction(action: Action, reply: Reply<JsValue>) returns (toast: Toast, notified: Option<string>)
      requires user.Some? && isProcessing
      modifies this`localSlot, this`isProcessing
      ensures !isProcessing
      ensures reply.Ok? ==>
        localSlot == AfterSuccess(old(localSlot), action, reply.data, user.value.id)
        && toast == SuccessToast(SuccessText(action))
        && notified == (if hasCallback then Some(old(localSlot).id) else None)
      ensures reply.NotOk? ==>
        localSlot == old(localSlot) && notified.None?
        && toast == ErrorToast(MessageOr(reply.message, "Something went wrong"))
    {
      if reply.Ok? {
        var id := localSlot.id;
        localSlot := AfterSuccess(localSlot, action, reply.data, user.value.id);
        toast := SuccessToast(SuccessText(action));
        notified := if hasCallback then Some(id) else None;
      } else {
        toast := ErrorToast(MessageOr(reply.message, "Something went wrong"));
        notified := None;
      }
      isProcessing := false;
    }
  }

  /** A successful action round trip: booking a free card as a signed-in
      user leaves it showing that user's Cancel button, and cancelling a
      booked card leaves it showing Book. */
  method BookThenCancel(slot: CardSlot, u: CardUser, bookingId: JsValue)
    returns (afterBook: View, afterCancel: View)
    requires slot.isAvailable
    ensures afterBook == CancelButton(!Truthy(bookingId))
    ensures afterCancel == BookButton(false)
  {
    var card := new SlotCard(slot, Some(u), true);
    var request, toast := card.StartAction(Book);
    var t, n := card.FinishAction(Book, Ok(bookingId));
    BookedCardOffersCancel(slot, bookingId, u);
    afterBook := card.View();
    request, toast := card.StartAction(Cancel);
    t, n := card.FinishAction(Cancel, Ok(Undefined));
    CancelledCardOffersBook(card.localSlot, Some(u));
    afterCancel := card.View();
  }
}
