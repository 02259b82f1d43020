/** The admin dashboard (src/app/admin/page.js): a role gate, an
    all-or-nothing load of slots, bookings and users, the statistics and the
    role filter, and the handlers that create admins and slots and delete
    slots and users. `localeCompare(…, {numeric: true})` is the parameter
    `collate`, taken to be a total preorder. */
module Admin {

  import opened Common
  import opened Sorting
  import History
  import HomePage

  // ---------------------------------------------------------------------
  // Slot order.

  /** `a.localeCompare(b, undefined, { numeric: true })` */
  function Collate(collate: (string, string) -> int, a: string, b: string): int
  {
    collate(a, b)
  }

  /** What the page needs of `localeCompare`: a total preorder on strings. */
  ghost predicate CollateOk(collate: (string, string) -> int)
  {
    && (forall a, b :: Collate(collate, a, b) > 0 <==> Collate(collate, b, a) < 0)
    && (forall a, b, c :: Collate(collate, a, b) <= 0 && Collate(collate, b, c) <= 0 ==> Collate(collate, a, c) <= 0)
  }

  /** `(a, b) => a.slotNumber.localeCompare(b.slotNumber, …)` */
  function BySlotNumber(collate: (string, string) -> int): (Slot, Slot) -> int
  {
    (x: Slot, y: Slot) => collate(x.slotNumber, y.slotNumber)
  }

  lemma BySlotNumberOk(collate: (string, string) -> int)
    requires CollateOk(collate)
    ensures SignAntisymmetric(BySlotNumber(collate)) && LessEqTransitive(BySlotNumber(collate))
  {
    var cmp := BySlotNumber(collate);
    assert forall x: Slot, y: Slot :: cmp(x, y) == Collate(collate, x.slotNumber, y.slotNumber);
  }

  /** `[...s].sort(BySlotNumber(collate))`: a permutation of `s` in which
      every pair is in collation order. */
  method SortBySlotNumber(s: seq<Slot>, ghost collate: (string, string) -> int, cmp: (Slot, Slot) -> int) returns (r: seq<Slot>)
    requires CollateOk(collate) && cmp == BySlotNumber(collate)
    ensures multiset(r) == multiset(s)
    ensures Sorted(r, cmp)
  {
    BySlotNumberOk(collate);
    r := SortedCopy(s, cmp);
    AdjacentSortedIsSorted(r, cmp);
  }

  // ---------------------------------------------------------------------
  // Statistics and the role filter (src/app/admin/page.js:134-147).

  datatype AdminStats = AdminStats(slots: HomePage.SlotStats, totalBookings: nat)

  /** The slot counts are those of the slot grid; `totalBookings` is the
      number of bookings. */
  function StatsOf(slots: seq<Slot>, bookings: seq<Booking>): (r: AdminStats)
    ensures r.slots.total == |slots| && r.totalBookings == |bookings|
    ensures r.slots.occupied == |HomePage.OccupiedPositions(slots)|
    ensures r.slots.available + r.slots.occupied == r.slots.total
  {
    AdminStats(HomePage.Stats(slots), |bookings|)
  }

  function HasRole(role: string): User -> bool
  {
    (u: User) => u.role == role
  }

  /** `filteredUsers`: "all" gives the list itself; any other filter gives
      exactly the users with that role, in list order. */
  function FilterUsers(users: seq<User>, filter: string): (r: seq<User>)
    ensures filter == "all" ==> r == users
    ensures filter != "all" ==> forall u :: u in r <==> u in users && u.role == filter
    ensures filter != "all" ==> forall u :: multiset(r)[u] == if u.role == filter then multiset(users)[u] else 0
    ensures Embeds(r, users)
  {
    if filter == "all" then
      FilterAll(users, (u: User) => true);
      FilterEmbeds(users, (u: User) => true);
      users
    else
      FilterMembers(users, HasRole(filter));
      FilterCount(users, HasRole(filter));
      FilterEmbeds(users, HasRole(filter));
      Filter(users, HasRole(filter))
  }

  // ---------------------------------------------------------------------
  // Removal by `_id` (src/app/admin/page.js:277, 283).

  function SlotIdIsNot(id: string): Slot -> bool
  {
    (s: Slot) => s.id != id
  }

  function UserIdIsNot(id: Option<string>): User -> bool
  {
    (u: User) => u.id != id
  }

  /** `prev.filter((s) => s._id !== id)` */
  function RemoveSlot(slots: seq<Slot>, id: string): (r: seq<Slot>)
    ensures forall s :: s in r <==> s in slots && s.id != id
    ensures |r| <= |slots|
  {
    FilterMembers(slots, SlotIdIsNot(id));
    Filter(slots, SlotIdIsNot(id))
  }

  /** `prev.filter((u) => u._id !== id)` */
  function RemoveUser(users: seq<User>, id: Option<string>): (r: seq<User>)
    ensures forall u :: u in r <==> u in users && u.id != id
    ensures |r| <= |users|
  {
    FilterMembers(users, UserIdIsNot(id));
    Filter(users, UserIdIsNot(id))
  }

  /** Removal drops exactly the slots with that id and keeps the others,
      with their multiplicities and in order; a sorted list stays sorted. */
  lemma RemoveSlotSpec(slots: seq<Slot>, id: string, cmp: (Slot, Slot) -> int)
    ensures forall s :: multiset(RemoveSlot(slots, id))[s] == if s.id != id then multiset(slots)[s] else 0
    ensures Embeds(RemoveSlot(slots, id), slots)
    ensures Sorted(slots, cmp) ==> Sorted(RemoveSlot(slots, id), cmp)
  {
    FilterCount(slots, SlotIdIsNot(id));
    FilterEmbeds(slots, SlotIdIsNot(id));
    if Sorted(slots, cmp) {
      FilterKeepsSorted(slots, RemoveSlot(slots, id), cmp);
    }
  }

  lemma RemoveUserSpec(users: seq<User>, id: Option<string>)
    ensures forall u :: multiset(RemoveUser(users, id))[u] == if u.id != id then multiset(users)[u] else 0
    ensures Embeds(RemoveUser(users, id), users)
  {
    FilterCount(users, UserIdIsNot(id));
    FilterEmbeds(users, UserIdIsNot(id));
  }

  // ---------------------------------------------------------------------
  // Requests and form values.

  /** The admin registration form. */
  datatype AdminForm = AdminForm(username: string, email: string, password: string)

  const EmptyAdminForm := AdminForm("", "", "")

  /** `{ ...newAdmin, role: "admin" }` */
  datatype RegisterRequest = RegisterRequest(username: string, email: string, password: string, role: string)

  /** The value of a number input: the initial number, or the text typed in. */
  datatype FormValue = NumberValue(n: int) | TextValue(text: string)

  /** The bulk form. */
  datatype BulkForm = BulkForm(prefix: string, startNumber: FormValue, count: FormValue)

  const InitialBulkForm := BulkForm("", NumberValue(1), NumberValue(10))

  /** The body of `/admin/slots/bulk-create`. */
  datatype BulkRequest = BulkRequest(prefix: string, startNumber: JsNumber, count: JsNumber)

  /** `Number(v)` on decimal text: "" is 0, a run of digits its value,
      anything else NaN. */
  function ToNumber(v: FormValue): (r: JsNumber)
    ensures v.NumberValue? ==> r == Num(v.n)
    ensures v.TextValue? && v.text == "" ==> r == Num(0)
  {
    match v
    case NumberValue(n) => Num(n)
    case TextValue(t) =>
      if forall i :: 0 <= i < |t| ==> IsDigit(t[i]) then Num(DigitsValue(t)) else NaN
  }

  /** The text of a natural number converts back to that number. */
  lemma ToNumberOfText(n: nat)
    ensures ToNumber(TextValue(NatToString(n))) == Num(n)
  {
  }

  /** Text holding a character other than a digit converts to NaN. */
  lemma ToNumberNotDigits(t: string, k: int)
    requires 0 <= k < |t| && !IsDigit(t[k])
    ensures ToNumber(TextValue(t)) == NaN
  {
  }

  /** An `{ source, message }` pair of the page; ("", "") shows nothing. */
  datatype Notice = Notice(source: string, message: string)

  const NoNotice := Notice("", "")

  /** The row the delete dialog was opened for. */
  datatype DeleteItem = SlotItem(slot: Slot) | UserItem(user: User)

  function KindOf(item: DeleteItem): string
  {
    if item.SlotItem? then "slot" else "user"
  }

  /** The delete buttons are disabled for an occupied slot and for the
      signed-in admin's own row (`user._id === currentUser._id`). */
  predicate DeleteOffered(item: DeleteItem, currentUser: User)
    ensures item.SlotItem? ==> (DeleteOffered(item, currentUser) <==> !item.slot.isOccupied)
    ensures item.UserItem? && item.user.id == currentUser.id ==> !DeleteOffered(item, currentUser)
    ensures item.UserItem? && item.user.id != currentUser.id ==> DeleteOffered(item, currentUser)
  {
    match item
    case SlotItem(s) => !s.isOccupied
    case UserItem(u) => u.id != currentUser.id
  }

  /** The path of the DELETE request. */
  function DeletePath(item: DeleteItem): (r: string)
    ensures item.SlotItem? ==> r == "/admin/slots/" + item.slot.id
    ensures item.UserItem? ==> r == "/admin/users/" + IdText(item.user.id)
  {
    match item
    case SlotItem(s) => "/admin/slots/" + s.id
    case UserItem(u) => "/admin/users/" + IdText(u.id)
  }

  /** The success text of a delete. */
  function DeletedMessage(item: DeleteItem): (r: string)
    ensures |r| >= 23 && r[|r| - 18..] == " has been deleted."
    ensures item.SlotItem? ==> r[..5] == "Slot " && r[5..|r| - 18] == item.slot.slotNumber
    ensures item.UserItem? ==> r[..5] == "User " && r[5..|r| - 18] == item.user.username
  {
    match item
    case SlotItem(s) => "Slot " + s.slotNumber + " has been deleted."
    case UserItem(u) => "User " + u.username + " has been deleted."
  }

  // ---------------------------------------------------------------------
  // The page component.

  class AdminPage {
    const collate: (string, string) -> int
    var currentUser: Option<User>
    var isAuthChecked: bool
    var slots: seq<Slot>
    var bookings: seq<Booking>
    var users: seq<User>
    var userFilter: string
    var newAdmin: AdminForm
    var singleSlot: string
    var bulkSlots: BulkForm
    var itemToDelete: Option<DeleteItem>
    var loadingPage: bool
    var loadingAction: bool
    var error: Notice
    var success: Notice

    /** Slots are in collation order, bookings newest first, and a page
        past the gate belongs to an admin. */
    ghost predicate Valid()
      reads this
    {
      && CollateOk(collate)
      && Sorted(slots, BySlotNumber(collate))
      && AdjacentSorted(bookings, History.NewestFirst)
      && (isAuthChecked ==> currentUser.Some? && currentUser.value.role == "admin")
    }

    constructor (collate: (string, string) -> int)
      requires CollateOk(collate)
      ensures Valid() && this.collate == collate
      ensures currentUser.None? && !isAuthChecked && slots == [] && bookings == [] && users == []
      ensures userFilter == "all" && newAdmin == EmptyAdminForm && singleSlot == "" && bulkSlots == InitialBulkForm
      ensures itemToDelete.None? && loadingPage && !loadingAction && error == NoNotice && success == NoNotice
    {
      this.collate := collate;
      currentUser, isAuthChecked := None, false;
      slots, bookings, users, userFilter := [], [], [], "all";
      newAdmin, singleSlot, bulkSlots := EmptyAdminForm, "", InitialBulkForm;
      itemToDelete, loadingPage, loadingAction := None, true, false;
      error, success := NoNotice, NoNotice;
    }

    /** The gate effect: no stored user redirects to "/auth", a user who
        is not an admin to "/"; an admin is admitted. */
    method CheckAuth(storage: map<string, User>) returns (redirect: Option<string>)
      requires Valid()
      modifies this`currentUser, this`isAuthChecked
      ensures Valid()
      ensures "user" !in storage ==> redirect == Some("/auth") && unchanged(this)
      ensures "user" in storage && storage["user"].role != "admin" ==> redirect == Some("/") && unchanged(this)
      ensures "user" in storage && storage["user"].role == "admin" ==>
        redirect.None? && currentUser == Some(storage["user"]) && isAuthChecked
    {
      if "user" !in storage {
        return Some("/auth");
      }
      var userData := storage["user"];
      if userData.role != "admin" {
        return Some("/");
      }
      currentUser := Some(userData);
      isAuthChecked := true;
      redirect := None;
    }

    /** `fetchAllData`: the three lists are replaced only when all three
        responses are ok; otherwise one "data" error is set and nothing
        else changes. */
    method LoadAll(slotsRes: Reply<seq<Slot>>, bookingsRes: Reply<seq<Booking>>, usersRes: Reply<seq<User>>)
      requires Valid()
      modifies this`slots, this`bookings, this`users, this`loadingPage, this`error
      ensures Valid()
      ensures !old(isAuthChecked) || old(currentUser).None? ==> unchanged(this)
      ensures old(isAuthChecked) && old(currentUser).Some? ==> !loadingPage
      ensures old(isAuthChecked) && old(currentUser).Some? && slotsRes.Ok? && bookingsRes.Ok? && usersRes.Ok? ==>
        multiset(slots) == multiset(slotsRes.data) && multiset(bookings) == multiset(bookingsRes.data)
        && users == usersRes.data && error == old(error)
      ensures old(isAuthChecked) && old(currentUser).Some? && !(slotsRes.Ok? && bookingsRes.Ok? && usersRes.Ok?) ==>
        error == Notice("data", "Failed to fetch critical admin data.")
        && slots == old(slots) && bookings == old(bookings) && users == old(users)
    {
      if !isAuthChecked || currentUser.None? {
        return;
      }
      if !slotsRes.Ok? || !bookingsRes.Ok? || !usersRes.Ok? {
        error, loadingPage := Notice("data", "Failed to fetch critical admin data."), false;
      } else {
        var sortedSlots := SortBySlotNumber(slotsRes.data, collate, BySlotNumber(collate));
        var sortedBookings := History.SortNewestFirst(bookingsRes.data);
        slots, bookings, users, loadingPage := sortedSlots, sortedBookings, usersRes.data, false;
      }
    }

    /** A filter tab. */
    method SelectUserFilter(filter: string)
      modifies this`userFilter
      ensures userFilter == filter
    {
      userFilter := filter;
    }

    /** `clearMessages` */
    method ClearMessages()
      modifies this`error, this`success
      ensures error == NoNotice && success == NoNotice
    {
      error, success := NoNotice, NoNotice;
    }

    /** `handleCreateAdmin`: sends the form with `role: "admin"`; on
        success appends the returned user and clears the form. */
    method CreateAdmin(reply: Reply<User>) returns (request: RegisterRequest)
      requires Valid() && isAuthChecked
      modifies this`users, this`newAdmin, this`loadingAction, this`error, this`success
      ensures Valid()
      ensures request == RegisterRequest(old(newAdmin).username, old(newAdmin).email, old(newAdmin).password, "admin")
      ensures reply.Ok? ==>
        users == old(users) + [reply.data] && newAdmin == EmptyAdminForm && error == NoNotice
        && success == Notice("admin", "Admin \"" + reply.data.username + "\" created successfully!")
      ensures reply.NotOk? ==>
        users == old(users) && newAdmin == old(newAdmin) && success == NoNotice
        && error == Notice("admin", MessageOr(reply.message, "Failed to create admin."))
      ensures !loadingAction
    {
      loadingAction := true;
      ClearMessages();
      request := RegisterRequest(newAdmin.username, newAdmin.email, newAdmin.password, "admin");
      if reply.Ok? {
        success := Notice("admin", "Admin \"" + reply.data.username + "\" created successfully!");
        users := users + [reply.data];
        newAdmin := EmptyAdminForm;
      } else {
        error := Notice("admin", MessageOr(reply.message, "Failed to create admin."));
      }
      loadingAction := false;
    }

    /** `handleCreateSingleSlot`: sends the slot number; on success adds
        exactly the returned slot, keeps the list in collation order and
        clears the input. */
    method CreateSingleSlot(reply: Reply<Slot>) returns (slotNumberSent: string)
      requires Valid() && isAuthChecked
      modifies this`slots, this`singleSlot, this`loadingAction, this`error, this`success
      ensures Valid()
      ensures slotNumberSent == old(singleSlot)
      ensures reply.Ok? ==>
        multiset(slots) == multiset(old(slots)) + multiset{reply.data} && singleSlot == "" && error == NoNotice
        && success == Notice("single_slot", "Slot \"" + reply.data.slotNumber + "\" created!")
      ensures reply.NotOk? ==>
        slots == old(slots) && singleSlot == old(singleSlot) && success == NoNotice
        && error == Notice("single_slot", MessageOr(reply.message, "Failed to create slot."))
      ensures !loadingAction
    {
      loadingAction := true;
      ClearMessages();
      slotNumberSent := singleSlot;
      if reply.Ok? {
        success := Notice("single_slot", "Slot \"" + reply.data.slotNumber + "\" created!");
        var sorted := SortBySlotNumber(slots + [reply.data], collate, BySlotNumber(collate));
        slots := sorted;
        singleSlot := "";
      } else {
        error := Notice("single_slot", MessageOr(reply.message, "Failed to create slot."));
      }
      loadingAction := false;
    }

    /** The prefix input upper-cases what is typed. */
    method EditBulkPrefix(text: string)
      modifies this`bulkSlots
      ensures bulkSlots == old(bulkSlots).(prefix := ToUpper(text))
    {
      bulkSlots := bulkSlots.(prefix := ToUpper(text));
    }

    /** `handleCreateBulkSlots`. `created` is the `created` array of the
        reply; `refetch` is the body of the follow-up `/admin/slots` call,
        which the page sorts without checking `ok`: None stands for a body
        that is not a list, and `sortFailure` for the engine's message when
        sorting it throws. */
    method CreateBulkSlots(reply: Reply<seq<Slot>>, refetch: Option<seq<Slot>>, sortFailure: string)
      returns (request: BulkRequest)
      requires Valid() && isAuthChecked
      modifies this`slots, this`bulkSlots, this`loadingAction, this`error, this`success
      ensures Valid()
      ensures request == BulkRequest(old(bulkSlots).prefix, ToNumber(old(bulkSlots).startNumber), ToNumber(old(bulkSlots).count))
      ensures reply.Ok? ==>
        bulkSlots == InitialBulkForm
        && success == Notice("bulk_slots", NatToString(|reply.data|) + " slots created successfully.")
      ensures reply.Ok? && refetch.Some? ==>
        multiset(slots) == multiset(refetch.value) && error == NoNotice
      ensures reply.Ok? && refetch.None? ==>
        slots == old(slots) && error == Notice("bulk_slots", sortFailure)
      ensures reply.NotOk? ==>
        slots == old(slots) && bulkSlots == old(bulkSlots) && success == NoNotice
        && error == Notice("bulk_slots", MessageOr(reply.message, "Failed to create slots."))
      ensures !loadingAction
    {
      loadingAction := true;
      ClearMessages();
      request := BulkRequest(bulkSlots.prefix, ToNumber(bulkSlots.startNumber), ToNumber(bulkSlots.count));
      if reply.Ok? {
        success := Notice("bulk_slots", NatToString(|reply.data|) + " slots created successfully.");
        bulkSlots := InitialBulkForm;
        if refetch.Some? {
          var sorted := SortBySlotNumber(refetch.value, collate, BySlotNumber(collate));
          slots := sorted;
        } else {
          error := Notice("bulk_slots", sortFailure);
        }
      } else {
        error := Notice("bulk_slots", MessageOr(reply.message, "Failed to create slots."));
      }
      loadingAction := false;
    }

    /** A row's delete button: a disabled button does nothing. */
    method SelectForDeletion(item: DeleteItem)
      requires Valid() && isAuthChecked
      modifies this`itemToDelete
      ensures DeleteOffered(item, currentUser.value) ==> itemToDelete == Some(item)
      ensures !DeleteOffered(item, currentUser.value) ==> itemToDelete == old(itemToDelete)
    {
      if DeleteOffered(item, currentUser.value) {
        itemToDelete := Some(item);
      }
    }

    /** The dialog's Cancel button. */
    method CloseDeleteDialog()
      modifies this`itemToDelete
      ensures itemToDelete.None?
    {
      itemToDelete := None;
    }

    /** `handleDelete`: nothing happens without a selected item; otherwise
        a DELETE is sent, a success removes the items with that id from
        the list of its kind only, and the dialog is closed in every case. */
    method Delete(reply: Reply<()>) returns (path: Option<string>)
      requires Valid() && isAuthChecked
      modifies this`slots, this`users, this`itemToDelete, this`loadingAction, this`error, this`success
      ensures Valid()
      ensures old(itemToDelete).None? ==> path.None? && unchanged(this)
      ensures old(itemToDelete).Some? ==> path == Some(DeletePath(old(itemToDelete).value)) && itemToDelete.None? && !loadingAction
      ensures old(itemToDelete).Some? && reply.Ok? && old(itemToDelete).value.SlotItem? ==>
        slots == RemoveSlot(old(slots), old(itemToDelete).value.slot.id) && users == old(users)
      ensures old(itemToDelete).Some? && reply.Ok? && old(itemToDelete).value.UserItem? ==>
        users == RemoveUser(old(users), old(itemToDelete).value.user.id) && slots == old(slots)
      ensures old(itemToDelete).Some? && reply.Ok? ==>
        success == Notice("delete", DeletedMessage(old(itemToDelete).value)) && error == NoNotice
      ensures old(itemToDelete).Some? && reply.NotOk? ==>
        slots == old(slots) && users == old(users) && success == NoNotice
        && error == Notice("delete", MessageOr(reply.message, "Failed to delete " + KindOf(old(itemToDelete).value) + "."))
    {
      if itemToDelete.None? {
        return None;
      }
      loadingAction := true;
      ClearMessages();
      var item := itemToDelete.value;
      path := Some(DeletePath(item));
      if reply.Ok? {
        if item.SlotItem? {
          RemoveSlotSpec(slots, item.slot.id, BySlotNumber(collate));
          slots := RemoveSlot(slots, item.slot.id);
        } else {
          users := RemoveUser(users, item.user.id);
        }
        success := Notice("delete", DeletedMessage(item));
      } else {
        error := Notice("delete", MessageOr(reply.message, "Failed to delete " + KindOf(item) + "."));
      }
      loadingAction, itemToDelete := false, None;
    }
  }
}
