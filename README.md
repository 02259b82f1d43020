# Parking lot front end: a Dafny model of the page logic

The repository is a Next.js front end for a parking-lot booking service. A
remote REST API does the real work. The pages carry a small amount of logic
of their own, and this project models it:

- **Home page slot grid** (`home.dfy`, module `HomePage`):
  - the "natural" slot-number order: the first `/[A-Z]+|\d+/` match is
    compared as a string, then `parseInt` of the second match;
  - the occupancy counters;
  - the four-way click dispatcher;
  - the booking request window;
  - the lookup of the user's active booking behind a slot before it is
    cancelled.
- **Booking history** (`history.dfy`, module `History`):
  - newest-first order;
  - the split into active, upcoming and past buckets at an instant `now`;
  - the "mark CANCELLED by id" update;
  - the cancellable predicate.
- **Admin dashboard** (`admin.dfy`, module `Admin`):
  - the role gate;
  - an all-or-nothing load of slots, bookings and users;
  - statistics and the role filter;
  - creating admins, single slots and bulk slots;
  - deleting slots and users by `_id`, and the rules that disable a delete.
- **Slot card component** (`slot_card.dfy`, module `SlotCardView`):
  - a local booked/available state with book and cancel transitions;
  - the three-way display decision.
- **Older slot page** (`dashboard.dfy`, module `LegacyDashboard`): append,
  replace by `_id` and remove by `_id`.
- **Login / sign-up form** (`auth.dfy`, module `AuthPage`):
  - the two modes;
  - endpoint and payload selection;
  - the username check before any request.

`common.dfy` (module `Common`) holds what the pages share:

- the records the API returns (`Slot`, `Booking`, `User`);
- a response (`Reply`: `Ok(data)` or `NotOk(message)`);
- the JavaScript value rules the logic depends on: `x || fallback`, `null`
  versus `undefined`, string `<`, ASCII `toUpperCase`, `Number` on digit
  text;
- `Array.prototype.filter`, with its lemmas.

`sorting.dfy` (module `Sorting`) models `Array.prototype.sort` as an
in-place insertion sort on an array driven by an integer comparator. A
comparator result of NaN counts as 0.

Every page component whose state changes step by step is a class. Its
fields are the component's `useState` variables. Each handler is a method
whose `modifies` clause names the fields it may change. The methods take the network
replies as parameters, one per `fetch`, along with the instant `now` and
the browser storage as a map from key to decoded record. Results of the
handlers that the page sends out or shows are returned: the request, the
redirect target, the toast or alert text, and whether the page fetches
its list again. The class invariants say:

- the home grid stays in slot order and the booking duration within the
  slider's range 1..6;
- the history stays newest first;
- the admin slot list stays in collation order, the admin booking list
  stays newest first, and a page past the gate belongs to an admin.

Behaviour of the code worth noting:

- **Slot-number fallback.** A slot number with no letter or digit run is
  keyed as `("", 0)`, not compared as plain text. A number with letters
  only compares equal (NaN) to every slot number with the same letters.
- **Duration.** No handler rejects a duration outside 1..6 hours. Only the
  slider bounds it (`Home.SetBookingHours`). The window is
  `hours * 3600000` ms.
- **Cancelling a cancelled booking.** The history page does not check the
  status when cancelling. Only the button is hidden, for a booking that is
  not cancellable.
- **Deleting an occupied slot.** The admin page does not fail with an
  error. The delete button is disabled, and `Admin.AdminPage.SelectForDeletion`
  ignores such a click.
- **Replace by `_id`.** The admin page never replaces a slot or user by
  `_id`. Its lists are appended to, re-sorted, refetched or filtered. Only
  the older slot page replaces by `_id`.
- **Status spelling.** The home page looks for status `"booked"` in lower
  case. The history page upper-cases the status and compares it with
  `"BOOKED"`.

## Model

| member | source | states |
|---|---|---|
| Common.MessageOr | src/app/page.js:146 | `data.message \|\| fallback`: a present non-empty message wins, otherwise the fallback |
| Common.Filter | src/app/admin/page.js:146 | the result is no longer than the list; its contents and order are stated by `FilterCount`, `FilterMembers` and `FilterEmbeds` |
| Common.FilterCount | src/app/admin/page.js:146 | filtering keeps each satisfying element with its multiplicity and drops the rest |
| Common.FilterMembers | src/app/admin/page.js:146 | an element is in the result iff it is in the list and satisfies the predicate |
| Common.FilterEmbeds | src/app/admin/page.js:146 | the result keeps the list's order |
| Common.FilterIdempotent | src/app/dashboard/page.js:100 | filtering twice by the same predicate is filtering once |
| Common.StrLessTotal | src/app/page.js:59-60 | JavaScript string `<` is total on distinct strings |
| Common.StrLessTransitive | src/app/page.js:59-60 | JavaScript string `<` is transitive |
| Common.ToUpper | src/app/history/page.js:97 | `toUpperCase` maps each character through the ASCII upper-casing and keeps the length |
| Common.NatToString | src/app/admin/page.js:233-236 | the decimal text of a number consists of digits and reads back as that number |
| Sorting.AdjacentSortedIsSorted | src/app/history/page.js:73-75 | for a transitive comparator, neighbours in order means every pair in order |
| Sorting.FilterKeepsSorted | src/app/admin/page.js:277 | a subsequence of a sorted list is sorted |
| Sorting.InsertAt | src/app/page.js:56 | one insertion step moves the element at `i` into the sorted prefix: a permutation with positions 0..i in neighbour order and every later position untouched |
| Sorting.SortInPlace | src/app/page.js:56-62 | sorting an array permutes it and leaves every neighbour pair with comparator result <= 0 |
| Sorting.SortedCopy | src/app/history/page.js:73-75 | a sorted copy is a permutation with every neighbour pair in order |
| HomePage.RunLength | src/app/page.js:57 | the length of the longest prefix in one character class of the pattern, and the next character is outside it |
| HomePage.MatchStart | src/app/page.js:57 | the first match starts at the first upper-case letter or digit: nothing before it is one, and it is one unless it is the end |
| HomePage.Tokens | src/app/page.js:57 | every match of `/[A-Z]+\|\d+/g` is non-empty and all letters or all digits |
| HomePage.NoMatch | src/app/page.js:57-58 | there is no match iff the slot number has no upper-case letter and no digit |
| HomePage.FirstMatch | src/app/page.js:57 | when there is one, the first match is the maximal run of one class starting at the first upper-case letter or digit |
| HomePage.MatchesAfterFirst | src/app/page.js:57 | the matches are the first match followed by the matches of the text right after it |
| HomePage.SeparatedKey | src/app/page.js:57-61 | a separator between letters and digits is skipped: "A-12" has matches "A" and "12" and the key ("A", 12) |
| HomePage.ParseInt | src/app/page.js:61 | `parseInt` of a match is a number iff it starts with a digit, and is then non-negative; on all-digit text it is the decimal value |
| HomePage.KeyOfSpec | src/app/page.js:57-58 | the key is the first match and `parseInt` of the second (NaN without one), or ("", 0) without any match; its number is non-negative and its letter part homogeneous |
| HomePage.CompareSpec | src/app/page.js:56-62 | different letter runs give -1 or 1 by string order; equal ones give the difference of the numbers, NaN iff one is NaN |
| HomePage.SlotOrderAntisymmetric | src/app/page.js:56-62 | swapping the two slots flips the sign of the comparator result, NaN counting as 0 |
| HomePage.PrefixBeatsNumber | src/app/page.js:59-60 | "A9" sorts before "B1" and "B1" after "A9": the letter run decides first |
| HomePage.NumberByValue | src/app/page.js:61 | equal letter runs compare by numeric value: "A2" against "A10" gives -8 |
| HomePage.TokensOfLetterDigit | src/app/page.js:57-61 | a letter run followed by a digit run has exactly those two matches and the key (letters, value of digits) |
| HomePage.FallbackKey | src/app/page.js:57-58 | a slot number without upper-case letters or digits gets the fallback key ("", 0) |
| HomePage.LetterOnlyComparesEqual | src/app/page.js:58-61 | "A" against "A1" gives NaN, which the sort treats as equal |
| HomePage.SortedLetterRuns | src/app/page.js:56-62 | in the sorted grid no letter run is followed by a smaller one, whatever the numbers |
| HomePage.SortedNumbers | src/app/page.js:61 | in the sorted grid, the slots of a letter run whose members all carry a number follow their numeric order, whatever other runs hold |
| HomePage.SortSlots | src/app/page.js:56-62 | sorting the fetched array permutes it into slot order |
| HomePage.SortedSlots | src/app/page.js:56-64 | the grid list is a permutation of the fetched list, in slot order |
| HomePage.Stats | src/app/page.js:82-87 | `total` is the length, `occupied` the number of occupied positions, and `available + occupied == total` |
| HomePage.OccupiedIndices | src/app/page.js:83 | `filter(s => s.isOccupied).length` equals the number of occupied positions |
| HomePage.OccupyingLowersAvailable | src/app/page.js:82-87 | occupying a free slot lowers `available` by one and keeps `total` |
| HomePage.IsMySlot | src/app/page.js:97 | "mine" implies occupied; with no session it means occupied by an occupant without id; with a session user having an id, occupied by that id |
| HomePage.ClickActionFor | src/app/page.js:96-116 | cancel dialog iff my slot; ignored iff the button is disabled; login iff free and logged out; booking iff free and logged in |
| HomePage.ClickIgnoredIffDisabled | src/app/page.js:96-116 | a click is ignored exactly on a disabled button, and only a free slot opens the login or booking dialog |
| HomePage.AnonymousOwnsUnattributedSlot | src/app/page.js:97 | with no session, an occupied slot whose occupant has no id opens the cancel dialog |
| HomePage.BookingRequestFor | src/app/page.js:120-141 | the request starts at `now`, lasts `hours * 3600000` ms, names the selected slot and carries the token |
| HomePage.ActiveFor | src/app/page.js:175 | an active booking is for that slot; status "BOOKED" or "cancelled" is never active, because the comparison is with lower-case "booked" only |
| HomePage.FindActiveBooking | src/app/page.js:174-177 | None iff no booking is for the slot with status "booked"; otherwise the first such booking |
| HomePage.Home.constructor | src/app/page.js:25-42 | the initial state: empty grid, loading, no session, all dialogs closed, one hour |
| HomePage.Home.RestoreSession | src/app/page.js:72-80 | a stored "user" logs the page in with that user; without one nothing changes |
| HomePage.Home.Logout | src/app/page.js:89-94 | the "user" entry is removed and every other entry kept; the page is logged out and goes to "/auth" |
| HomePage.LogoutThenReload | src/app/page.js:72-94 | restoring the session from the storage a logout left leaves the page logged out |
| HomePage.Home.FetchSlots | src/app/page.js:46-70 | success replaces the grid by a permutation of the fetched list in slot order; failure keeps it and sets the error text |
| HomePage.Home.ClickSlot | src/app/page.js:96-116 | opens the cancel dialog for my slot, ignores other occupied slots, and opens login when logged out or booking with one hour when logged in |
| HomePage.Home.SetBookingHours | src/app/page.js:429-437 | the slider sets the duration, within 1..6 |
| HomePage.Home.BookSlot | src/app/page.js:118-158 | no slot or no token sends nothing and changes nothing; otherwise the request window is sent; success shows the details and fetches the slots again, failure the server's message or the fallback |
| HomePage.Home.CancelFromSlot | src/app/page.js:160-204 | no slot or no token does nothing; a failed list, or no active booking, sets its error and cancels nothing; otherwise the first active booking is cancelled; success closes the dialog, alerts "Booking cancelled successfully!" and fetches the slots again, and no other path alerts or refetches |
| History.NewestFirstIsTotalPreorder | src/app/history/page.js:73-75 | the createdAt comparator is sign-antisymmetric and transitive |
| History.SortedNewestFirst | src/app/history/page.js:73-75 | a list in that order has non-increasing creation instants |
| History.SortNewestFirst | src/app/history/page.js:73-75 | the sorted list is a permutation of the fetched list, newest first |
| History.Categorize | src/app/history/page.js:87-111 | the loop's three lists are exactly the category buckets of the list, in order |
| History.BucketAppend | src/app/history/page.js:93-108 | appending a booking extends its own bucket only |
| History.BucketsPartition | src/app/history/page.js:93-110 | a booking is in a bucket iff that is its category; the bucket multisets add up to the list; the lengths add up to its length |
| History.BucketsKeepOrder | src/app/history/page.js:93-110 | each bucket keeps the list's order |
| History.IsCancellable | src/app/history/page.js:154 | "booked", "BOOKED" and "Booked" are cancellable (case-insensitive); a status of any length other than 6 is not |
| History.CategoryOf | src/app/history/page.js:97-106 | active iff cancellable and start <= now <= end; upcoming iff cancellable and now < start; past iff not cancellable or after the window |
| History.NotCancellableIsPast | src/app/history/page.js:97-98 | a booking whose status is not BOOKED is past at every instant |
| History.BookedByTime | src/app/history/page.js:100-106 | a BOOKED booking is active iff start <= now <= end, upcoming iff now < start, past iff end < now |
| History.OneActiveBooking | src/app/history/page.js:87-111 | one BOOKED booking from an hour before to an hour after `t` is the only active one at `t` |
| History.MarkCancelled | src/app/history/page.js:138-142 | same length; a matching id gets status "CANCELLED", every other booking is unchanged |
| History.CancelledIsFinal | src/app/history/page.js:138-142 | after the update the cancelled booking is not cancellable and is past; others are unchanged |
| History.MarkCancelledIdempotent | src/app/history/page.js:138-142 | applying the update twice is applying it once |
| History.MarkCancelledKeepsOrder | src/app/history/page.js:138-142 | the update keeps the newest-first order |
| History.HistoryPage.constructor | src/app/history/page.js:39-46 | the initial state: no bookings, loading, no error, no session, dialog closed |
| History.HistoryPage.Mount | src/app/history/page.js:50-85 | no stored user redirects to "/auth" with nothing changed; otherwise the bookings become the fetched list newest first, or the error text is set |
| History.HistoryPage.SelectForCancel | src/app/history/page.js:113-116 | the booking is selected and the dialog opened |
| History.HistoryPage.CancelBooking | src/app/history/page.js:118-151 | no booking or no token sends nothing; success marks the booking cancelled and closes the dialog; failure alerts "Error: " and the message |
| Admin.BySlotNumberOk | src/app/admin/page.js:114-116 | a total-preorder collation gives a sign-antisymmetric, transitive slot comparator |
| Admin.SortBySlotNumber | src/app/admin/page.js:114-116 | the sorted list is a permutation in which every pair is in collation order |
| Admin.StatsOf | src/app/admin/page.js:134-142 | `available + occupied == total` slots, `occupied` counts occupied slots, `totalBookings` is the number of bookings |
| Admin.FilterUsers | src/app/admin/page.js:144-147 | "all" returns the users; any other filter returns exactly the users of that role, with multiplicities and in order |
| Admin.RemoveSlot | src/app/admin/page.js:277 | a slot is in the result iff it is in the list with a different id; no longer than the list |
| Admin.RemoveUser | src/app/admin/page.js:283 | a user is in the result iff it is in the list with a different id; no longer than the list |
| Admin.RemoveSlotSpec | src/app/admin/page.js:277 | removal drops exactly the slots with that id, keeps the rest in order, and keeps a sorted list sorted |
| Admin.RemoveUserSpec | src/app/admin/page.js:283 | removal drops exactly the users with that id and keeps the rest in order |
| Admin.ToNumber | src/app/admin/page.js:226-227 | an untouched input keeps its number and "" converts to 0 |
| Admin.ToNumberOfText | src/app/admin/page.js:226-227 | the decimal text of a number converts back to it |
| Admin.ToNumberNotDigits | src/app/admin/page.js:226-227 | text with a non-digit converts to NaN |
| Admin.DeletePath | src/app/admin/page.js:260-264 | a slot is deleted at "/admin/slots/" + id, a user at "/admin/users/" + id |
| Admin.DeleteOffered | src/app/admin/page.js:567 | a slot's delete is offered iff it is free; a user's iff it is not the signed-in admin (also admin/page.js:811) |
| Admin.DeletedMessage | src/app/admin/page.js:280-286 | the notice ends in " has been deleted." and starts with "Slot " and the slot number, or "User " and the username |
| Admin.AdminPage.constructor | src/app/admin/page.js:44-69 | the initial state: no user, not checked, empty lists, filter "all", empty forms and the bulk defaults (1, 10) |
| Admin.AdminPage.CheckAuth | src/app/admin/page.js:74-87 | no stored user redirects to "/auth", a non-admin to "/", both with no change; an admin is admitted |
| Admin.AdminPage.LoadAll | src/app/admin/page.js:89-132 | before the gate nothing happens; all three replies ok replaces the lists, sorted; any failure sets one "data" error and keeps the lists |
| Admin.AdminPage.SelectUserFilter | src/app/admin/page.js:747-750 | a tab sets the filter |
| Admin.AdminPage.ClearMessages | src/app/admin/page.js:149-152 | both notices are cleared |
| Admin.AdminPage.CreateAdmin | src/app/admin/page.js:154-178 | the form is sent with role "admin"; success appends the returned user and clears the form; failure keeps both |
| Admin.AdminPage.CreateSingleSlot | src/app/admin/page.js:180-211 | success adds exactly the returned slot, keeps collation order and clears the input; failure keeps the list |
| Admin.AdminPage.EditBulkPrefix | src/app/admin/page.js:444-448 | the prefix input stores what is typed, upper-cased |
| Admin.AdminPage.CreateBulkSlots | src/app/admin/page.js:213-253 | the request carries `Number` of both inputs; success resets the form to ("", 1, 10) and replaces the list by the refetched one, sorted, whose `ok` is not checked |
| Admin.AdminPage.SelectForDeletion | src/app/admin/page.js:555-567 | the dialog opens only for a free slot or another user's row |
| Admin.AdminPage.CloseDeleteDialog | src/app/admin/page.js:851 | the dialog's Cancel clears the selection |
| Admin.AdminPage.Delete | src/app/admin/page.js:255-295 | nothing without a selection; success removes the items with that id from the list of its kind only; the selection is cleared on every path |
| SlotCardView.BookingIdText | src/components/SlotCard.js:24 | `bookingId \|\| ""` |
| SlotCardView.RequestFor | src/components/SlotCard.js:21-27 | POST iff booking, a body with the slot id iff booking, and the URL starts with the bookings URL |
| SlotCardView.RequestShape | src/components/SlotCard.js:21-27 | book POSTs the slot id to /api/bookings; cancel DELETEs /api/bookings/ + the booking id or "", with no body |
| SlotCardView.AfterSuccess | src/components/SlotCard.js:44-49 | id and number are kept; available iff cancelled; a booking takes the booking id and the user id, a cancel clears both to null |
| SlotCardView.SuccessText | src/components/SlotCard.js:42 | the booked text iff booking, the canceled text iff cancelling |
| SlotCardView.ViewOf | src/components/SlotCard.js:100-128 | Book iff available; Cancel iff booked by `user?.id`; "booked by another user" otherwise; Book is disabled iff processing; Cancel is disabled iff processing or the booking id is falsy |
| SlotCardView.BookedCardOffersCancel | src/components/SlotCard.js:44-49 | after one's own booking the card shows Cancel, enabled iff a booking id came back |
| SlotCardView.CancelledCardOffersBook | src/components/SlotCard.js:44-49 | after a cancel the card shows an enabled Book |
| SlotCardView.CancelTargetsOwnBooking | src/components/SlotCard.js:21-27 | a cancel after one's own booking deletes that booking |
| SlotCardView.UnattributedCardShowsCancel | src/components/SlotCard.js:112 | a booked card without `bookedBy` shows Cancel to a visitor who is not logged in |
| SlotCardView.SlotCard.constructor | src/components/SlotCard.js:9-12 | the card starts with the given slot, idle |
| SlotCardView.SlotCard.StartAction | src/components/SlotCard.js:14-30 | no user: an error toast and no change; otherwise busy, with the action's request |
| SlotCardView.SlotCard.FinishAction | src/components/SlotCard.js:36-57 | success sets exactly the action's fields, toasts and notifies the parent; failure keeps the slot; idle afterwards |
| SlotCardView.BookThenCancel | src/components/SlotCard.js:14-57 | booking a free card then cancelling it shows Cancel, then Book |
| LegacyDashboard.ReplaceById | src/app/dashboard/page.js:72-76 | the length is unchanged |
| LegacyDashboard.ReplaceByIdSpec | src/app/dashboard/page.js:72-76 | positions with the edited id get the server's record; others are unchanged |
| LegacyDashboard.ReplaceByIdIdempotent | src/app/dashboard/page.js:72-76 | replacing twice is replacing once when the record keeps its id |
| LegacyDashboard.RemoveById | src/app/dashboard/page.js:100 | a slot is in the result iff it is in the list with a different id; no longer than the list |
| LegacyDashboard.RemoveByIdSpec | src/app/dashboard/page.js:100 | removal drops exactly the slots with that id and keeps the rest in order |
| LegacyDashboard.RemoveAfterReplace | src/app/dashboard/page.js:72-100 | deleting after updating is deleting |
| LegacyDashboard.AppendSpec | src/app/dashboard/page.js:47 | a created slot is last, and only it is added |
| LegacyDashboard.Dashboard.constructor | src/app/dashboard/page.js:21-24 | empty list, empty inputs, not editing |
| LegacyDashboard.Dashboard.Load | src/app/dashboard/page.js:27-31 | success sets the list; failure toasts "Failed to fetch slots" |
| LegacyDashboard.Dashboard.CreateSlot | src/app/dashboard/page.js:34-53 | success appends the returned slot and clears the input; failure keeps the list and toasts the message, "" when it is missing |
| LegacyDashboard.Dashboard.UpdateSlot | src/app/dashboard/page.js:56-81 | success replaces by the edited id and leaves edit mode; failure keeps everything and toasts "data.message" |
| LegacyDashboard.Dashboard.DeleteSlot | src/app/dashboard/page.js:84-105 | success removes the slots with that id; failure keeps the list |
| LegacyDashboard.Dashboard.StartEdit | src/app/dashboard/page.js:164-167 | edit mode for the slot, pre-filled with its number |
| LegacyDashboard.Dashboard.CancelEdit | src/app/dashboard/page.js:156 | edit mode ends |
| AuthPage.WithField | src/app/auth/page.js:96-99 | the named field takes the value; the other two are unchanged |
| AuthPage.FieldEditsCommute | src/app/auth/page.js:96-99 | edits of different fields commute; a second edit of a field overrides the first |
| AuthPage.RequestFor | src/app/auth/page.js:107-116 | "/auth/login" with email and password iff in login mode; otherwise "/auth/register" with the username too |
| AuthPage.SuccessText | src/app/auth/page.js:141-143 | the welcome-back text iff login mode, the account-created text iff sign-up |
| AuthPage.LoginIgnoresUsername | src/app/auth/page.js:110-111 | the login request does not depend on the username |
| AuthPage.AuthForm.constructor | src/app/auth/page.js:82-92 | login mode, empty form, no messages |
| AuthPage.AuthForm.InputChange | src/app/auth/page.js:96-99 | only the named field changes |
| AuthPage.AuthForm.Submit | src/app/auth/page.js:101-157 | a sign-up without a username sends nothing; success stores the user, shows the mode's text, goes to "/" and ends in login mode, with a cleared form after a sign-up; failure shows the message or "Something went wrong" |
| AuthPage.AuthForm.ToggleMode | src/app/auth/page.js:159-164 | the other mode, no messages, a cleared form |
| AuthPage.SignUpThenLogin | src/app/auth/page.js:96-164 | an accepted sign-up ends in login mode with the user stored and the form cleared |

## Left out

- **Network.** All `fetch` calls, HTTP headers and the bearer token in
  `Authorization` are left out. Each call is one `Reply` parameter. A body
  that is not JSON (`response.json()` throwing) is not modelled. The
  `.catch(() => ({}))` of the admin page is the same as a missing message.
- **Browser and presentation.** `localStorage` is a map parameter;
  `JSON.parse` of a malformed entry is not modelled. Routing is modelled
  only as the returned redirect path. `alert` and the toasts are returned
  texts. JSX, styling, the QR image and date formatting are left out.
- **Clock.** `handleBookSlot` reads the clock twice (`new Date()` and
  `Date.now()`); the model reads it once, as `now`. The history page reads
  `new Date()` inside a `useMemo` that depends only on `bookings`
  (src/app/history/page.js:86-111). Its buckets therefore keep the instant
  of the last change to the list and go stale as time passes, while
  `History.Categorize` takes `now` as a free parameter. ISO date strings
  are integer milliseconds.
- **Intermediate states.** The `loading` / `isSubmitting` flags are
  modelled as the value each handler leaves behind. A render during an
  in-flight request, two requests in flight, or a request that never
  answers are not modelled.
- **Stale spread.** The admin page writes `setLoading({ ...loading, … })`
  with a stale closure. The model keeps the two flags as separate fields.
- **Collation.** ICU `localeCompare(…, { numeric: true })` is the
  constructor parameter `collate` of `Admin.AdminPage`, taken to be a total
  preorder. Its actual order on slot numbers is not modelled.
- **Engine sort.** The engine's sort algorithm is modelled as insertion
  sort. Only stability-independent facts are stated: a permutation, and
  order.
- HomePage.SortSlots: once NaN keys occur (letter-only slot numbers) the
  home comparator is not consistent, and ECMAScript leaves the result of
  `sort` with such a comparator implementation-defined. The neighbour
  order of `SortSlots`, `SortedSlots` and the `Home` invariant is a fact
  about the modelled insertion sort, not about every engine. The order of
  every pair is proved for letter runs (`HomePage.SortedLetterRuns`), and
  for numbers within each letter run whose slot numbers all carry one
  (`HomePage.SortedNumbers`).
- HomePage.ParseInt: models `parseInt` only on the matches the pattern
  produces, which carry no sign, blank or prefix. It returns an unbounded
  integer: JavaScript's double loses precision beyond 2^53 and gives
  Infinity for a run of more than about 309 digits, where two such numbers
  can compare equal (or NaN, for Infinity minus Infinity). `Compare`
  subtracts unbounded integers likewise.
- Admin.ToNumber: models `Number` only on digit text, "" and the initial
  numbers. Signs, blanks, decimals and exponents give NaN in the model.
- Common.ToUpper: upper-cases ASCII letters only. Other characters
  `toUpperCase` would change are kept.
- Common.StrLess: compares code points, which agree with JavaScript's UTF-16
  code units on the characters the model compares (outside the surrogate
  range).
- **Slot card phases.** `SlotCardView.SlotCard` splits `handleAction` into
  `StartAction` (up to the request) and `FinishAction` (the reply). The
  error toast of a parent callback that throws is not modelled.
- **Bulk refetch.** `Admin.AdminPage.CreateBulkSlots` takes the refetched
  body as a list or None. None stands for a body that is not a list, and
  the error text of the sort that throws on it is a parameter.
- **Other files.** `src/context/AuthContext.js`, `src/app/auth/register/page.js`,
  `src/app/bookings/page.js` and `src/components/Navbar.js` are not part of
  this model: they only wrap storage, send a hard-coded payload, or render.
- **Admin tabs.** The tab, password visibility and form inputs of the
  admin page are not modelled as operations. The exception is the bulk
  prefix, which upper-cases.
