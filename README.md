# Building management app — a Dafny model of its page logic

The application manages residential buildings through a handful of React
pages backed by a hosted table store and a hosted OTP login service. This
project models the logic those pages run between a load and a write:

- **Bills** (`src/pages/BillsPage.tsx`). Monthly bill generation covers
  which units and charges qualify, the duplicate check, the bill record
  built for each unit and its due date. Also modelled: payment recording,
  the bill list filter, its statistics and its order.
- **Announcements** (`src/pages/AnnouncementsPage.tsx`). Saving a draft or a
  published announcement, publishing and archiving a stored one, the
  notifications a publication fans out to, and the list filter and
  statistics.
- **Notifications** (`src/pages/NotificationsPage.tsx`). The inbox of the
  signed-in user: loading, marking one or all read, deleting one or all
  read, clicking, the unread tab and the unread count.
- **Charges** and **Costs** (`src/pages/ChargesPage.tsx`,
  `src/pages/CostsPage.tsx`). The form, the record it saves, the list
  filters, the totals and the list order.
- **Managers** (`src/pages/ManagersPage.tsx`). The managers on offer, the
  building search, the assigned / unassigned split, and assigning and
  unassigning a manager.
- **Dashboard** (`src/pages/DashboardPage.tsx`). The loaded counts, the
  occupancy rate and vacancy, and the statistic cards each role sees.
- **Layout** (`src/components/AppLayout.tsx`). The sidebar menu's role table
  and visibility rule, the unread count behind the bell, and the badge text.
- **Session** (`src/store/auth-store.ts`). The session store: who is signed
  in and with which role.

Backend reads are parameters: the loaded lists. Backend writes are results:
each handler returns the record or records it sends, and the store's effect
of a field update is a separate function where a property needs it. The
session store and the notification inbox keep state that their operations
update in place. They are classes (`Session.AuthStore`,
`Notifications.Inbox`) whose methods state the new state. Everything else in
the source computes values, and is written as functions and lemmas.

Modules: `Collections` holds the `filter` / `reduce` / `find` / `map`
combinators with their facts. `Text` holds the string and date helpers
standing in for `trim`, `toLowerCase`, `includes`, `substring`,
`split('@')`, `localeCompare` and `Date` fields. `Sorting` is the stable
comparator sort. Then there is one module per page, plus `Session` and
`Layout`.

## Model

| member | source | states |
|---|---|---|
| Session.AuthStore.constructor | src/store/auth-store.ts:25-26 | nobody is signed in and the flag is false, which satisfies the invariant `isAuthenticated <==> user != null` |
| Session.AuthStore.Login | src/store/auth-store.ts:28-39 | a verified login stores the service's uid and email with the role picked on the form and sets the flag; a failed verification changes nothing; the invariant is kept |
| Session.SignedInUser | src/store/auth-store.ts:30-36 | the stored user has the service's uid and email and the chosen role; the service's name when it has one; otherwise the typed email's text before its first '@', or the whole email when it has no '@' |
| Session.AuthStore.Logout | src/store/auth-store.ts:41-47 | a completed sign-out clears the user and the flag; a sign-out that threw changes nothing |
| Session.AuthStore.UpdateUserRole | src/store/auth-store.ts:49-53 | only the role of a signed-in user changes; with nobody signed in the user stays empty; the flag and the invariant are kept |
| Session.RoleName | src/store/auth-store.ts:5 | each role is one of the three strings the pages compare against |
| Text.LowerChar | src/pages/ManagersPage.tsx:158 | ASCII capitals map to the letter 32 code points on; every other character is kept |
| Text.Lower | src/pages/ManagersPage.tsx:158-160 | lower-casing keeps the length and maps each character through `LowerChar` |
| Text.BlankIsTrimmedEmpty | src/pages/AnnouncementsPage.tsx:109 | `!s.trim()`: a string is blank (all JavaScript whitespace) exactly when trimming both ends leaves the empty string |
| Text.ContainsIffOccurs | src/pages/ManagersPage.tsx:158-160 | `includes`: the needle occurs in the haystack exactly when it starts at some offset of it |
| Text.Take | src/pages/AnnouncementsPage.tsx:189 | `substring(0, n)` is a prefix of length min(\|s\|, n) |
| Text.BeforeAt | src/store/auth-store.ts:34 | the result is a prefix without '@', and is either the whole string or stops right at its first '@' |
| Text.StrGeqTotal | src/pages/BillsPage.tsx:527 | the period order compares any two strings |
| Text.StrGeqTransitive | src/pages/BillsPage.tsx:527 | the period order is transitive |
| Text.DigitChar | src/components/AppLayout.tsx:251 | a digit's character reads back as that digit |
| Text.Decimal | src/pages/BillsPage.tsx:231 | a number written zero-padded to a fixed width is that wide and all digits |
| Text.DecimalRoundTrip | src/pages/BillsPage.tsx:231 | reading back a number written to a width it fits gives the number |
| Text.DecimalValueBound | src/pages/BillsPage.tsx:209 | k digits stand for a number below 10^k |
| Sorting.SortBy | src/pages/BillsPage.tsx:527 | `sort` with a comparator returns a permutation of its input in which every element may stay ahead of every later one |
| Sorting.InsertPermutes | src/pages/BillsPage.tsx:527 | one insertion step adds exactly the inserted element |
| Sorting.InsertSorted | src/pages/BillsPage.tsx:527 | one insertion step into a sorted list under a total preorder keeps it sorted |
| Sorting.SortByKeepsElements | src/pages/BillsPage.tsx:527 | sorting keeps the length and the elements |
| Sorting.FilterKeepsSorted | src/pages/NotificationsPage.tsx:120 | filtering a sorted list keeps it sorted |
| Collections.Filter | src/pages/NotificationsPage.tsx:50 | `filter` keeps exactly the elements satisfying the test and is no longer than its input |
| Collections.FilterConcat | src/pages/BillsPage.tsx:177-221 | filtering distributes over concatenation |
| Collections.FilterAll | src/pages/AnnouncementsPage.tsx:301-305 | a test every element passes keeps the list whole |
| Collections.FilterSame | src/pages/ManagersPage.tsx:156-161 | two tests that agree everywhere filter alike |
| Collections.FilterFilter | src/pages/AnnouncementsPage.tsx:169-182 | two `filter` calls in a row keep the same elements, in the same order, as one filter by both tests |
| Collections.FilterNone | src/pages/NotificationsPage.tsx:141 | a test no element passes leaves nothing |
| Collections.FilterPartition | src/pages/ManagersPage.tsx:163-164 | a test and its negation split a list |
| Collections.Count | src/pages/NotificationsPage.tsx:195 | `filter(...).length` is at most the length |
| Collections.CountPermutation | src/components/AppLayout.tsx:59-61 | counting ignores order: lists with the same elements have equal counts |
| Collections.CountMono | src/pages/AnnouncementsPage.tsx:309-311 | a stronger test counts no more |
| Collections.CountDisjoint | src/pages/DashboardPage.tsx:43-44 | two exclusive tests count at most the length together |
| Collections.SumOfFront | src/pages/BillsPage.tsx:258 | a `reduce` sum splits off its first element |
| Collections.SumOfConcat | src/pages/CostsPage.tsx:235 | a `reduce` sum over two lists is the sum of their sums |
| Collections.SumOfFilterLe | src/pages/CostsPage.tsx:242 | with non-negative terms, summing a filtered list gives no more |
| Collections.SumOfNonNegative | src/pages/CostsPage.tsx:242 | non-negative terms sum to a non-negative total |
| Collections.Map | src/pages/NotificationsPage.tsx:73-75 | `map` keeps the length and applies the function at every index |
| Collections.Find | src/pages/NotificationsPage.tsx:62 | `find` returns the first element passing the test, and nothing exactly when none does |
| Bills.ParsePeriod | src/pages/BillsPage.tsx:209 | a "YYYY-MM" period reads as a year up to 9999 and a month 1..12; anything else is no month |
| Bills.FormatPeriod | src/pages/BillsPage.tsx:231 | the month picker's period text is seven characters |
| Bills.PeriodRoundTrip | src/pages/BillsPage.tsx:209-231 | a period written from a year and month reads back as that year and month |
| Bills.DueDate | src/pages/BillsPage.tsx:209 | the due date is the 5th of the month after the period, December rolling into January of the next year; none for an invalid period |
| Bills.DueDateUnique | src/pages/BillsPage.tsx:209 | that day is the only 5th, in a valid month, one month after the period |
| Bills.EligibleUnits | src/pages/BillsPage.tsx:146-148 | exactly the building's units that have a resident |
| Bills.ActiveCharges | src/pages/BillsPage.tsx:160-162 | exactly the building's charges whose flag is the string 'true' |
| Bills.UnitsToBill | src/pages/BillsPage.tsx:179-183 | exactly the eligible units no loaded bill covers for the period |
| Bills.UnitsToBillSnoc | src/pages/BillsPage.tsx:177-183 | one more unit adds itself unless a loaded bill covers it |
| Bills.Breakdown | src/pages/BillsPage.tsx:186-195 | the breakdown lists each active charge's type and amount, in order |
| Bills.ChargesTotal | src/pages/BillsPage.tsx:187-195 | the running `totalAmount` over the charges at face value: 0 without charges, never negative when no amount is |
| Bills.TotalMatchesBreakdown | src/pages/BillsPage.tsx:189-195 | a bill's total is the sum of its own breakdown's amounts |
| Bills.NewBills | src/pages/BillsPage.tsx:198-214 | one bill per unit to bill, in order |
| Bills.Generate | src/pages/BillsPage.tsx:132-221 | each exit in the handler's order, as an if-and-only-if: no building or no period; else no eligible unit; else no active charge; else an invalid period, exactly when some unit still needs a bill and the period has no due date. Otherwise one bill per unbilled eligible unit: period and building copied, resident set, total equal to the sum of the active charges at face value, breakdown of those charges, nothing paid, status 'pending', empty payment date and notes, due date that of the period |
| Bills.PriceCharges | src/pages/BillsPage.tsx:186-195 | the `forEach` loop builds the breakdown and the running total of the charges |
| Bills.GenerateBills | src/pages/BillsPage.tsx:132-221 | the handler's early returns and loop produce exactly the outcome of `Generate` |
| Bills.BillUnits | src/pages/BillsPage.tsx:177-221 | the loop skips each covered unit and adds the bill of every other one, in order |
| Bills.GenerateOnceReady | src/pages/BillsPage.tsx:173-221 | past the three early exits, generation yields the bills of the units still to bill |
| Bills.GenerateStep | src/pages/BillsPage.tsx:179-220 | one loop turn: `find` on the loaded bills succeeds exactly for a covered unit, which adds nothing; any other unit adds its bill at the end |
| Bills.GenerateIsIdempotent | src/pages/BillsPage.tsx:179-183 | once the reloaded bills contain every bill just made, generating again for the same period creates nothing |
| Bills.FreshPeriodBillsEveryOccupiedUnit | src/pages/BillsPage.tsx:146-220 | for a period no loaded bill mentions, every unit with a resident gets a bill, in the loaded order |
| Bills.PaymentStatus | src/pages/BillsPage.tsx:259-265 | 'paid' iff the new paid total reaches the total, 'partial' iff it is positive and short of it, 'pending' otherwise |
| Bills.RecordPayment | src/pages/BillsPage.tsx:247-274 | no write without a selected bill or an amount; otherwise paid amount plus the entered amount, the derived status, the new payment date only when paid, the new note only when non-empty |
| Bills.ApplyPayment | src/pages/BillsPage.tsx:267-274 | a payment write replaces the four fields and nothing else |
| Bills.PayOnce | src/pages/BillsPage.tsx:247-274 | one submitted payment leaves the total as it was, adds the entered amount to the paid amount and derives the status from it; an empty amount leaves the bill unchanged |
| Bills.PaymentsAccumulate | src/pages/BillsPage.tsx:257-274 | after successive payments the paid amount is the old one plus every amount entered, the total is unchanged, and the status is the one the paid amount derives |
| Bills.VisibleBills | src/pages/BillsPage.tsx:336-344 | a bill is listed iff it passes the building and status filters and, for a resident, is addressed to them |
| Bills.Stats | src/pages/BillsPage.tsx:347-349 | the pending figure is at most the number of bills listed |
| Bills.PendingCountsBoth | src/pages/BillsPage.tsx:349 | the pending figure is the 'pending' bills plus the 'overdue' bills |
| Bills.CollectedAtMostBilled | src/pages/BillsPage.tsx:347-348 | with no bill overpaid, the amount collected does not exceed the amount billed |
| Bills.LaterPeriodFirstIsTotalPreorder | src/pages/BillsPage.tsx:527 | the list comparator is a total preorder |
| Bills.DisplayOrder | src/pages/BillsPage.tsx:527 | the list shows the same bills, latest period first |
| Announcements.Lookup | src/pages/AnnouncementsPage.tsx:130 | the announcement carrying the id, or none exactly when no announcement carries it |
| Announcements.Message | src/pages/AnnouncementsPage.tsx:189 | content up to 100 characters is kept; longer content gives its first 100 characters and "...", 103 in all |
| Announcements.ResidentIds | src/pages/AnnouncementsPage.tsx:177-180 | exactly the non-empty resident ids of the building's units |
| Announcements.Recipients | src/pages/AnnouncementsPage.tsx:166-182 | the recipients are the loaded profiles that are targeted, in their loaded order and each as often as loaded: the role filter followed by the building filter is the single filter by `Targeted`; a profile is targeted iff it has the target role (any for 'all') and, with a building targeted, lives in one of its units |
| Announcements.FanOut | src/pages/AnnouncementsPage.tsx:185-194 | one notification per recipient, in order, to that recipient, of type 'announcement', linking to '/announcements', unread, with the title and the shortened message |
| Announcements.FanOutReachesExactly | src/pages/AnnouncementsPage.tsx:166-194 | a user receives a notification iff one of their profiles is targeted |
| Announcements.FanOutAllUnread | src/pages/AnnouncementsPage.tsx:191 | every notification of a fan-out counts as unread |
| Announcements.BroadcastReachesEveryProfile | src/pages/AnnouncementsPage.tsx:170-175 | targeting everyone with no building reaches every loaded profile, in order |
| Announcements.Submit | src/pages/AnnouncementsPage.tsx:109-148 | a blank title or content writes nothing; the record carries the form, the status and the author; `published_at` is set iff the status is 'published'; an edit keeps the stored creation time and owner when they are non-empty, and otherwise uses now and the signed-in user's uid; a new announcement is created now, owned by the signed-in user; notifications go out only for a new announcement saved as published |
| Announcements.StoreUpdate | src/pages/AnnouncementsPage.tsx:131-135 | an update replaces the fields it sends, and an absent `published_at` leaves the stored one |
| Announcements.OnlyNewPublishedFansOut | src/pages/AnnouncementsPage.tsx:129-148 | any notification from a save means it created a new announcement as published |
| Announcements.RedraftKeepsPublishedAt | src/pages/AnnouncementsPage.tsx:126-135 | saving a published announcement as a draft leaves a stored draft that still has its old `published_at` |
| Announcements.Publish | src/pages/AnnouncementsPage.tsx:216-233 | the stored announcement with status 'published' and a fresh `published_at`; its owner is the stored owner, or the signed-in user's uid when that is empty; every other field is kept; its fan-out goes with it; nothing for an unknown id |
| Announcements.Archive | src/pages/AnnouncementsPage.tsx:247-257 | the stored announcement with status 'archived'; its owner is the stored owner, or the signed-in user's uid when that is empty; every other field is kept; nothing for an unknown id |
| Announcements.Filtered | src/pages/AnnouncementsPage.tsx:301-305 | an announcement is listed iff it passes the status and the priority filter |
| Announcements.FilteredAllIsEverything | src/pages/AnnouncementsPage.tsx:301-305 | with both filters at 'all' the whole list is shown |
| Announcements.Stats | src/pages/AnnouncementsPage.tsx:307-312 | the total is the list's length, and neither the published nor the draft figure exceeds it |
| Announcements.StatsBounds | src/pages/AnnouncementsPage.tsx:307-312 | published plus drafts is at most the total, and urgent is at most published |
| Notifications.ForUser | src/pages/NotificationsPage.tsx:49-50 | exactly the loaded notifications addressed to the viewer |
| Notifications.NewerFirstIsTotalPreorder | src/pages/NotificationsPage.tsx:51 | the newest-first comparator is a total preorder |
| Notifications.LoadedInbox | src/pages/NotificationsPage.tsx:49-52 | the viewer's notifications, each kept, newest first |
| Notifications.LoadedInboxWellFormed | src/pages/NotificationsPage.tsx:44-52 | a loaded inbox is newest first, for one recipient, and holds exactly the viewer's notifications |
| Notifications.MarkRead | src/pages/NotificationsPage.tsx:73-75 | the item carrying the id is read, every other item is unchanged, the length is kept |
| Notifications.MarkReadUnknownId | src/pages/NotificationsPage.tsx:62-63 | an id that names no item changes nothing |
| Notifications.MarkReadIdempotent | src/pages/NotificationsPage.tsx:73-75 | marking the same item twice is marking it once |
| Notifications.MarkReadUnreadCount | src/pages/NotificationsPage.tsx:73-75 | the unread count drops by the number of unread items carrying the id |
| Notifications.MarkAllRead | src/pages/NotificationsPage.tsx:100 | every item becomes read, nothing else changes, the length is kept |
| Notifications.MarkAllReadClearsUnread | src/pages/NotificationsPage.tsx:100 | afterwards nothing is unread |
| Notifications.Without | src/pages/NotificationsPage.tsx:120 | exactly the items not carrying the id, in order |
| Notifications.WithoutCounts | src/pages/NotificationsPage.tsx:120 | kept and removed items add up to the list |
| Notifications.KeepUnread | src/pages/NotificationsPage.tsx:141 | exactly the items whose flag is 'false' |
| Notifications.ReadItems | src/pages/NotificationsPage.tsx:134 | exactly the items whose flag is 'true' |
| Notifications.DeleteAllReadPartition | src/pages/NotificationsPage.tsx:134-141 | with every flag 'true' or 'false', deleted and kept items make up the list and the unread count is unchanged |
| Notifications.Visible | src/pages/NotificationsPage.tsx:191-193 | the 'unread' tab shows exactly the unread items; any other tab shows the list |
| Notifications.UnreadCount | src/pages/NotificationsPage.tsx:195 | the unread count is at most the list's length |
| Notifications.UnreadCountIsUnreadTab | src/pages/NotificationsPage.tsx:191-195 | the unread count is the length of the 'unread' tab |
| Notifications.TransformationsKeepWellFormed | src/pages/NotificationsPage.tsx:73-141 | marking and deleting keep the list newest first and for one recipient |
| Notifications.SameRecipient | src/pages/NotificationsPage.tsx:120 | a sub-list of a one-recipient list has one recipient |
| Notifications.Inbox.constructor | src/pages/NotificationsPage.tsx:44-52 | the page starts with an empty, well-formed list |
| Notifications.Inbox.Load | src/pages/NotificationsPage.tsx:44-58 | the list becomes the viewer's notifications, newest first |
| Notifications.Inbox.MarkAsRead | src/pages/NotificationsPage.tsx:60-84 | one update exactly when the id is listed: the first listed item with that id, with its flag 'true' and every other field kept; the list becomes `MarkRead` of the old one |
| Notifications.Inbox.MarkAllAsRead | src/pages/NotificationsPage.tsx:85-110 | one update per unread item; afterwards every item is read and nothing is unread |
| Notifications.Inbox.DeleteNotification | src/pages/NotificationsPage.tsx:112-130 | one delete exactly when the id is listed, then the list without that id; otherwise unchanged |
| Notifications.Inbox.DeleteAllRead | src/pages/NotificationsPage.tsx:132-150 | one delete per read item, then only the unread items remain |
| Notifications.Inbox.Click | src/pages/NotificationsPage.tsx:152-159 | a click writes exactly when the notification is unread and listed, and the write is the first listed item with its id, marked read, every other field kept; a read one is not written and leaves the list; an unread one leaves the list as `MarkRead` makes it; the page goes to the link exactly when there is one |
| Charges.ResetForm | src/pages/ChargesPage.tsx:204-215 | an empty form, billed monthly, active, dated today, with no charge being edited |
| Charges.EditForm | src/pages/ChargesPage.tsx:164-176 | the form holds the charge's amount, and its switch is on iff the stored flag is 'true' |
| Charges.ActiveFlag | src/pages/ChargesPage.tsx:127 | the stored flag is 'true' or 'false' |
| Charges.ActiveFlagRoundTrip | src/pages/ChargesPage.tsx:127-173 | the switch survives being stored and read back |
| Charges.ActiveFlagReadBack | src/pages/ChargesPage.tsx:127-173 | a stored 'true' or 'false' read back and stored again is unchanged |
| Charges.BuildingName | src/pages/ChargesPage.tsx:118-121 | `find(...)?.name \|\| ''`: "" when no loaded building has the id; otherwise the name of the first building with the id; a non-empty name always belongs to a building with the id |
| Charges.Submit | src/pages/ChargesPage.tsx:105-149 | no write without a building, a type and an amount; otherwise the form's fields, the building's name and the flag string, as an update of the edited charge or as a new one, owned by the signed-in user |
| Charges.ResetFormIsRejected | src/pages/ChargesPage.tsx:108-115 | a freshly reset form cannot be saved |
| Charges.EditThenSaveRoundTrip | src/pages/ChargesPage.tsx:119-176 | saving an opened charge unchanged writes it back, with only its building name looked up again |
| Charges.Filtered | src/pages/ChargesPage.tsx:225-230 | a charge is listed iff it passes the building filter and the active / inactive filter |
| Charges.Active | src/pages/ChargesPage.tsx:233 | exactly the charges whose flag is 'true', whatever the filters |
| Charges.ActiveInactiveSplit | src/pages/ChargesPage.tsx:225-230 | with every flag 'true' or 'false', the active and the inactive views split the building's charges |
| Charges.MonthlyAmount | src/pages/ChargesPage.tsx:236-238 | a quarterly amount counts a third, an annual one a twelfth, any other its face value |
| Charges.MonthlyEstimate | src/pages/ChargesPage.tsx:233-240 | `totalActiveAmount` sums the monthly shares of the active charges: 0 without an active charge, their face-value total when none is quarterly or annual |
| Charges.MonthlyEstimateBounds | src/pages/ChargesPage.tsx:233-240 | with non-negative amounts the estimate lies between zero and the face value of the active charges |
| Charges.MonthlyBelowFace | src/pages/ChargesPage.tsx:234-240 | summed monthly shares never exceed summed face values |
| Charges.MonthlyEstimateAdditive | src/pages/ChargesPage.tsx:233-240 | the estimate of two catalogues together is the sum of their estimates |
| Charges.MonthlyCyclesAtFaceValue | src/pages/ChargesPage.tsx:236-239 | without quarterly or annual charges the estimate is the face-value total |
| Charges.LaterEffectiveFirstIsTotalPreorder | src/pages/ChargesPage.tsx:485 | the list comparator is a total preorder |
| Charges.DisplayOrder | src/pages/ChargesPage.tsx:485 | the list shows the same charges, latest effective date first |
| Costs.ResetForm | src/pages/CostsPage.tsx:206-217 | an empty form with status 'pending', dated today, and no cost being edited |
| Costs.EditForm | src/pages/CostsPage.tsx:166-178 | the form holds the cost's amount |
| Costs.Submit | src/pages/CostsPage.tsx:105-151 | no write without a building, a type, a description and an amount; otherwise the form's fields, the building's name, and the signed-in user's uid and email as recorder, as an update of the edited cost or as a new one |
| Costs.ResetFormIsRejected | src/pages/CostsPage.tsx:108-115 | a freshly reset form cannot be saved |
| Costs.EditThenSaveRoundTrip | src/pages/CostsPage.tsx:119-178 | saving an opened cost unchanged writes it back, with the building name looked up again and the saver as recorder |
| Costs.Filtered | src/pages/CostsPage.tsx:227-232 | a cost is listed iff it passes the building, type and status filters |
| Costs.PendingCosts | src/pages/CostsPage.tsx:236 | the pending figure is at most the number listed |
| Costs.PendingIsStatusView | src/pages/CostsPage.tsx:227-236 | the pending figure equals the length of the list filtered by status 'pending' |
| Costs.TotalCosts | src/pages/CostsPage.tsx:235 | `totalCosts`: 0 for an empty list, never negative when no amount is |
| Costs.ThisMonth | src/pages/CostsPage.tsx:237-241 | exactly the listed costs dated in the current month and year |
| Costs.ThisMonthTotal | src/pages/CostsPage.tsx:237-242 | `thisMonthTotal`: 0 when no listed cost falls in the month, the list's whole total when every one does |
| Costs.ThisMonthWithinTotal | src/pages/CostsPage.tsx:235-242 | with non-negative amounts, this month's total lies between zero and the list total |
| Costs.TotalCostsAdditive | src/pages/CostsPage.tsx:235 | totals add up across two lists |
| Costs.LaterCostFirstIsTotalPreorder | src/pages/CostsPage.tsx:508 | the list comparator is a total preorder |
| Costs.DisplayOrder | src/pages/CostsPage.tsx:508 | the list shows the same costs, latest first |
| Managers.ManagersOf | src/pages/ManagersPage.tsx:75-77 | exactly the profiles whose role is 'manager' |
| Managers.Search | src/pages/ManagersPage.tsx:156-161 | a building is listed iff the lower-cased term occurs in its lower-cased name, address or manager name |
| Managers.ContainsEmpty | src/pages/ManagersPage.tsx:158 | the empty term occurs in every string |
| Managers.EmptySearchKeepsAll | src/pages/ManagersPage.tsx:156-161 | an empty search lists every building, in order |
| Managers.SearchIgnoresTermCase | src/pages/ManagersPage.tsx:156-161 | lower-casing the term first changes nothing |
| Managers.LowerIdempotent | src/pages/ManagersPage.tsx:158 | lower-casing twice is lower-casing once |
| Managers.Assigned | src/pages/ManagersPage.tsx:163 | exactly the listed buildings with a non-empty manager id |
| Managers.Unassigned | src/pages/ManagersPage.tsx:164 | exactly the listed buildings without one |
| Managers.AssignedUnassignedPartition | src/pages/ManagersPage.tsx:163-164 | every listed building is in exactly one of the two groups |
| Managers.ManagerName | src/pages/ManagersPage.tsx:95-101 | `find(...)?.name \|\| ''`: "" when no manager has the uid; otherwise the name of the first manager with the uid; a non-empty name always belongs to a manager with the uid |
| Managers.Assign | src/pages/ManagersPage.tsx:91-102 | no write without a selected building and a manager; otherwise the building's id and owner, the manager's id and name |
| Managers.Unassign | src/pages/ManagersPage.tsx:123-132 | both manager fields cleared on the building |
| Managers.ApplyUpdate | src/pages/ManagersPage.tsx:97-102 | the update replaces the two manager fields and nothing else |
| Managers.AssignMovesBetweenGroups | src/pages/ManagersPage.tsx:91-164 | after an assignment the building is in the assigned group, after an unassignment in the unassigned one |
| Managers.OpenAssignDialog | src/pages/ManagersPage.tsx:150-154 | the dialog selects the building and starts at its manager, or at none |
| Managers.ReconfirmKeepsManager | src/pages/ManagersPage.tsx:91-154 | confirming the dialog untouched writes the same manager for an assigned building and nothing for an unassigned one |
| Dashboard.LoadStats | src/pages/DashboardPage.tsx:39-45 | the building and unit counts are the lists' lengths, occupied units are at most all units, managers and residents together at most the profiles |
| Dashboard.Vacant | src/pages/DashboardPage.tsx:156 | the vacant figure lies between 0 and the unit count whenever occupied units do not exceed all units |
| Dashboard.VacantIsUnoccupied | src/pages/DashboardPage.tsx:156 | the vacant figure is non-negative and counts exactly the units without a resident |
| Dashboard.OccupiedVacantSplit | src/pages/DashboardPage.tsx:42-156 | occupied and vacant units make up all units |
| Dashboard.OccupancyPercent | src/pages/DashboardPage.tsx:133-135 | 0 without units; otherwise within half a point of the exact percentage, and 0..100 when occupied units do not exceed all units |
| Dashboard.OccupancyIsNearest | src/pages/DashboardPage.tsx:134 | no other whole number is nearer the exact percentage, halves rounding up |
| Dashboard.VisibleCards | src/pages/DashboardPage.tsx:92-94 | a card is shown iff there is a user and it lists the user's role |
| Dashboard.AdminSeesAllCards | src/pages/DashboardPage.tsx:53-94 | an admin sees all four cards |
| Dashboard.ManagerCards | src/pages/DashboardPage.tsx:53-94 | a manager sees every card but the managers count |
| Dashboard.ResidentSeesNoCards | src/pages/DashboardPage.tsx:53-94 | a resident sees no card |
| Layout.VisibleItems | src/components/AppLayout.tsx:187-189 | an item is visible iff there is a user and it lists the user's role |
| Layout.Sidebar | src/components/AppLayout.tsx:186-191 | the sidebar has no more sections than the menu |
| Layout.SidebarShows | src/components/AppLayout.tsx:186-191 | a section appears iff some of its items are visible, and then with exactly those items |
| Layout.OfferedPaths | src/components/AppLayout.tsx:198 | a route is offered iff some shown item opens it |
| Layout.SignedOutSeesNothing | src/components/AppLayout.tsx:187-191 | without a user the sidebar is empty |
| Layout.AdminSeesEverything | src/components/AppLayout.tsx:75-154 | an admin's sidebar is the whole menu |
| Layout.ManagerSidebar | src/components/AppLayout.tsx:75-154 | a manager's sidebar is the whole menu but the Building Managers entry |
| Layout.ResidentSidebar | src/components/AppLayout.tsx:75-154 | a resident's sidebar is the overview, the bills and the communication section; the property-management section disappears |
| Layout.ManagersPageAdminOnly | src/components/AppLayout.tsx:93-97 | the Building Managers route is offered iff the user is an admin |
| Layout.ResidentRoutes | src/components/AppLayout.tsx:81-144 | a resident is offered exactly the dashboard, bills, announcements and notifications, in that order |
| Layout.LoadUnreadCount | src/components/AppLayout.tsx:55-63 | without a user the count is left as it was; otherwise it counts the loaded notifications to the user still unread |
| Layout.BadgeAgreesWithInbox | src/components/AppLayout.tsx:56-63 | the bell's count equals the unread count the notifications page shows for the same load |
| Layout.UnreadOfUser | src/components/AppLayout.tsx:59-61 | counting by recipient and unread flag at once equals filtering by recipient, then counting the unread |
| Layout.BadgeText | src/components/AppLayout.tsx:249-251 | no badge at zero, "9+" above nine, the single digit otherwise |
| Layout.BadgeReadBack | src/components/AppLayout.tsx:249-251 | the badge is "9+" iff the count exceeds nine, and otherwise its digit is the count |

## Left out

- Every call to the table store and the auth service is left out. Their
  code is not part of this model. Loads are parameters. Writes are returned
  values. Write failures and the `catch` branches with their toasts are left
  out. The only exception is the auth store's verify and sign-out calls,
  whose throw leaves the store unchanged.
- Loads are limited to 100 items. That limit is not modelled, so the
  duplicate check and idempotence of bill generation are stated for the
  loaded snapshot.
- `Promise.all`, the 30-second polling and the races between a write and
  the next load are left out. The writes of one handler are a list, taken
  in order.
- Money is a Dafny `real`, not an IEEE double. `parseFloat`, `NaN` and
  rounding in the sums are not modelled. An empty amount field is `None`,
  and any non-empty one is a number. `Math.round` on the occupancy rate is
  exact nearest-integer rounding.
- `Date` and time zones are left out. A billing period is text read as
  "YYYY-MM". The due date is a calendar day, not its ISO text. Other date
  fields and `created_at` are pre-parsed values: the year, month and day,
  or the timestamp. The due-date expression (`src/pages/BillsPage.tsx:209`)
  parses the period's first day as UTC midnight, then moves it in local
  time, then prints it in UTC, so its result depends on the browser's
  zone. At UTC it is the 5th of the next month. West of UTC the parsed day
  is still the previous month's last day in local time, so the expression
  lands in the period's own month: the 6th, or the 5th across a
  daylight-saving change. For example "2025-01" at UTC-5 gives
  "2025-01-06". East of UTC it is the 5th of the next month, or the 4th
  across a daylight-saving change. The model states the 5th of the month
  after the period, as at UTC.
- Bills.GenerateBills: an unparseable period ends generation with
  `InvalidPeriod`. In the source, `toISOString` throws on the invalid date
  and the catch shows an error. The bills written before that point are not
  modelled, because the due date does not depend on the unit, so the first
  bill to write already fails.
- Text.Take: strings are sequences of Unicode scalar values, while
  `substring` and `length` count UTF-16 code units. The two agree on text
  with no character above U+FFFF. A character beyond that plane counts
  once here and twice in the source, and the source can cut between the
  two halves of a surrogate pair, which the model cannot represent.
- Announcements.Message: the 100-character cut and the test for "..."
  count Unicode scalar values, not UTF-16 code units, as for `Text.Take`.
  Content of 60 emoji is 120 code units: the source keeps 50 emoji and adds
  "...", the model keeps all 60 and adds nothing. On content without
  characters above U+FFFF the two agree.
- The bill breakdown is kept as a list of type-and-amount pairs, not its
  JSON text.
- `toLowerCase` is modelled on ASCII letters only. `localeCompare` is
  code-unit order, which agrees on the digit-and-dash period strings it
  sorts.
- Sort stability is not stated. Sorting is specified by permutation and
  order.
- Notifications.ForUser: with nobody signed in, the source compares
  `user_id` against `undefined`. The model treats every stored
  notification as carrying a `user_id`, so nothing is shown.
- The zustand `persist` storage, JSX, colours, icons, confirmation dialogs
  and navigation other than the notification link are left out.
- `handleLogout` in the layout is left out. It calls the modelled
  `logout` once and then navigates to the login page.
- The delete handlers of the bills, charges and costs pages and
  `openPaymentDialog` are left out. So are the other pages (units,
  buildings, residents, login).
- A field update is taken to overwrite only the fields it names, which is
  what `Managers.ApplyUpdate`, `Bills.ApplyPayment` and
  `Announcements.StoreUpdate` state.
