# Zoovia core, modelled in Dafny

Zoovia is a multi-tenant web app for veterinary clinics and grooming salons.
Each tenant (a "veterinary") holds clients, their pets and appointments. A
subscription names the plan and a set of module flags. The flags decide which
pages the menu shows and which routes the module guard lets through. This
project models the logic at the core of the app:

- **The loyalty ledger** (`LoyaltyRules`, `LoyaltyService`). Every change of points
  appends a transaction row. Then the client's balance, lifetime totals, tier and
  enrolment date are rewritten. The balance is clamped at zero. Visit awards,
  redemptions (refused when the balance is too small) and manual adjustments are
  wrappers around that one operation. The module also covers the tier, the
  next-tier and the label helpers.
- **The appointment lifecycle** (`AppointmentService`). This covers creation and
  walk-in registration, and status updates that stamp the arrival, start or end
  time. When an appointment is completed, a hook awards the visit's loyalty points
  once. The hook is guarded by a `loyaltyAwarded` flag and swallows its own
  failures. The module also covers the `HH:mm` slot grid and the status labels.
- **Subscriptions** (`Subscriptions`): the monthly price, the default modules of a
  business type, `hasModule` and `isSubscriptionActive`.
- **Navigation and access** (`Navigation`, `ModuleAccess`): the side menu built
  from the module flags, and the route guard that sends a tenant without the
  module to the restricted page.
- **Business hours** (`BusinessHours`): the editor that turns stored schedules
  (a list of shifts, or the legacy open/close pair) into per-day form rows.
  It adds, removes and toggles rows, emits the completed shifts and validates
  a row against its day.
- **The appointment board and form** (`AppointmentsList`, `AppointmentForm`). The
  board holds the status tabs, the active count, the detail-panel selection and
  the status buttons. The form holds the client autocomplete, the slot grid and
  the submission.
- **Pets** (`Pets`): the active-pet count and the age in years and months.

The store (Firestore) is modelled by the class `Documents.Db`. It has a map of
clients, a map of appointments and the sequence of loyalty transactions. Each
store call is a method that can fail. Which calls fail is given as a set
`faults: set<StoreCall>`, so every error path of the source is reachable. Each
service operation is a method proved against a pure effect function
(`RecordSpec`, `RedeemSpec`, `AwardHookSpec`, `UpdateStatusSpec`). The
properties are lemmas about those functions.

The current time is a parameter (`Now`: a timestamp, the `YYYY-MM-DD` date and
the `HH:mm` time). Module flags are `Option<bool>`, because a stored flag may be
absent. Only `Some(true)` counts as on, as the source's `=== true` tests and
truthiness tests both give for booleans.

One might expect the client's balance to equal `max(0, totalEarned − totalRedeemed)`.
The code does not keep that identity: the clamp is applied to each change, not to
the totals. The model follows the code, and `LoyaltyService.ClampBreaksBalanceIdentity`
exhibits a two-step history where the identity fails.

## Model

| member | source | states |
|---|---|---|
| LoyaltyRules.TierForPoints | src/app/core/services/loyalty.service.ts:200-205 | a tier above bronze is reported only when its threshold is reached; bronze exactly when no threshold is |
| LoyaltyRules.TierIsHighestReached | src/app/core/services/loyalty.service.ts:200-205 | with ordered thresholds, the tier is the highest whose threshold the lifetime total reaches |
| LoyaltyRules.TierThresholdMet | src/app/core/services/loyalty.service.ts:200-205 | the returned tier's threshold is reached (bronze is the fallback) |
| LoyaltyRules.TierMonotone | src/app/core/services/loyalty.service.ts:200-205 | earning more never lowers the tier |
| LoyaltyRules.DefaultTierBoundaries | src/app/core/services/loyalty.service.ts:26-38 | the default program's boundaries: 0/199 bronze, 200/499 silver, 500/999 gold, 1000 platinum |
| LoyaltyRules.TierLabel | src/app/core/services/loyalty.service.ts:207-215 | every tier has a non-empty label |
| LoyaltyRules.TierLabelInjective | src/app/core/services/loyalty.service.ts:207-215 | distinct tiers have distinct labels |
| LoyaltyRules.TierCssClass | src/app/core/services/loyalty.service.ts:217-219 | the class starts with `tier-` and names the tier, so reading the class back gives the tier |
| LoyaltyRules.TierCssClassInjective | src/app/core/services/loyalty.service.ts:217-219 | distinct tiers have distinct classes |
| LoyaltyRules.NextTierInfo | src/app/core/services/loyalty.service.ts:222-227 | null exactly when every threshold is reached; otherwise a positive number of points is needed |
| LoyaltyRules.NextTierAgreesWithTier | src/app/core/services/loyalty.service.ts:222-227 | with ordered thresholds, the next tier is the one above the current tier, and the points needed reach its threshold |
| LoyaltyRules.TransactionLabel | src/app/core/services/loyalty.service.ts:234-244 | every transaction type has a non-empty label |
| LoyaltyRules.TransactionIcon | src/app/core/services/loyalty.service.ts:246-256 | every transaction type has a non-empty icon |
| LoyaltyRules.TransactionLookupsInjective | src/app/core/services/loyalty.service.ts:234-256 | distinct types have distinct labels and distinct icons |
| LoyaltyService.NewBalance | src/app/core/services/loyalty.service.ts:90 | the new balance is never negative; it is the sum unless the sum is negative, then 0 |
| LoyaltyService.UpdatedClient | src/app/core/services/loyalty.service.ts:111-135 | balance set; earned grows by a credit, redeemed by a debit; tier from the new earned total; enrolment date set once and kept afterwards; `updatedAt` is now; identity fields kept |
| LoyaltyService.TotalsMoveOneWay | src/app/core/services/loyalty.service.ts:112-117 | totals never shrink; a credit moves only earned, a debit only redeemed; their net change is the delta |
| LoyaltyService.RecordSpec | src/app/core/services/loyalty.service.ts:73-138 | the row is appended first and never rolled back; a missing client resolves with no client change; success exactly when the add, read and (for an existing client) write all work |
| LoyaltyService.RecordPoints | src/app/core/services/loyalty.service.ts:73-138 | the store calls in sequence give exactly the effect `RecordSpec` describes |
| LoyaltyService.BalanceAgreesAndIsNonNegative | src/app/core/services/loyalty.service.ts:90-125 | the row's `balanceAfter` and the client's stored balance are the same clamped, non-negative value |
| LoyaltyService.AwardVisitPoints | src/app/core/services/loyalty.service.ts:141-163 | a visit award is `recordPoints` of `pointsPerVisit` as an `earned_visit` row |
| LoyaltyService.AwardRow | src/app/core/services/loyalty.service.ts:151-162 | the award row's type, points, appointment reference, description and author, and the tier uses the program given |
| LoyaltyService.RedeemSpec | src/app/core/services/loyalty.service.ts:166-184 | a balance below the amount is refused with no write; otherwise it records the negated amount |
| LoyaltyService.RedeemPoints | src/app/core/services/loyalty.service.ts:166-184 | the method's effect is `RedeemSpec` |
| LoyaltyService.RedeemDebits | src/app/core/services/loyalty.service.ts:175-183 | an accepted redemption lowers the balance by exactly the amount, adds it to redeemed, leaves earned alone and uses the default tiers |
| LoyaltyService.RedeemWholeBalance | src/app/core/services/loyalty.service.ts:175-180 | redeeming exactly the balance is accepted and leaves 0 |
| LoyaltyService.AdjustPoints | src/app/core/services/loyalty.service.ts:187-196 | an adjustment is `recordPoints` with type `adjusted` |
| LoyaltyService.AdjustNeverRefused | src/app/core/services/loyalty.service.ts:187-196 | an adjustment is never refused and its debit is clamped at zero |
| LoyaltyService.ClampBreaksBalanceIdentity | src/app/core/services/loyalty.service.ts:90-117 | debit 5 at 0, then credit 10: the balance is 10 while earned − redeemed is 5 |
| LoyaltyService.FirstAwardEnrols | src/app/core/services/loyalty.service.ts:132-135 | a first default award on a fresh client gives 10 points, bronze and an enrolment date |
| AppointmentService.Create | src/app/core/services/appointment.service.ts:100-105 | the appointment is stored under a freshly generated id with both timestamps set to now, every stored appointment kept; a failed add writes nothing and rejects |
| AppointmentService.WalkInData | src/app/core/services/appointment.service.ts:120-127 | a walk-in is waiting, marked walk-in, dated today with arrival now, normal priority by default, with the caller's fields |
| AppointmentService.RegisterWalkIn | src/app/core/services/appointment.service.ts:108-128 | registers the walk-in data through `create` |
| AppointmentService.Stamped | src/app/core/services/appointment.service.ts:132-144 | the status write sets the status, `updatedAt`, and the arrival, start or end time for waiting, in progress or completed; nothing else |
| AppointmentService.AwardHookSpec | src/app/core/services/appointment.service.ts:146-182 | when the hook stops early (unreadable or missing or awarded appointment, disabled program, unreadable balance) nothing changes; otherwise the ledger and clients are those of the visit award, and the flag is set exactly when the award resolved and the flag write works; only this appointment may change, and only by the flag |
| AppointmentService.AwardOnCompletion | src/app/core/services/appointment.service.ts:146-182 | the hook's store calls give exactly `AwardHookSpec` |
| AppointmentService.HookAwardsVisit | src/app/core/services/appointment.service.ts:147-179 | once the hook reaches the award, exactly one visit row of `pointsPerVisit` is appended on the appointment's client and author from the stored balance (0 if none); the client is credited and the flag set when those writes work |
| AppointmentService.CleanCompletionAwards | src/app/core/services/appointment.service.ts:132-182 | a completion with no failures of an unawarded appointment under an enabled program resolves, appends one `pointsPerVisit` visit row, credits an existing client and sets the flag |
| AppointmentService.DisabledProgramNoAward | src/app/core/services/appointment.service.ts:157-158 | under a disabled program a completion appends no row, changes no client, and only stamps the appointment |
| AppointmentService.UpdateStatusSpec | src/app/core/services/appointment.service.ts:132-184 | resolves exactly when the appointment exists and the status write works; a rejection writes nothing; the stamped status is written; a completion that reaches the award appends one `pointsPerVisit` row and sets the flag when the writes work, and one that stops early adds no row and changes no client; other statuses leave clients and ledger alone; other appointments kept |
| AppointmentService.UpdateStatus | src/app/core/services/appointment.service.ts:132-184 | the method's effect is `UpdateStatusSpec` |
| AppointmentService.Cancel | src/app/core/services/appointment.service.ts:193-195 | cancelling is a status update to `cancelled` |
| AppointmentService.AwardedIsFinal | src/app/core/services/appointment.service.ts:151-152 | once awarded, no status update adds a row or changes a client, and the flag stays |
| AppointmentService.CompleteTwiceAwardsOnce | src/app/core/services/appointment.service.ts:147-179 | a clean first completion appends exactly one row (for an unawarded appointment under an enabled program, else none), and a second completion, whatever fails, appends nothing and changes no client |
| AppointmentService.LostFlagAwardsTwice | src/app/core/services/appointment.service.ts:165-182 | if the flag write fails after the award, both completions resolve and the visit is awarded twice |
| AppointmentService.FormatAll | src/app/core/services/appointment.service.ts:215-218 | one text per minute count |
| AppointmentService.FormatAllAt | src/app/core/services/appointment.service.ts:215-218 | each text is the `HH:mm` rendering of its minute count |
| AppointmentService.TimeSlots | src/app/core/services/appointment.service.ts:208-222 | the `HH:mm` texts from the parsed open time in steps of the interval while before the parsed close time; none when a bound does not parse or open ≥ close, for any interval |
| AppointmentService.GenerateTimeSlots | src/app/core/services/appointment.service.ts:208-222 | the loop yields exactly the slots of `TimeSlots`; a non-positive interval is refused only when the loop would be entered |
| AppointmentService.TimeSlotsMeaning | src/app/core/services/appointment.service.ts:208-222 | ⌈(close − open)/interval⌉ slots (none if open ≥ close); slot k is canonical and reads back as open + k·interval |
| AppointmentService.SlotText | src/app/core/services/appointment.service.ts:214-218 | slot k renders and parses back to open + k·interval |
| AppointmentService.TimeSlotsSorted | src/app/core/services/appointment.service.ts:213-219 | the slots strictly increase in string order |
| AppointmentService.HalfHourSlots | src/app/core/services/appointment.service.ts:208-222 | 09:00 to 10:00 every 30 minutes gives 09:00 and 09:30 |
| AppointmentService.UnparsableBoundGivesNoSlots | src/app/core/services/appointment.service.ts:210-213 | a bound that is not `HH:mm` reads as NaN, and the loop never runs |
| AppointmentService.ClosedSpanGivesNoSlots | src/app/core/services/appointment.service.ts:212-215 | an open time at or after the close time gives no slots, whatever the interval, zero and negative included |
| AppointmentService.StatusLabel | src/app/core/services/appointment.service.ts:225-235 | every status has a non-empty label |
| AppointmentService.StatusColor | src/app/core/services/appointment.service.ts:238-248 | every status has a non-empty colour |
| AppointmentService.StatusLookupsInjective | src/app/core/services/appointment.service.ts:225-248 | distinct statuses have distinct labels and colours |
| Subscriptions.CalculatePrice | src/app/core/services/subscription.service.ts:58-80 | every price lies between 0 and 45 |
| Subscriptions.PriceIsBasePlusAddOns | src/app/core/services/subscription.service.ts:58-80 | the price is the plan's base plus the billed add-ons; bundles bill none and grooming base does not bill grooming |
| Subscriptions.PriceIgnoresCoreFlags | src/app/core/services/subscription.service.ts:58-80 | the core and loyalty flags never change the price |
| Subscriptions.PriceMonotone | src/app/core/services/subscription.service.ts:70-77 | switching on an add-on never lowers the price |
| Subscriptions.PriceBoundsTight | src/app/core/services/subscription.service.ts:16-29 | the bounds 0 and 45 are both reached |
| Subscriptions.DefaultModules | src/app/core/services/subscription.service.ts:85-95 | clients and pets on, appointments and inventory off, medical records for vet and hybrid, grooming for grooming, no loyalty flag |
| Subscriptions.HybridDefaultsOmitGrooming | src/app/core/services/subscription.service.ts:89-91 | a hybrid business gets medical records but not grooming |
| Subscriptions.ModuleFlag | src/app/core/models/subscription.ts:24-37 | a key that is not a module name reads as absent |
| Subscriptions.HasModule | src/app/core/services/subscription.service.ts:34-44 | no subscription grants nothing; otherwise a module is granted exactly when its flag is `true` |
| Subscriptions.IsSubscriptionActive | src/app/core/services/subscription.service.ts:114-123 | active exactly when a subscription exists with status active or trial |
| Subscriptions.DefaultModuleAccess | src/app/core/services/subscription.service.ts:34-44 | under the defaults, `hasModule` grants exactly clients, pets, medical records (non-grooming) and grooming (grooming) |
| Navigation.Menu | src/app/core/services/navigation.service.ts:21-79 | the fixed entries, one entry per optional module whose flag is `true` (all of them skipped without a subscription), then settings |
| Navigation.GetMenuItems | src/app/core/services/navigation.service.ts:21-79 | the pushes build exactly `Menu` |
| Navigation.MenuShape | src/app/core/services/navigation.service.ts:21-79 | the three fixed entries first, settings last and only there, four entries plus one per module switched on |
| Navigation.MenuShowsModule | src/app/core/services/navigation.service.ts:40-72 | each optional entry is shown exactly when its flag is `true` |
| Navigation.LoyaltyHasNoEntry | src/app/core/services/navigation.service.ts:40-72 | the loyalty flag never changes the menu |
| ModuleAccess.GuardDecision | src/app/core/guards/module-access.guard.ts:11-37 | no subscription allows; otherwise allowed exactly when the flag is `true`; a denial redirects to the restricted page with the module name |
| ModuleAccess.GuardAgreesWithHasModule | src/app/core/guards/module-access.guard.ts:20-25 | with a subscription the guard agrees with `hasModule`; without one the guard allows and `hasModule` denies |
| ModuleAccess.UnknownModuleDenied | src/app/core/guards/module-access.guard.ts:25-32 | a key that is not a module name is denied whenever a subscription exists |
| ModuleAccess.MenuMatchesGuard | src/app/core/guards/module-access.guard.ts:25-34 | each optional menu entry is shown exactly when the guard admits its module |
| BusinessHours.ScheduleShifts | src/app/features/settings/business-hours-editor.component.ts:64-88 | a shift list is taken as is; an open legacy day gives its one shift; a closed or empty legacy day and a missing day give none |
| BusinessHours.FormShift | src/app/features/settings/business-hours-editor.component.ts:100-105 | a form row always has both times, and a complete shift is kept unchanged |
| BusinessHours.FormShifts | src/app/features/settings/business-hours-editor.component.ts:85-87 | one form row per stored shift |
| BusinessHours.InitialDay | src/app/features/settings/business-hours-editor.component.ts:58-98 | a day is enabled exactly when it has shifts; a disabled day holds one default 09:00–19:00 row |
| BusinessHours.ClosedLegacyDayStartsDisabled | src/app/features/settings/business-hours-editor.component.ts:76-88 | a closed legacy day starts disabled with the default row |
| BusinessHours.RemoveAt | src/app/features/settings/business-hours-editor.component.ts:120-125 | removing row `index` drops exactly that row |
| BusinessHours.CompleteShifts | src/app/features/settings/business-hours-editor.component.ts:143-148 | the filter never lengthens the list |
| BusinessHours.CompleteShiftsCounts | src/app/features/settings/business-hours-editor.component.ts:143-148 | the emitted rows are exactly the complete rows, with their multiplicity |
| BusinessHours.CompleteShiftsKeepsComplete | src/app/features/settings/business-hours-editor.component.ts:143-148 | rows that are all complete are emitted unchanged |
| BusinessHours.EmitHours | src/app/features/settings/business-hours-editor.component.ts:139-155 | a day is emitted exactly when it is enabled and has rows |
| BusinessHours.EmitInitialDay | src/app/features/settings/business-hours-editor.component.ts:58-155 | loading a schedule and emitting it at once gives back its shifts, and no day without shifts |
| BusinessHours.Clash | src/app/features/settings/business-hours-editor.component.ts:179-183 | the three-clause overlap test of two shifts on their `HH:mm` texts |
| BusinessHours.ShiftError | src/app/features/settings/business-hours-editor.component.ts:157-189 | no error for an incomplete row, the order error when close is not after open, then the overlap error when another complete row clashes, else none |
| BusinessHours.ClashIsOverlap | src/app/features/settings/business-hours-editor.component.ts:172-186 | for well-ordered shifts the three-clause test is the overlap of [open, close) intervals |
| BusinessHours.TouchingShiftsAccepted | src/app/features/settings/business-hours-editor.component.ts:172-186 | a shift that opens when another closes does not overlap it |
| BusinessHours.ClashSymmetric | src/app/features/settings/business-hours-editor.component.ts:172-186 | overlap is symmetric for well-ordered shifts |
| BusinessHours.ClashInMinutes | src/app/features/settings/business-hours-editor.component.ts:172-186 | for `HH:mm` times the string test is the overlap of the minute intervals |
| BusinessHours.OrderCheckedFirst | src/app/features/settings/business-hours-editor.component.ts:165-169 | a complete row whose close is not after its open reports the order error |
| BusinessHours.RemoveShortensByOne | src/app/features/settings/business-hours-editor.component.ts:120-125 | removal leaves at least one row and removes exactly the chosen one |
| BusinessHours.HoursEditor.constructor | src/app/features/settings/business-hours-editor.component.ts:58-98 | every day of the week gets its initial form |
| BusinessHours.HoursEditor.AddShift | src/app/features/settings/business-hours-editor.component.ts:115-118 | appends a default row to that day only |
| BusinessHours.HoursEditor.RemoveShift | src/app/features/settings/business-hours-editor.component.ts:120-125 | removes the row when more than one is left; otherwise nothing changes |
| BusinessHours.HoursEditor.ToggleDay | src/app/features/settings/business-hours-editor.component.ts:127-137 | a day that reads disabled when the method runs is reset to exactly one default row; an enabled day is left as it is |
| BusinessHours.HoursEditor.Emitted | src/app/features/settings/business-hours-editor.component.ts:139-155 | the hours the editor emits are `EmitHours` of its day forms |
| BusinessHours.HoursEditor.ValidateShiftTimes | src/app/features/settings/business-hours-editor.component.ts:157-189 | the loop reports exactly `ShiftError`: nothing for an incomplete row, the order error first, then the overlap error |
| AppointmentsList.WithStatus | src/app/features/appointments/appointments-list.component.ts:111-129 | a tab holds only appointments of its statuses, and is no longer than the list |
| AppointmentsList.WithStatusAppend | src/app/features/appointments/appointments-list.component.ts:111-129 | a tab keeps the list's order: filtering two joined parts is joining their filtered parts |
| AppointmentsList.WithStatusCounts | src/app/features/appointments/appointments-list.component.ts:111-129 | a tab keeps each appointment of its statuses as often as the list holds it, and nothing else |
| AppointmentsList.WithStatusMember | src/app/features/appointments/appointments-list.component.ts:111-129 | an appointment is in a tab exactly when it is in the list with one of the tab's statuses |
| AppointmentsList.GroupsPartition | src/app/features/appointments/appointments-list.component.ts:111-129 | the five tab sizes add up to the list's length (no-shows sit in the cancelled tab) |
| AppointmentsList.Toggle | src/app/features/appointments/appointments-list.component.ts:137-139 | choosing the open appointment closes the panel; any other opens it |
| AppointmentsList.ToggleTwice | src/app/features/appointments/appointments-list.component.ts:137-139 | selecting the same appointment twice closes the panel, unless it was already open |
| AppointmentsList.ClearIfSelected | src/app/features/appointments/appointments-list.component.ts:159-170 | the panel closes only when it shows the finished appointment |
| AppointmentsList.Board.ActiveCount | src/app/features/appointments/appointments-list.component.ts:131-133 | the count is the number of waiting, in-progress and scheduled appointments |
| AppointmentsList.Board.SelectAppointment | src/app/features/appointments/appointments-list.component.ts:137-139 | toggles the panel on this appointment |
| AppointmentsList.Board.ClosePanel | src/app/features/appointments/appointments-list.component.ts:141-143 | the panel is closed |
| AppointmentsList.Board.MarkWaiting | src/app/features/appointments/appointments-list.component.ts:147-151 | a status update to waiting; the selection stays |
| AppointmentsList.Board.MarkInProgress | src/app/features/appointments/appointments-list.component.ts:153-157 | a status update to in progress; the selection stays |
| AppointmentsList.Board.MarkCompleted | src/app/features/appointments/appointments-list.component.ts:159-164 | a status update to completed; on success the panel closes if it shows this appointment |
| AppointmentsList.Board.MarkCancelled | src/app/features/appointments/appointments-list.component.ts:166-170 | a status update to cancelled; on success the panel closes if it shows this appointment |
| AppointmentsList.Board.MarkNoShow | src/app/features/appointments/appointments-list.component.ts:172-175 | a status update to no-show; the selection stays |
| Pets.CalculateAge | src/app/core/services/pet.service.ts:258-271 | months in 0..11, years·12 + months is the calendar month difference, a year borrowed when the month is earlier |
| Pets.AgeIsYearsAndMonths | src/app/core/services/pet.service.ts:258-271 | the age is the month count split by 12 |
| Pets.BirthdayMonthHasNoMonths | src/app/core/services/pet.service.ts:264-270 | in the birth month the age is whole years |
| Pets.AcrossNewYear | src/app/core/services/pet.service.ts:264-270 | born in December, the pet is 0 years 1 month old in January |
| Pets.ActiveCount | src/app/core/services/pet.service.ts:246-253 | never more than the number of pets |
| Pets.ActiveCountAppend | src/app/core/services/pet.service.ts:249 | the count adds up over the parts of a list |
| Pets.ActiveCountBounds | src/app/core/services/pet.service.ts:249 | every pet counted exactly when all are active; none exactly when none is |
| AppointmentForm.Lower | src/app/features/appointments/appointment-form.component.ts:128-135 | lower-cases letter by letter, keeping the length |
| AppointmentForm.LowerIdempotent | src/app/features/appointments/appointment-form.component.ts:128-135 | lower-casing twice is lower-casing once |
| AppointmentForm.LowerKeepsBlank | src/app/features/appointments/appointment-form.component.ts:128-130 | a text is blank after trimming exactly when its lower-cased form is |
| AppointmentForm.DisplayClient | src/app/features/appointments/appointment-form.component.ts:137-140 | first and last name with a space, or empty for no client |
| AppointmentForm.Matching | src/app/features/appointments/appointment-form.component.ts:131-134 | the matches never outnumber the clients |
| AppointmentForm.FilterClients | src/app/features/appointments/appointment-form.component.ts:128-135 | at most 10 suggestions: the first 10 clients for a blank input, else the first 10 matches |
| AppointmentForm.MatchingSound | src/app/features/appointments/appointment-form.component.ts:131-134 | every suggestion is a client that matches |
| AppointmentForm.MatchingComplete | src/app/features/appointments/appointment-form.component.ts:131-134 | every matching client is among the matches |
| AppointmentForm.FilterClientsMeaning | src/app/features/appointments/appointment-form.component.ts:128-135 | suggestions are matching clients; with at most 10 matches, all of them are suggested |
| AppointmentForm.FilterIgnoresCase | src/app/features/appointments/appointment-form.component.ts:128-135 | the input's letter case does not change the suggestions |
| AppointmentForm.FindPet | src/app/features/appointments/appointment-form.component.ts:185-186 | a found pet is in the list with that id; none means no pet has it |
| AppointmentForm.Submission | src/app/features/appointments/appointment-form.component.ts:179-221 | data exists exactly when client and pet are found; a walk-in waits with arrival now and no scheduled time, anything else is scheduled for the picked date and time with no arrival time; pet name and species come from the found pet; start and end times are unset |
| AppointmentForm.Form.constructor | src/app/features/appointments/appointment-form.component.ts:62-83 | the form starts with no client, pets, slots or save in progress |
| AppointmentForm.Form.OnClientSelected | src/app/features/appointments/appointment-form.component.ts:142-146 | selects the client and clears the pet |
| AppointmentForm.Form.GenerateSlots | src/app/features/appointments/appointment-form.component.ts:158-163 | the 08:00–20:00 grid at the tenant's interval, 30 by default |
| AppointmentForm.Form.Submit | src/app/features/appointments/appointment-form.component.ts:179-230 | nothing happens while invalid or without a veterinary; otherwise saves `Submission` or fails with nothing written, and ends not saving |
| AppointmentForm.DefaultGrid | src/app/features/appointments/appointment-form.component.ts:158-163 | the default grid has 24 slots from 08:00 to 19:30 |
| Clock.ParseClock | src/app/core/services/appointment.service.ts:210-213 | a time parses exactly when it has the `DD:DD` form |
| Clock.FormatClock | src/app/core/services/appointment.service.ts:216-217 | digits with one colon three characters from the end; exactly five characters below 100 hours |
| Clock.ParseFormat | src/app/core/services/appointment.service.ts:214-217 | rendering minutes as `HH:mm` and parsing back gives the minutes |
| Clock.FormatParse | src/app/core/services/appointment.service.ts:214-217 | a canonical `HH:mm` text is rendered back unchanged |
| Clock.LexLess | src/app/features/settings/business-hours-editor.component.ts:166-186 | JavaScript string `<`: irreflexive, and a proper prefix is smaller |
| Clock.CanonicalOrder | src/app/features/settings/business-hours-editor.component.ts:166-186 | for `HH:mm` texts, string order is time order |
| Clock.LexLessTransitive | src/app/features/settings/business-hours-editor.component.ts:166-186 | string order is transitive |
| Clock.LexLessTotal | src/app/features/settings/business-hours-editor.component.ts:166-186 | string order is total and asymmetric |
| Clock.SlotCount | src/app/core/services/appointment.service.ts:215-220 | the loop runs ⌈(close − open)/interval⌉ times, or none |
| Clock.SlotAt | src/app/core/services/appointment.service.ts:215-220 | the k-th minute count is open + k·interval |

## Left out

- Firestore queries (`getByDate`, `getTodayAppointments`, `getHistory` with its ordering and limit, `getPets`): reads that filter and sort server-side; the model holds the documents directly.
- The board's and form's reloads (`loadAppointments`, `loadPets`), day navigation and router navigation after a save: UI plumbing with no logic beyond the calls modelled.
- Concurrency: every `await` is modelled as one step in sequence; interleavings of two clients or two tabs are not modelled.
- Clocks: `Timestamp.now()`, `toDateString` and `toTimeString` become the parameter `now`; time zones are not modelled.
- RxJS observables, caches, snackbars and the `console.warn` of the swallowed hook error.
- Floating point: `pointsToCurrency` and `getPetAge` (text formatting over division) are not modelled; all point amounts are integers.
- AppointmentForm.Lower: lower-cases ASCII letters only; full Unicode `toLowerCase` is not modelled.
- Clock.ParseClock: accepts only the five-character `DD:DD` form; other texts that `Number` would parse (one-digit hours, spaces) are treated as NaN, giving no slots.
- AppointmentService.GenerateTimeSlots: requires a positive interval only when both bounds parse and the open time is before the close time; there, with zero or less, the source's loop never ends. Its only caller (appointment-form.component.ts:162) passes 08:00–20:00.
- BusinessHours.HoursEditor.RemoveShift: takes a `nat` index; the source's `removeAt` with a negative index is not modelled.
- BusinessHours.HoursEditor.ToggleDay: the checkbox's own flip of `enabled` is done by the template binding, which is not part of this model; the method acts on the form as it finds it.
- The hook's read of the tenant's loyalty program (`getCurrentVeterinary`, which can hang) becomes the parameter `tenantProgram`.
- Non-boolean module flag values: flags are `Option<bool>`; other stored values are not modelled.
- Form validators: the Angular form's validity is the parameter `formValid`.
- `canAccessFeature`, `getSubscription`, the subscription's billing fields and the client's portal PIN: no logic beyond a lookup.
- The `update` partial write of `appointment.service.ts`: an untyped merge of arbitrary fields.
