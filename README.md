# Fleet preventive-maintenance core, in Dafny

This project models the core of a heavy-machinery maintenance app. It has three parts:

- **The PM cycle engine.** A machine's hour-meter reading places it on an eight-step, 2000-hour cycle of preventive-maintenance (PM) kinds, `PM1 PM2 PM1 PM3 PM1 PM2 PM3 PM4`. The engine recommends a step for a raw reading, with a 25-hour tolerance before each 250-hour milestone. Each completed scheduled PM moves the machine on one step and sets its next due reading 250 h later.
- **The page handlers that change the stored data.** These are:
  - maintenance registration, with PM kits, the mandatory-item check, the stock check and the combined update of machine, history and stock;
  - starting and ending an operation job;
  - saving a machine and refuelling it;
  - restocking a supply.
- **The read-only views derived from the data.** These are:
  - the PM bands (overdue, due soon, fine) and the operation block 15 h past due;
  - the notification bell;
  - the dashboard counters;
  - the inventory search and low-stock badge;
  - the fuel gauge colours.

Modules follow the source files:

| module | file |
|---|---|
| `Js` | JavaScript number and string behaviour the code relies on: truncating `%`, `x \|\| d` on numbers, `toLowerCase`, `includes` and number-to-text |
| `Arrays` | filtering, dropping one index and taking a prefix |
| `Records` | the stored entities and the error conditions |
| `Constants` | `src/lib/constants.js` |
| `PmCycle` | `src/lib/utils.js` |
| `Bands` | the band tests shared by several pages |
| `AppState` | the data store (`class Store`) |
| `Maintenance`, `MachineUsage`, `MachineManagement`, `Inventory` | the four pages that write data |
| `NotificationCenter`, `Dashboard`, `FuelGauge` | the read-only views |

The store is a class. Its fields are:

- the machine and supply collections, as maps keyed by document id;
- the maintenance and usage histories;
- the PM kit configurations;
- the open job.

Each handler is a method that `modifies` the store. Each handler states:

- the outcome for every input (`Done`, or `Rejected` with the error the page shows);
- the whole new state;
- that the store invariant `Valid()` is kept.

`Valid()` requires that:

- every machine and supply is stored under its own id;
- a machine's stored cycle index is in `[0, 8)` and names its next PM type;
- stock is never negative;
- the open job, if any, refers to a stored machine that is marked in use.

The pure views are functions. The properties that relate them to the engine and to each other are lemmas.

Some behaviours of the code are easy to miss; the model follows the code as written:

- **Roles.** The permission checks name the roles `Administrador` and `Instructor`. A comment in the machine page names `Instructor` as the operator role that may create machines, but the seeded operator account has the role `Usuario`, which passes none of the checks. `Constants.SeedOperatorRoleIsNotInstructor` and the `PermissionsNested` lemmas state the behaviour as written.
- **Kits keep duplicates.** Nothing stops a supply from being added to a kit twice: adding a kit item appends it even when the supply is already in the kit (`Maintenance.KitKeepsDuplicates`).
- **Duplicate lines deduct stock once.** A save with a supply listed on two lines checks each line against the stock before the save. Each line's stock write is computed from that same stock, so only the last line's quantity is deducted (`Maintenance.DuplicateLineDeductsOnce`).
- **Fuel is range-checked only by the controls.** The handlers do not check the fuel range: refuelling only requires a level above the current one, and saving a machine stores the form's fuel level as given. Only ending a job re-checks `[0, 100]` in code. Every fuel entry comes from a control that already keeps it in `[0, 100]`: the machine editor's number field has `min`/`max` bounds, and refuelling, the maintenance form and ending a job use 0–100 sliders.
- **Corrective events.** A corrective (`No Programado`) event also overwrites `last_pm_hm` with the reading, but leaves `last_pm_type` and the cycle alone.
- **The block.** A machine is blocked only when its reading is more than 15 h past due, so at 15 h past due it still runs.

## Model

| member | source | states |
|---|---|---|
| Js.Rem | src/lib/utils.js:54 | JavaScript's `%` for a positive divisor: equal to the mathematical remainder for a non-negative dividend and in `(-b, 0]` for a negative one; in both cases the dividend minus the result is a multiple of the divisor |
| Js.NatToStringRoundTrip | src/components/NotificationCenter.jsx:22-32 | the decimal text a template literal prints for a non-negative number reads back as that number |
| Js.NatToStringInjective | src/components/NotificationCenter.jsx:22-32 | two different numbers never print as the same text |
| Js.IntToStringInjective | src/lib/utils.js:9-10 | two different integers never print as the same text: digits never begin with the minus sign, and the digits of a magnitude determine it |
| Js.Lower | src/pages/InventorySection.jsx:23 | `toLowerCase` keeps the length, maps each character on its own, and leaves no uppercase ASCII letter |
| Js.LowerIdempotent | src/pages/InventorySection.jsx:23 | lowering twice is lowering once |
| Js.IncludesEmpty | src/pages/MachineUsageSection.jsx:84 | every text includes the empty search text |
| Arrays.Filter | src/pages/DashboardOverview.jsx:7-14 | `filter` keeps exactly the elements that satisfy the condition, and never lengthens the list |
| Arrays.FilterConcat | src/pages/MaintenanceSection.jsx:187-191 | filtering distributes over concatenation, so the order of the kept elements is preserved |
| Arrays.FilterDisjointCount | src/pages/DashboardOverview.jsx:9-14 | two filters whose conditions never both hold keep at most as many elements as the list has |
| Arrays.FilterComplementCount | src/pages/MaintenanceSection.jsx:187-191 | two filters with complementary conditions split the list between them |
| Arrays.RemoveAt | src/pages/MaintenanceSection.jsx:49 | filtering out index `k` drops exactly the element at `k` and keeps the rest in order; an index out of range changes nothing |
| Arrays.Take | src/pages/DashboardOverview.jsx:97 | taking a prefix of length n gives the first `min(n, length)` elements, unchanged |
| Arrays.Reversed | src/App.jsx:46 | the newest-first reading of a history kept in written order has the last entry first: position i holds entry `n - 1 - i` |
| Constants.PmSequenceShape | src/lib/constants.js:20-32 | the sequence has eight steps, each a PM type that is one of `PM_TYPES`; PM4 occurs only at the last step; every PM type occurs in the sequence |
| Constants.CycleLabelsMatchSequence | src/lib/constants.js:20-31 | there are eight cycle labels; label i starts with the PM type of step i and names the 250·(i+1) hours the step falls on; the last label also marks the end of the cycle |
| Constants.SeedOperatorRoleIsNotInstructor | src/lib/constants.js:34-38 | no seeded account carries the `Instructor` role the permission checks name |
| Constants.SeedMachinesConsistent | src/lib/constants.js:40-80 | each seeded machine's stored step names its next PM type, and its due reading is 250 h after its last PM reading; seeded ids are distinct and seeded stock is not negative |
| PmCycle.MilestonesAreSteps | src/lib/utils.js:52 | the milestones are the eight multiples of 250 up to 2000, one per step |
| PmCycle.RelativeHm | src/lib/utils.js:54 | the reading within the cycle is the mathematical remainder modulo 2000, in `[0, 2000)`, for a non-negative reading and never positive for a negative one; always the reading minus a whole number of cycles |
| PmCycle.RecommendedIndex | src/lib/utils.js:50-84 | the recommended step is always one of the eight steps |
| PmCycle.GetRecommendedSequenceIndex | src/lib/utils.js:50-84 | the scan over the milestones, with its early `break`, returns the closed-form recommendation |
| PmCycle.RecommendedIsFirstUnreached | src/lib/utils.js:56-83 | the recommendation is the first milestone not yet reached within 25 h, with every earlier one reached; it wraps to step 0 from 1975 h into the cycle, and it is 0 for a negative reading |
| PmCycle.RecommendedPeriodic | src/lib/utils.js:54 | readings a whole number of 2000-hour cycles apart get the same step |
| PmCycle.RecommendedExamples | src/lib/utils.js:59-64 | 230 h gives step 1 and 210 h step 0; 224 h and 225 h lie on either side of the tolerance point; 1974 h gives step 7 and 1975 h wraps to 0 |
| PmCycle.NextPmStep | src/lib/utils.js:86-91 | a completed PM moves the index on by one and wraps after step 7; the next type is the sequence entry at the new index; the next due reading is 250 h after the reading the PM was done at |
| PmCycle.AdvanceIndexShifts | src/lib/utils.js:86-91 | after n completed PMs the index has moved on exactly n steps, modulo 8, whatever the readings |
| PmCycle.FullCycleReturns | src/lib/utils.js:86-91 | eight completed PMs bring the cycle back to the step it started from |
| PmCycle.AdvanceMatchesRecommendation | src/lib/utils.js:50-91 | when step i is completed at a reading between its own tolerance point and the next one, the step the cycle advances to is the step recommended for that reading |
| PmCycle.FormatDuration | src/lib/utils.js:5-11 | under one hour (3 600 000 ms) the text is the floored minutes followed by " min"; from one hour on it is the floored hours, "h ", the minutes past the hour and "m" |
| PmCycle.FormatDurationMinutes | src/lib/utils.js:5-11 | a time under an hour is rendered as its whole minutes followed by " min" |
| PmCycle.FormatDurationHours | src/lib/utils.js:5-11 | a time of h ≥ 1 hours and m minutes is rendered as "Hh Mm" |
| PmCycle.FormatDurationNegative | src/lib/utils.js:5-11 | a negative time is rendered as a negative number of minutes (floor division) |
| Bands.Band | src/pages/MaintenanceSection.jsx:228-235 | a machine is critical exactly when its reading has reached the due reading; it is in warning exactly when it is within 50 h before the due reading; otherwise it is fine |
| Bands.BandColour | src/pages/MaintenanceSection.jsx:235 | the card border is red exactly for a critical machine, yellow exactly for a warning and green exactly for a fine one |
| Bands.DueAndCloseExclusive | src/pages/MachineManagementSection.jsx:67-68 | no machine is both due and close, and each test picks out exactly one band |
| Bands.ShowPmButton | src/pages/MaintenanceSection.jsx:228-232 | the scheduled-PM button shows exactly when the reading is at least 50 h before the due reading, that is, exactly when the band is not fine |
| Bands.BlockBoundary | src/pages/MachineUsageSection.jsx:23-25 | 15 h past due is not blocked and 16 h past due is; every blocked machine is critical |
| Bands.IsBlocked | src/pages/MachineUsageSection.jsx:23-25 | a machine is blocked exactly when its reading is 16 h or more past the due reading, and a blocked machine is due |
| FuelGauge.FuelColour | src/components/FuelGauge.jsx:3-6 | red exactly at or under 20 %, yellow exactly above 20 % and up to 50 %, green exactly above 50 % |
| FuelGauge.FuelColourMonotone | src/components/FuelGauge.jsx:3-6 | more fuel never gives a worse colour |
| AppState.SeedMachineMap | src/lib/constants.js:40-75 | the seeded machines, stored under their ids, meet the store invariant |
| AppState.SeedSupplyMap | src/lib/constants.js:77-80 | the seeded supplies, stored under their ids, meet the store invariant |
| AppState.Store.Seeded | src/lib/constants.js:40-80 | a fresh store holds the seeded machines and supplies, no history, no kits and no open job, and meets the invariant |
| Maintenance.SeedRolesPermissions | src/pages/MaintenanceSection.jsx:26-27 | the administrator may register and manage kits; the seeded `Usuario` and `Visor` roles may do neither; managing kits implies registering |
| Maintenance.KitFor | src/pages/MaintenanceSection.jsx:24 | the kit of a PM kind is the stored list when one is configured, even an empty one, and empty otherwise |
| Maintenance.KitForAfterStore | src/pages/MaintenanceSection.jsx:37-39 | a kit written for a PM kind is read back as written, and every other kind keeps its kit |
| Maintenance.KitWithItem | src/pages/MaintenanceSection.jsx:30-44 | no selected supply is refused; an unknown supply is ignored; otherwise the kit is the old kit with one item appended, taken from the stored supply |
| Maintenance.KitKeepsDuplicates | src/pages/MaintenanceSection.jsx:35-38 | adding a supply already in the kit keeps the old line and appends a second one |
| Maintenance.HandleAddKitItem | src/pages/MaintenanceSection.jsx:30-44 | only the chosen PM type's kit changes, and it becomes the appended kit; a refused or ignored item changes nothing |
| Maintenance.RemoveKitItem | src/pages/MaintenanceSection.jsx:46-53 | only the chosen PM type's kit changes, and it loses exactly the item at the given index |
| Maintenance.OpenModalForm | src/pages/MaintenanceSection.jsx:55-76 | the form opens on the machine's reading and fuel (100 for a level of 0) with no images; a scheduled PM is described by its PM type and pre-lists every kit item, with its quantity and mandatory flag; a corrective event starts empty |
| Maintenance.AddSupplyToUsage | src/pages/MaintenanceSection.jsx:78-87 | a supply is added exactly when it is selected, stored, not yet listed and has enough stock; each refusal has its own error; the added line goes at the end, is not mandatory, and is taken from the stored supply |
| Maintenance.AddSupplyKeepsIdsDistinct | src/pages/MaintenanceSection.jsx:82-85 | adding supplies by hand never lists a supply twice |
| Maintenance.AddImages | src/pages/MaintenanceSection.jsx:89-109 | more than three images in total are refused; otherwise the new images are appended |
| Maintenance.RemoveImage | src/pages/MaintenanceSection.jsx:111-113 | removing the image at an index drops exactly that entry and keeps the rest in order; an index out of range changes nothing |
| Maintenance.FirstMissingMandatory | src/pages/MaintenanceSection.jsx:121-130 | there is no missing item exactly when every mandatory kit item is listed; otherwise the result is the first mandatory item not listed |
| Maintenance.CheckMandatoryKit | src/pages/MaintenanceSection.jsx:124-129 | the loop over the kit, with its early return, finds the first missing mandatory item |
| Maintenance.FindUsed | src/pages/MaintenanceSection.jsx:126 | `find` returns the first listed line for the supply, or nothing exactly when none lists it |
| Maintenance.FirstStockProblem | src/pages/MaintenanceSection.jsx:132-136 | there is no problem exactly when every listed supply is in inventory with stock for its quantity; otherwise the result is the first line that fails |
| Maintenance.CheckStock | src/pages/MaintenanceSection.jsx:132-136 | the loop over the listed supplies reports the first failing line's error (not in inventory, or insufficient stock with the stock shown) |
| Maintenance.ValidateSave | src/pages/MaintenanceSection.jsx:115-136 | a save passes exactly when the reading does not go back, a scheduled PM lists every mandatory kit item, and every line has stock; a backwards reading is reported first, then the first missing mandatory item, then the error of the first line that fails the stock check; a corrective event never fails on the kit |
| Maintenance.CurrentSeqIdx | src/pages/MaintenanceSection.jsx:143 | the cycle index a PM advances from is the stored one, or 0 when none is stored |
| Maintenance.RegisteredMachine | src/pages/MaintenanceSection.jsx:141-152 | every event sets the reading and the last-PM reading to the reading done and replaces the fuel level; a scheduled PM also advances the cycle one step, due 250 h later, and records the PM kind just done; a corrective event keeps the cycle; the machine stays cycle-consistent |
| Maintenance.RecordFor | src/pages/MaintenanceSection.jsx:155-166 | the history entry records the machine's id and name, the kind of event, the description, the reading, the fuel level, the supplies used and the images |
| Maintenance.Max0 | src/pages/MaintenanceSection.jsx:171 | `Math.max(0, x)` is never negative and is either 0 or x |
| Maintenance.LastQty | src/pages/MaintenanceSection.jsx:167-174 | some line lists the supply exactly when it has a last quantity |
| Maintenance.Decremented | src/pages/MaintenanceSection.jsx:167-174 | the stock writes keep the set of supply ids |
| Maintenance.DecrementedStock | src/pages/MaintenanceSection.jsx:167-174 | after the stock writes, each supply holds `max(0, stock − qty)` for the last line listing it, computed from the stock before the save; a supply that is not listed is unchanged |
| Maintenance.LastQtyDistinct | src/pages/MaintenanceSection.jsx:167-174 | with no supply listed twice, a supply's last line is its only line |
| Maintenance.DecrementedWellFormed | src/pages/MaintenanceSection.jsx:171 | the stock writes keep every supply under its id with non-negative stock |
| Maintenance.DuplicateLineDeductsOnce | src/pages/MaintenanceSection.jsx:132-174 | with 6 units and two lines of 5, both lines pass the check and 1 unit remains |
| Maintenance.StockWrites | src/pages/MaintenanceSection.jsx:167-174 | the loop of per-line stock writes produces the decremented supplies |
| Maintenance.HandleSave | src/pages/MaintenanceSection.jsx:115-185 | a failed check writes nothing and reports that check's error; otherwise the machine update, the history entry and the stock writes happen together and nothing else changes |
| Maintenance.PrefillPassesKitCheck | src/pages/MaintenanceSection.jsx:121-130 | a scheduled-PM form as opened lists every mandatory item, so it passes exactly when every kit line has stock |
| Maintenance.FilteredHistory | src/pages/MaintenanceSection.jsx:187-191 | the scheduled tab keeps the scheduled entries, the corrective tab the corrective ones, and any other tab keeps everything |
| Maintenance.HistoryTabsPartition | src/pages/MaintenanceSection.jsx:187-191 | every history entry is on exactly one of the scheduled and corrective tabs |
| MachineUsage.StartJobCheck | src/pages/MachineUsageSection.jsx:19-25 | the checks run in order: permission, then an open job, then the 15-hour block; starting is allowed exactly when the role may operate, no job is open and the machine is at most 15 h past due |
| MachineUsage.JobFor | src/pages/MachineUsageSection.jsx:29 | the job records the machine, its reading, the start time and the operator, and the fuel level with 0 read as 100 |
| MachineUsage.StartJob | src/pages/MachineUsageSection.jsx:19-38 | a refused start changes nothing; otherwise only the machine's in-use flag and the open job change |
| MachineUsage.AtMostOneOpenJob | src/pages/MachineUsageSection.jsx:21 | while a job is open no other job can start, whatever the role and the machine |
| MachineUsage.EndJobCheck | src/pages/MachineUsageSection.jsx:44-48 | a job can end exactly when the final reading is not below the start, the fuel level is a number in `[0, 100]`, and a drop of more than 50 points is confirmed; the reading check comes first |
| MachineUsage.UsageFor | src/pages/MachineUsageSection.jsx:51-63 | the usage entry keeps the job and records the end reading, the fuel, the end time, the hours added and the rendered duration |
| MachineUsage.EndJob | src/pages/MachineUsageSection.jsx:39-67 | a refused end changes nothing; otherwise the machine is freed with the final reading and fuel, one usage entry with non-negative hours is appended, and no job remains open |
| MachineUsage.Available | src/pages/MachineUsageSection.jsx:84 | a machine shown on the operation page is never in use; with no search text, a machine is shown exactly when it is not in use |
| MachineUsage.AvailableMachines | src/pages/MachineUsageSection.jsx:84 | the operation page lists exactly the machines not in use whose name contains the search text, ignoring case |
| MachineUsage.EmptySearchListsFreeMachines | src/pages/MachineUsageSection.jsx:84 | with no search text it lists exactly the machines not in use |
| MachineManagement.PermissionsNested | src/pages/MachineManagementSection.jsx:21-23 | whoever may edit may create and refuel; creating and refuelling go together; the seeded `Usuario` and `Visor` roles may neither create nor edit |
| MachineManagement.OpenForm | src/pages/MachineManagementSection.jsx:25-27 | an existing machine opens with its fields, its stored step or else the step recommended for its reading, and its fuel level (100 for 0); a new machine opens empty at step 0 with a full tank |
| MachineManagement.HmChanged | src/pages/MachineManagementSection.jsx:33-42 | typing a reading for a new machine re-proposes the step from it (an unreadable reading counts as 0); when editing, only the reading changes |
| MachineManagement.FormStepInRange | src/pages/MachineManagementSection.jsx:25-42 | whatever is typed, the form only ever proposes one of the eight steps |
| MachineManagement.Saved | src/pages/MachineManagementSection.jsx:49-51 | a saved machine takes the form's fields, its step and that step's PM type, due 250 h after the reading; the other fields are kept |
| MachineManagement.NewMachine | src/pages/MachineManagementSection.jsx:50-52 | a new machine stores the form's name, model, plate, reading, fuel level and step index, the step's PM type and a due reading 250 h on; it is not in use, has `Nuevo` as its last PM with reading 0, and is cycle-consistent |
| MachineManagement.HandleSave | src/pages/MachineManagementSection.jsx:47-53 | an unreadable or negative reading is refused and changes nothing; editing a machine that is no longer stored fails; otherwise only that machine is written, or the new one added |
| MachineManagement.HandleRefuel | src/pages/MachineManagementSection.jsx:29-32 | without a selection nothing happens; a level not above the current one is refused; otherwise only that machine's fuel level changes |
| Inventory.PermissionsNested | src/pages/InventorySection.jsx:20-22 | whoever may edit and delete may create and restock; the seeded `Usuario` and `Visor` roles may neither create nor restock |
| Inventory.SearchSupplies | src/pages/InventorySection.jsx:23 | the search keeps exactly the supplies whose name contains the search text, ignoring case |
| Inventory.EmptySearchKeepsAll | src/pages/InventorySection.jsx:23 | an empty search keeps every supply, in order |
| Inventory.SearchIgnoresCase | src/pages/InventorySection.jsx:23 | searching for the lowercased text gives the same list as searching for the text itself |
| Inventory.LowStockBadge | src/pages/InventorySection.jsx:69 | the badge is red exactly when the stock is under 10 |
| Inventory.Restocked | src/pages/InventorySection.jsx:40 | restocking adds exactly the quantity to the stock and changes no other field |
| Inventory.HandleRestock | src/pages/InventorySection.jsx:33-45 | without a selection nothing happens; a quantity not above 0 is refused; a supply that is no longer stored fails; otherwise only that supply's stock grows |
| NotificationCenter.MachineAlert | src/components/NotificationCenter.jsx:18-25 | a machine raises a critical alert exactly when it is due and a warning exactly when it is within 50 h of due, and no alert otherwise; the alert carries the machine's id |
| NotificationCenter.MachineAlerts | src/components/NotificationCenter.jsx:18-26 | there are no more machine alerts than machines, and every alert is the alert of some machine in the list |
| NotificationCenter.MachineAlertListed | src/components/NotificationCenter.jsx:18-26 | a machine that raises an alert, critical or warning, has that alert in the list, right after the alerts of the machines before it |
| NotificationCenter.MachineAlertFollowsBand | src/components/NotificationCenter.jsx:21-24 | the alert kind is the machine's band |
| NotificationCenter.WarningHoursLeft | src/components/NotificationCenter.jsx:24 | a warning names the 1 to 50 hours left before the due reading |
| NotificationCenter.SupplyAlert | src/components/NotificationCenter.jsx:29-33 | a supply raises a warning exactly when its stock is under 10 |
| NotificationCenter.SupplyAlerts | src/components/NotificationCenter.jsx:28-35 | there are no more supply alerts than supplies, supplies only ever raise warnings, and every alert is the alert of some supply in the list |
| NotificationCenter.SupplyAlertListed | src/components/NotificationCenter.jsx:28-35 | a supply with fewer than 10 units has its warning in the list, right after the alerts of the supplies before it |
| NotificationCenter.BuildAlerts | src/components/NotificationCenter.jsx:15-37 | the two `forEach` passes build the machine alerts in machine order followed by the supply alerts in supply order |
| NotificationCenter.MachineAlertsConcat | src/components/NotificationCenter.jsx:18-26 | the alerts for two lists of machines are the alerts for each, in order |
| NotificationCenter.MachineAlertsCritical | src/components/NotificationCenter.jsx:18-26 | there is a critical machine alert exactly when some machine is due |
| NotificationCenter.HasCriticalIffOverdue | src/components/NotificationCenter.jsx:39 | the bell shows a critical state exactly when some machine is due |
| NotificationCenter.HasWarningIffNearDueOrLow | src/components/NotificationCenter.jsx:40 | the bell shows a warning exactly when some machine is within 50 h before its due reading or some supply has fewer than 10 units |
| NotificationCenter.HasAlertsIffNonEmpty | src/components/NotificationCenter.jsx:39-41 | the bell shows alerts exactly when the list is not empty |
| Dashboard.MachinesInUse | src/pages/DashboardOverview.jsx:7 | the machines in operation never exceed the fleet |
| Dashboard.LowStockItems | src/pages/DashboardOverview.jsx:8 | the low-stock items are exactly the supplies with fewer than 10 units |
| Dashboard.LowStockHighlighted | src/pages/DashboardOverview.jsx:68-71 | the low-stock card is highlighted exactly when some supply is under 10 units |
| Dashboard.Overdue | src/pages/DashboardOverview.jsx:9 | the counted critical machines are exactly those that are due |
| Dashboard.DueSoon | src/pages/DashboardOverview.jsx:10-14 | the counted warning machines are exactly those within 50 h before due |
| Dashboard.AlertTotal | src/pages/DashboardOverview.jsx:9-14 | the alert card's value is critical plus warning, and never more than the fleet size |
| Dashboard.CriticalAlerts | src/pages/DashboardOverview.jsx:9 | the critical count is at most the fleet size, and positive exactly when some machine is due |
| Dashboard.WarningAlerts | src/pages/DashboardOverview.jsx:10-14 | the warning count is at most the fleet size, and positive exactly when some machine is within 50 h before its due reading |
| Dashboard.AlertColour | src/pages/DashboardOverview.jsx:50-63 | the card is red exactly when there are critical alerts, yellow exactly when there are warnings and no critical alerts, and green otherwise |
| Dashboard.AlertCardGreen | src/pages/DashboardOverview.jsx:50-63 | the card is green exactly when every machine is more than 50 h before due |
| Dashboard.HoursReduceIsSum | src/pages/DashboardOverview.jsx:77 | the `reduce` from any start value adds the sum of the entries' hours to it |
| Dashboard.HoursOperated | src/pages/DashboardOverview.jsx:77 | the hours-operated card is the sum of the hours of the usage entries |
| Dashboard.HoursOperatedAppend | src/pages/DashboardOverview.jsx:77 | the hours operated are the sum over the usage history, and appending an entry adds its hours |
| Dashboard.HoursOperatedNonNegative | src/pages/DashboardOverview.jsx:77 | with each entry's hours non-negative, as ending a job guarantees, the total is non-negative |
| Dashboard.RecentMaintenance | src/pages/DashboardOverview.jsx:97 | the recent panel shows the five newest entries, newest first, or all of them when there are fewer; entry i of the panel is the i-th from the end of the written history |
| Dashboard.RecentAfterSave | src/App.jsx:46 | after a save the new record heads the panel and the four newest of the earlier ones follow it |

## Left out

- Firestore (the document store) is modelled as the in-memory `Store`. Its snapshot listeners, document paths, the `userId`/`appId` scoping, `serverTimestamp`, and write failures other than the modelled `WriteFailed` cases (restocking a supply or editing a machine that is gone) are not modelled. A Firestore batch is taken as atomic, so a modelled save either writes all of its parts or none.
- Concurrency is not modelled: stale page snapshots and two tabs writing the same document. Each handler runs against the current store. Handlers that read a snapshot in the source (the refuel level compare, the stock writes of a maintenance save) read the store at the start of the call.
- `MachineManagement.HandleRefuel`: the requirement that the selected machine is still stored stands in for the source's failing `updateDoc`. A level that does not parse (`NaN`) is not modelled; in the source it passes the compare and is written.
- `MachineManagement.HandleSave`: the step index is required to lie in `[0, 8)`, as the form only offers those. A fresh `newId` is a parameter, and it is required not to be stored. The fuel field is an already-parsed number.
- Number parsing: `parseInt` and `NaN` appear as `Option<int>` only where the source tests for `NaN`. These are the machine editor's reading and the end-of-job fuel level. Other form fields are numbers already.
- The `|| 0` and `|| 100` defaults for missing stored fields: stored numbers are always present here. `|| 100` on a fuel level of 0 is modelled, because 0 is a real value.
- `compressImage` (canvas resizing and JPEG quality) and the 2 MB warning are not modelled: images are opaque values, and an image that fails to compress is taken to be added.
- The clock: `Date.now()` is the parameter `now`, read once per handler call. The usage entry's `durationMinutes` (`Math.round`) is not modelled. The rendered duration text is.
- `toLowerCase` covers ASCII letters only; the Unicode case mapping is not modelled.
- The machine editor's image fields (`image_type`, `image_src`, the file upload), the generated `series` text and `MACHINE_ICONS` are not modelled.
- The prefilled `stock` display field on the used-supplies lines of the maintenance form is not stored, so it is not modelled.
- Supply creation and editing (`handleSaveStock`), and deleting machines and supplies, are not modelled: they write the form as typed and have no checks.
- `window.confirm` for a large fuel drop is the boolean parameter `confirmHighUse`.
- The input controls' `min`/`max` bounds (the fuel field and the 0–100 fuel sliders) are not modelled. The fuel handlers take any integer, so the refuel and maintenance contracts cover levels outside `[0, 100]` too.
- The histories are kept in the order they were written. The client sorts them newest first (maintenance by the server timestamp, usage by `endTime`). The model takes that order as written order reversed, since each write is stamped no earlier than the one before. Timestamps themselves and the order among equal timestamps are not modelled.
- The `limit(50)` on the two history queries is not modelled: the histories hold every entry written.
- Authentication, the user list, the layout, the printed maintenance report, toasts and loaders are outside this model.
