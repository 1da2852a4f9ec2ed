# Purchase-order status engine

A Dafny model of the status-derivation core of a small purchase-order tracker
(`app4.py`). Buyers register an order when it is sent to a supplier, with a
dispatch lead time and a transport lead time. The expected dispatch date is
the send date plus the dispatch lead. Later the dispatch date is recorded,
and the expected receipt date becomes the dispatch date plus the transport
lead. Last, the receipt date is recorded. On every read, `check_statuses`
derives four columns per order against "today": a dispatch status, a
receipt status, an overall status and a signed `days_to_arrival`. The order
list then filters the delayed orders (overall status contains `atrasada`)
and the near-deadline orders (contains `próximo`), and colours the selected
order's status.

Files:

- `wrappers.dfy` (`Wrappers`): `Option` for missing dates and unwritten cells, `Result` for refused input.
- `purchase_orders.dfy` (`PurchaseOrders`): the order record, the three events that fill in its dates (`NewOrder`, `RecordDispatch`, `RecordReceipt`), and the invariants they keep.
- `status_engine.dfy` (`StatusEngine`): the engine itself, written as the source writes it. It is a fixed sequence of guarded, last-writer-wins overwrites of the status columns: dispatch rules, then receipt rules, then the day count, then the near-deadline rule. `CheckStatuses` applies it to a whole table.
- `status_properties.dfy` (`StatusProperties`): a closed-form classification `Classify`, proved equal to the rule sequence under the record invariant. Also the exclusivity of each rule group, inclusive boundaries, override precedence, confinement of the near-deadline rule, and how the events drive the statuses.
- `text.dfy` (`Text`): substring search, case-sensitive and case-insensitive.
- `display.dfy` (`Display`): the delayed and near-deadline filters, the PO-number lists they produce, and the colour of a status.
- `scenarios.dfy` (`Scenarios`): worked examples on concrete dates.

Modelling choices:

- A date is an integer day number counted from 1970-01-01 (`Day`), and a missing date (NaT) is `None`.
- Python's `datetime.date` and `datetime.datetime` end at 9999-12-31 (`LastCalendarDay`). Adding a lead time past it raises `OverflowError`, which the entry events return as `Failure(CalendarOverflow)`.
- `check_statuses` first converts every date column with `pd.to_datetime`. In pandas 2.x this parses date text into nanosecond timestamps, which cover 1677-09-22 to 2262-04-11 at midnight (`FirstTimestampDay`, `LastTimestampDay`). The range, and the two timestamp-range findings below, depend on that resolution. One date outside the range makes the conversion fail for the whole table, so `CheckStatuses` returns `Failure(DateNotConvertible)`. Otherwise it classifies each row on its own (`StatusRows`).
- On a table with no rows, the `.loc` assignment at line 220 cannot add a column from a scalar: pandas raises `ValueError` for a frame with no rows. `CheckStatusesAsWritten` models this as `Failure(NoRowsToAssign)`. The rest of the model uses the corrected `CheckStatuses`, which gives an empty result (see Findings).
- pandas compares a missing date (NaT) as false with the four ordering operators `<=`, `>`, `>=` and `<` that the rules use. The guards `DateLe`, `DateGt`, `OnOrAfter` and `Before` reproduce this, so no rule that reads a missing date ever fires.
- A status cell that no rule writes stays NaN. It is `None` in `StatusColumns`.
- "Today" is a parameter, read once per classification.
- The send-date picker offers dates from ten calendar years before today up to today. The lower bound needs a calendar, so `earliest` is a parameter of the registration.
- Every stored date is a midnight timestamp, so whole-day differences are exact.
- Each overall status is a datatype constructor. `OverallLabel` gives its exact Portuguese label string, and the filters search those strings.
- A missing overall status is rendered as the text `nan` before it is searched.
- When `"atrasada" in status` is given a missing status, it raises a type error. `StatusColour` returns `Failure(StatusNotText)` in that case.
- `CheckStatus` is total. An order whose dates break `StatusInvariant` still gets whatever the rules compute, and the code raises no error for it. `NearDeadlineMeaning`, `UndispatchedOrder` and `CheckStatusIsClassify` state what happens under the invariant.
- The near-deadline rule checks only `days_to_arrival <= 3`, not `>= 0`. When every rule reads the same today, `NearDeadlineMeaning` proves the count there is never negative: an order whose expected receipt date has passed is already 'atrasada - em trânsito'. The code reads the clock separately for each rule, and a run that spans midnight can relabel an order with a count of -1 (`Scenarios.ReadingTodayAcrossMidnight`).

## Model

| member | source | states |
|---|---|---|
| PurchaseOrders.NewOrderAsWritten | app4.py:111-112 | An order is accepted exactly when the form bounds of lines 298-302 hold and the expected dispatch date exists. The bounds are: number at least 1, send date from `earliest` to today, and both leads at least 1. The expected dispatch date exists when send date + dispatch lead is not past 9999-12-31; otherwise the error is the overflow. The new order has no later dates and satisfies `Consistent`. |
| PurchaseOrders.NewOrder | app4.py:111-112 | Corrected registration (see Findings). It is accepted exactly when the as-written entry is, both the send date and the expected dispatch date lie in the timestamp range, and send date + transport lead does too. It then gives the same order, which the status table can read (`Readable`). |
| PurchaseOrders.RegisteredOrderIsDispatchable | app4.py:555-557 | Every order the corrected registration accepts can be dispatched by the corrected update, at the latest on its send date. |
| PurchaseOrders.RecordDispatchAsWritten | app4.py:535-557 | Dispatch is accepted exactly for an undispatched order, with a date between the send date and today, and with dispatch date + transport lead not past 9999-12-31. It sets the dispatch date and the expected receipt to that sum, and changes nothing else. It keeps `StatusInvariant` and `Consistent`, and the order only gains dates (`Extends`). |
| PurchaseOrders.RecordDispatch | app4.py:555-557 | Corrected dispatch (see Findings). For a readable order, it is accepted exactly when the order is undispatched, the date lies between the send date and today, and dispatch date + transport lead is not past 2262-04-11. It then gives the as-written result, which stays readable. |
| PurchaseOrders.RecordReceipt | app4.py:526-561 | Receipt is accepted exactly for a dispatched, unreceived order, with a date between the dispatch date and today. It sets only the receipt date, keeps both invariants, and never clears a date. A readable order stays readable while today is within the timestamp range. |
| StatusEngine.DispatchRules | app4.py:219-236 | Only the dispatch and overall columns change, and nothing changes without an expected dispatch date. With one, a dispatch status is written. The overall status is 'no prazo - em trânsito' if the order was dispatched. Otherwise it is the on-time "not sent" label while the deadline is not before today, and the late one after. |
| StatusEngine.ReceiptRules | app4.py:241-258 | Only the receipt and overall columns change, and nothing changes without an expected receipt date. With one, a receipt status is written. The overall status is 'Finalizada' once received; otherwise it is in transit on time while the deadline is not before today, and late after. |
| StatusEngine.DaysToArrival | app4.py:261 | The day count is present exactly when the expected receipt date is. Today plus the count lands on that date. |
| StatusEngine.NearDeadlineRule | app4.py:264-265 | Only the overall status may change, and only from 'no prazo - em trânsito' to 'prazo próximo do encerramento'. An on-time order in transit is relabelled exactly when its count is present and at most 3. |
| StatusEngine.CheckStatus | app4.py:212-267 | A known expected dispatch date always yields a dispatch and an overall status. A receipt status is written exactly when the expected receipt date is known. 'Finalizada' holds exactly when both the receipt date and the expected receipt date are present. A near-deadline order is unreceived, with its expected receipt from today to three days on. `StatusProperties.CheckStatusIsClassify` gives the full closed form. |
| StatusEngine.StatusRows | app4.py:216-265 | One row per order, in order. Each row carries its own order and that order's status columns. |
| StatusEngine.CheckStatuses | app4.py:212-214 | Corrected engine (see Findings). The table fails as a whole exactly when some order holds a date outside the timestamp range. Otherwise it has one row per order, in order, each with that order's status columns. An empty table gives an empty result. |
| StatusEngine.CheckStatusesAsWritten | app4.py:212-267 | An empty table fails, because the first `.loc` assignment of a scalar into a new column raises on a frame with no rows. A table with rows succeeds exactly when every order is readable, and then agrees with `CheckStatuses`. |
| StatusProperties.CheckStatusIsClassify | app4.py:212-267 | For an order satisfying the record invariant, the sequence of overwrites equals the closed-form nested classification `Classify`. |
| StatusProperties.DispatchRulesPartition | app4.py:219-236 | Exactly one of the four dispatch guards holds when the expected dispatch date is present, and none holds when it is missing. A dispatch status is written exactly in the first case. |
| StatusProperties.ReceiptRulesPartition | app4.py:241-258 | Exactly one of the four receipt guards holds when the expected receipt date is present, and none holds otherwise. A receipt status is written exactly then. |
| StatusProperties.DispatchStatusMeaning | app4.py:219-236 | Gives each dispatch status value as an if-and-only-if over the dispatch date, the expected dispatch date and today. |
| StatusProperties.ReceiptStatusMeaning | app4.py:241-258 | Gives each receipt status value as an if-and-only-if over the receipt date, the expected receipt date and today. |
| StatusProperties.DeadlinesAreInclusive | app4.py:219-251 | Meeting a deadline on its last day counts as on time, for both dispatch and receipt. So does a deadline that falls on today. |
| StatusProperties.DispatchTimingIrrelevant | app4.py:219-226 | For a dispatched order, changing the dispatch date leaves the overall status, the receipt status and the day count unchanged. A late dispatch alone never makes the order late. |
| StatusProperties.DispatchedOrderStartsInTransit | app4.py:219-226 | Both dispatch outcomes set the overall status to 'no prazo - em trânsito' before the receipt rules run. |
| StatusProperties.CompletedIffReceived | app4.py:241-248 | The overall status is 'Finalizada' if and only if both the receipt date and the expected receipt date are present, whatever the dispatch timing. |
| StatusProperties.UndispatchedOrder | app4.py:229-258 | Take an undispatched order that satisfies the invariant. It has no receipt status and no day count. Its overall status is the on-time "not sent" label exactly when the expected dispatch date is not before today, and the late one otherwise. The near-deadline rule leaves it unchanged. |
| StatusProperties.DaysToArrivalMeaning | app4.py:261 | The day count is present exactly when the expected receipt date is. When present, today plus the count is that date. |
| StatusProperties.NearDeadlineOnlyFromOnTime | app4.py:264-265 | The final status is 'prazo próximo do encerramento' if and only if the status before the last rule was 'no prazo - em trânsito' with a day count of at most 3. Any other earlier status is kept, and no other column changes. |
| StatusProperties.NearDeadlineMeaning | app4.py:251-265 | A near-deadline order is unreceived and has an expected receipt 0 to 3 days from today. Under the invariant this is an if-and-only-if, and the order has also been dispatched. |
| StatusProperties.OverallAlwaysWritten | app4.py:219-236 | Every order with an expected dispatch date gets an overall status. |
| StatusProperties.LatenessPersists | app4.py:229-258 | A late or finished overall status stays the same on every later day. |
| StatusProperties.StatusRowsAppend | app4.py:216-265 | Classifying the rows of two tables put together gives the two results put together: no row depends on another. |
| StatusProperties.CheckStatusesAppend | app4.py:212-214 | For the corrected engine, two tables put together are classified exactly when each is, and the result is the two results put together. So one unreadable order anywhere fails the whole table. |
| StatusProperties.CheckStatusesAsWrittenAppend | app4.py:212-267 | For the engine as written, two non-empty tables put together are classified exactly when each is, and the result is the two results put together. |
| StatusProperties.NewOrderKeepsTableReadable | app4.py:214 | Adding an order made by the corrected registration to a table the engine accepts gives a table it still accepts. |
| StatusProperties.DispatchKeepsTableReadable | app4.py:214 | Replacing an order of an accepted table by its corrected dispatch update gives a table the engine still accepts. |
| StatusProperties.NewOrderNotDispatched | app4.py:229-236 | A newly registered order is "not sent". It is on time exactly while today is at most the send date + dispatch lead, and it has no receipt status or day count. |
| StatusProperties.DispatchPutsOrderInTransit | app4.py:555-557 | After the dispatch event, an unreceived order is in transit: on time, near deadline, or late. Its day count is dispatch date + transport lead − today, and it is late exactly when that date has passed. |
| StatusProperties.ReceiptCompletesOrder | app4.py:241-248 | After the receipt event, the order is 'Finalizada' on every day. |
| Display.StatusText | app4.py:415 | A missing status renders as "nan", and no status label reads "nan". |
| Display.IsDelayed | app4.py:415 | The delayed filter holds exactly for 'atrasada - remessa não enviada' and 'atrasada - em trânsito'. |
| Display.IsNearDeadline | app4.py:416 | The near-deadline filter holds exactly for 'prazo próximo do encerramento'. |
| Display.LabelText | app4.py:415-416 | Which overall labels contain 'atrasada', ignoring case or not: exactly the two late labels. Only the near-deadline label contains 'próximo', and the two on-time labels contain 'no prazo'. |
| Display.DelayedClassification | app4.py:415 | The delayed filter (case-insensitive 'atrasada' on the status text) matches exactly 'atrasada - remessa não enviada' and 'atrasada - em trânsito'. It never matches a missing status. |
| Display.NearDeadlineClassification | app4.py:416 | The near-deadline filter (case-insensitive 'próximo') matches exactly 'prazo próximo do encerramento'. |
| Display.FlaggedOrders | app4.py:415-427 | A PO number is in the list exactly when some row with that number matches the pattern and, if a buyer is chosen, belongs to that buyer. The list is no longer than the table. |
| Display.DelayedOrders | app4.py:423-426 | The delayed list names exactly the orders (of the chosen buyer) whose overall status is one of the two late statuses. |
| Display.NearDeadlineOrders | app4.py:423-427 | The near-deadline list names exactly the orders (of the chosen buyer) whose overall status is near the deadline. |
| Display.StatusColour | app4.py:493-500 | A missing status is an error. Otherwise the colour is danger exactly for the two late statuses and warning exactly for the near-deadline status, and never the fallback colour. |
| Display.ColourAgreesWithFilters | app4.py:493-500 | A missing status is an error. Otherwise the status is coloured danger exactly when the delayed filter lists it, and warning exactly when the near-deadline filter does. It gets success exactly for the two on-time statuses and 'Finalizada', and never the fallback colour. |
| Scenarios.InTransitWithRoom | app4.py:219-265 | Sent 2024-06-01 with leads 5 and 10, dispatched June 5. On June 10 it is dispatched on time, in transit on time, with 5 days left. The record is the one the events produce. |
| Scenarios.InTransitNearDeadline | app4.py:261-265 | The same order on June 13 has 2 days left and is near its deadline. |
| Scenarios.NeverDispatched | app4.py:234-236 | Sent 2024-05-01 with dispatch lead 3 and never dispatched. On June 10 dispatch is late and the order is 'atrasada - remessa não enviada'. |
| Scenarios.ReceivedLateIsFinished | app4.py:246-248 | Received two days after its expected receipt date: received late, overall 'Finalizada'. |
| Scenarios.TenDaysLeft | app4.py:251-261 | Expected receipt 10 days after today: in transit on time with a day count of 10. |
| Scenarios.ReadingTodayAcrossMidnight | app4.py:251-265 | Receipt rules run on the expected receipt day and the count is taken the next day. The order ends 'prazo próximo do encerramento' with a count of -1. |
| Scenarios.HugeDispatchLeadBreaksTable | app4.py:111-112 | A dispatch lead of 100000 days entered on 2024-06-01 is accepted as written. Any table holding the order fails, and the corrected registration refuses the lead. |
| Scenarios.EmptyTableFailsAsWritten | app4.py:447-618 | With no orders, the engine as written fails before the `if pos:` test can show "Nenhuma ordem de compra encontrada."; the corrected engine gives an empty table. |
| Scenarios.HugeTransportLeadBreaksTable | app4.py:555-557 | A transport lead of 100000 days is accepted at registration and dispatch as written, and any table holding the order fails. The corrected registration refuses the lead, and the corrected update refuses the dispatch. |

## Findings

| source | as written | input that shows it | evidently intended | confidence | as-written member | corrected member |
|---|---|---|---|---|---|---|
| app4.py:111-112 | The dispatch-lead widget (line 301) has no upper bound. Any expected dispatch date up to 9999-12-31 is stored. The conversion at line 214 (pandas 2.x nanosecond timestamps) only reaches 2262-04-11, so one such order fails `check_statuses` and with it the whole order list (line 407). | Dispatch lead 100000 entered on 2024-06-01. | A lead that puts the expected date out of the list's reach is refused at entry. | medium; not executed | PurchaseOrders.NewOrderAsWritten, Scenarios.HugeDispatchLeadBreaksTable | PurchaseOrders.NewOrder, StatusProperties.NewOrderKeepsTableReadable |
| app4.py:555-557 | The transport-lead widget (line 302) has no upper bound, and dispatch date + transport lead is stored as the expected receipt date. Past 2262-04-11 the conversion at line 214 (pandas 2.x nanosecond timestamps) fails, and so does the whole order list. | Transport lead 100000, dispatched 2024-06-01. | The update is refused when the expected receipt date would be out of the list's reach. Registration already refuses a transport lead that would put even a dispatch on the send date out of reach, so every registered order stays dispatchable. | medium; not executed | PurchaseOrders.RecordDispatchAsWritten, Scenarios.HugeTransportLeadBreaksTable | PurchaseOrders.RecordDispatch, StatusProperties.DispatchKeepsTableReadable, PurchaseOrders.RegisteredOrderIsDispatchable |
| app4.py:212-220 | On a table with no rows, the `.loc` assignment at line 220 cannot add a column from a scalar, and pandas raises `ValueError`. So the order list fails before the `if pos:` test at line 447 can reach the message at lines 617-618. | No purchase orders in the database. | An empty table gives an empty result, and the page shows "Nenhuma ordem de compra encontrada." | medium; not executed (rests on how pandas' `.loc` setter treats a frame with no rows) | StatusEngine.CheckStatusesAsWritten, Scenarios.EmptyTableFailsAsWritten | StatusEngine.CheckStatuses, StatusProperties.CheckStatusesAppend |

## Left out

- User accounts, login, password hashing, sessions and the settings page (app4.py:8-36, 79-108, 194-209, 270-291, 316-383, 620-666). These are authentication and UI, and hashing is a foreign library call.
- SQLite persistence: table creation, inserts, updates, queries, and the UNIQUE-constraint handling that rejects a duplicate PO number (app4.py:38-59, 110-128, 142-192). This is I/O. The model covers the values these calls store, not the store.
- Comment threads and date string formatting (app4.py:61-77, 130-158, 409, 566-613). These are I/O and presentation.
- Page layout, markdown, the colour hex strings and the status/buyer drop-down filters (app4.py:386-400, 443-473, 503-523). These are presentation. The colour is modelled as a four-valued choice.
- Joining the PO numbers with ', ' (`str.cat`, app4.py:415-416). The lists are modelled as sequences of PO numbers in table order.
- Parsing the stored date text (app4.py:214), apart from its range limit. The stored dates are given as day numbers.
- Reading the clock (`datetime.date.today()`, app4.py:229). Today is a parameter.
- StatusEngine.CheckStatus: takes one today, while the code reads the clock separately at app4.py:229, 234, 251, 256 and 261. A run that spans midnight can mix two days, and then a near-deadline order can have a count of -1 (`Scenarios.ReadingTodayAcrossMidnight`). The 0-to-3 bound of `NearDeadlineMeaning` holds for one reading only.
- PurchaseOrders.NewOrderAsWritten: the picker's lower bound, ten calendar years before today, is the parameter `earliest`, because computing it needs calendar arithmetic.
- Text.Lower: folds only ASCII and Latin-1 capitals, not full Unicode case-insensitive matching. These are the only capitals that occur in the status labels. The filter patterns contain no regular-expression metacharacters, so the regex search is modelled as plain substring search.
- Display.FlaggedOrders: states list membership and length, not the order of the list. The body keeps table order.
