# Rifas Teuco: a Dafny model of the raffle bookkeeping

Rifas Teuco keeps the books of a terreiro's raffles. Each raffle has a title, a category
(an entity of the house such as "Caboclo" or "Preto Velho"), a date and a ticket price. It
collects **sales** (tickets sold and the amount received) and **costs**. A cost can be a
**donation**, which is charged nothing, or a **reimbursement** owed to whoever paid it. A
reimbursement is *pending* until it gets a non-empty reimbursement date and *completed*
after that. Every change is written to an append-only **history log**.

This project models the rules of that bookkeeping and proves what they promise:

- **Server** (`store.dfy`, `ledger.dfy`, `raffles_api.dfy`, `history_api.dfy`).
  - The database is a class over four sequence tables, with a snapshot for rollback.
  - Creating a raffle validates the request, inserts the raffle and its one
    `CREATE_RAFFLE` log row in one transaction, and keeps both or neither.
  - The raffle listing nests each raffle's own sales and costs, turns the 0/1 columns
    into booleans and orders by date, then title.
  - The history listing does the same coercion for `undone`.
- **Records** (`types.dfy`): costs, sales, raffles, history logs and the twelve action
  types.
- **Application rules** (`app.dfy`).
  - A class over the application's state.
  - Finalising is blocked exactly while a reimbursement is pending. Reopening is never
    blocked.
  - Deleting is blocked for a finalised raffle or one with pending reimbursements.
  - Also modelled: the finalise toggle, recording and removing a reimbursement, and the
    undo selection.
- **Entry forms** (`global_entry_form.dfy`, `inline_entry_form.dfy`,
  `edit_cost_modal.dfy`, `edit_sale_modal.dfy`, `edit_raffle_modal.dfy`,
  `reimbursement_modal.dfy`, `item_form_modal.dfy`).
  - Each form is a class whose handler and effect methods update its fields.
  - The validation is a pure function shared through `entry_rules.dfy`.
  - The donation and reimbursement boxes exclude each other.
  - The sale amount follows quantity times ticket price until the user types an amount.
  - Opening a form on an entry and saving without edits gives the entry back.
- **Pages** (`raffle_detail_page.dfy`, `raffle_list_page.dfy`,
  `reimbursements_page.dfy`, `reimbursement_history_page.dfy`, `relatorios_page.dfy`,
  `monthly_reports_page.dfy`, `history_page.dfy`, with `totals.dfy` and `reports.dfy`).
  - Totals: sales, costs without donations, and profit. The raffle cards of
    `components/RaffleListPage.tsx:29-31` compute them with the same reduces as
    `Totals.FiguresOf`.
  - The pending/completed split of reimbursable costs.
  - Order-preserving filters and the "finalised last, latest first" list order.
  - The category, month and year reports, which fill dictionaries in a `forEach`. They are
    proved to hold one bucket per key, each the sum of its raffles. The monthly page's
    margin bar is the same clamp as `Reports.ClampedMargin`
    (`components/MonthlyReportsPage.tsx:101-102`).
- **Codec** (`encoding.dfy`).
  - `bufferToBase64` is Base64 of section 4 of RFC 4648, rewritten to the URL and filename
    safe alphabet of section 5 with the padding removed, as section 3.2 allows.
  - `base64ToBuffer` fills a byte array in a loop.
  - Decoding what was encoded gives the bytes back.
- **Shared modules**:
  - `seqs.dfy`: `filter`, `map`, `find`, `reduce` and a stable `sort` with its comparator
    as a strict weak order;
  - `text.dfy`: strings, code-point order and case-insensitive search;
  - `numbers.dfy`: `parseInt`, `parseFloat` and `toFixed(2)`;
  - `wrappers.dfy`: `Option` with `GetOr`.

**Representation:**

- Amounts are exact `real` numbers.
- `toFixed(2)` is rounding to whole cents, half away from zero.
- The 0.001 tolerance of the sale modal is an exact comparison.
- A day is `Date(year, month, day)` with the month from 1 to 12.
- An optional date field keeps the difference between absent and `''`. Only a non-empty
  date is truthy.
- Optional booleans are `Option<bool>`; only `Some(true)` is truthy.
- Fresh ids and the current day are parameters.
- A database failure is an oracle parameter that says which write fails.

## Model

| member | source | states |
|---|---|---|
| Types.ActionTypesAreTwelve | types.ts:31-43 | the action-type enumeration has exactly twelve distinct members and every action type is among them |
| Types.EarlierIsStrictTotalOrder | types.ts:24 | comparing raffle and cost dates by time is irreflexive, transitive and total on distinct days |
| Types.ReimbursementStates | types.ts:5-8 | a cost flagged as a reimbursement is pending (no reimbursement date) or reimbursed (a non-empty one), never both |
| Ledger.NullIfEmpty | api/_lib/history.ts:35 | an entity id is stored iff it is present and non-empty, and then verbatim; otherwise NULL |
| Ledger.LogInsertOf | api/_lib/history.ts:26-38 | the inserted row has the generated id, the action type, raffle id, raffle title and description verbatim, the entity id or NULL, and the two states as given |
| Ledger.CreateHistoryLog | api/_lib/history.ts:14-40 | exactly one row is appended to the history table, under the fresh id, with the table's clock and no undone flag; no other table changes |
| Store.Database.BeginTransaction | api/raffles/index.ts:42 | the tables are unchanged and their current contents are saved for a rollback |
| Store.Database.InsertRaffle | api/raffles/index.ts:54-61 | one raffle row is appended; the other tables and the saved snapshot are unchanged |
| Store.Database.InsertLog | api/_lib/history.ts:26-39 | one history row is appended with the table's timestamp and an unset undone flag; nothing else changes |
| Store.Database.Commit | api/raffles/index.ts:77 | the tables keep what was written and the snapshot is dropped |
| Store.Database.Rollback | api/raffles/index.ts:80 | the tables go back to the snapshot taken when the transaction began |
| HistoryApi.LogOf | api/history/index.ts:16-21 | a served log has every column of its row unchanged and an `undone` that is always a boolean, true iff the stored flag is set |
| HistoryApi.RefusalReadsNothing | api/history/index.ts:6-9 | any method but GET gets 405 allowing only GET, whatever the table holds or the query would do |
| HistoryApi.FailureCarriesMessage | api/history/index.ts:24-26 | a failing query is answered 500 with the error's own message |
| HistoryApi.ListingServesEveryRow | api/history/index.ts:14-23 | the listing is a permutation of the rows as `LogOf` maps them (the same multiset: one entry per row, every row, nothing else), is ordered newest first, and has `undone` set on every entry |
| RafflesApi.RollbackWith | api/raffles/index.ts:79-82 | on an error the tables return to the transaction's snapshot and the answer is 500 with the error's message |
| RafflesApi.HandlePost | api/raffles/index.ts:33-83 | the answer and the new tables are those of the create rule `PostOutcome`, and no transaction is left open |
| RafflesApi.Handle | api/raffles/index.ts:85-95 | GET reads without changing the tables (500 if the queries fail), POST creates, and any other method gets 405 allowing GET and POST with nothing changed |
| RafflesApi.PostRejectsMissingFields | api/raffles/index.ts:34-38 | the answer is 400 iff a title, category or date is falsy or the price is undefined, and then nothing changes; a price of 0 passes |
| RafflesApi.PostIsAllOrNothing | api/raffles/index.ts:41-82 | a create answers 201 iff the body is complete and no write fails; then exactly one raffle row and one history row are appended, otherwise every table is as before |
| RafflesApi.CreatedRaffleAndItsLog | api/raffles/index.ts:44-75 | the created raffle has the fresh id, the submitted fields, `isFinalized` false and no sales or costs; its one log row is a CREATE_RAFFLE entry for it with the raffle as after-state and no before-state or entity id |
| RafflesApi.ServedFlagsAreBooleans | api/raffles/index.ts:16-24 | `isFinalized` and both cost flags are always booleans; `isFinalized` is true iff its stored column is set, and every served cost comes from a row pointing at the raffle whose `isDonation` and `isReimbursement` columns it reads with `!!` |
| RafflesApi.NestHoldsOwnEntries | api/raffles/index.ts:19-24 | a served raffle holds every sale and cost row pointing at it, and only those |
| RafflesApi.ListedBeforeIsStrictWeakOrder | api/raffles/index.ts:10 | the date-descending, title-ascending order is a strict weak order |
| RafflesApi.ListingOrder | api/raffles/index.ts:10-16 | the listing has one raffle per row, ordered by date descending and then title ascending (titles by code points), and is a permutation of the raffle table |
| RafflesApi.NestOfNewRaffle | api/raffles/index.ts:54-67 | a raffle with no sales, no costs and `isFinalized` false, stored and nested with no rows pointing at it, reads back as itself |
| RafflesApi.CreateReadsBack | api/raffles/index.ts:63-78 | after a create, GET serves the raffle exactly as the 201 answer returned it, and the history listing holds its CREATE_RAFFLE entry, not undone |
| App.ToggledCore | App.tsx:204-205 | the toggled record keeps id, title, category, date and price and has the negated finalised flag |
| App.AppState.constructor | App.tsx:33-45 | no raffle, cost, reimbursement or log is selected, no alert is shown and no request has been sent |
| App.AppState.FinalizeRaffleClick | App.tsx:170-194 | a click that may proceed selects the raffle for confirmation; a blocked one shows the alert; nothing else changes |
| App.AppState.DeleteRaffleClick | App.tsx:226-253 | a click that may proceed selects the raffle for deletion; a blocked one shows the alert; nothing else changes |
| App.AppState.ConfirmToggleFinalize | App.tsx:200-213 | with a raffle selected, one update with the toggled record is sent and the failure alert is set iff it fails; the selection is cleared in every case |
| App.AppState.SaveReimbursement | App.tsx:325-336 | with a cost selected, one cost update with the reimbursement recorded is sent; the modal closes iff it succeeds and the failure alert is set iff it fails |
| App.AppState.ConfirmDeleteReimbursement | App.tsx:343-355 | with a cost selected, one cost update with the reimbursement removed is sent, the failure alert is set iff it fails, and the selection is cleared in every case |
| App.AppState.UndoActionClick | App.tsx:357-362 | the log is selected iff the loaded history holds one with that id; otherwise the selection is unchanged |
| App.FinalizeBlockedIffPending | App.tsx:170-193 | finalising is blocked iff the raffle is open and has a pending reimbursement, the alert lists exactly those costs in order, and reopening is never blocked |
| App.DeleteBlockedRules | App.tsx:226-252 | a finalised raffle is always blocked from deletion; an open one is blocked iff it has a pending reimbursement, listed in the alert |
| App.UndoSelectsLoadedLog | App.tsx:357-362 | the search finds a log iff one in the history has that id, and the log found has that id |
| App.ToggleTwiceRestores | App.tsx:204-206 | toggling twice gives back the original finalised flag and keeps the id |
| App.ReimbursementRoundTrip | App.tsx:325-355 | recording keeps the cost's id and other fields and completes a reimbursable cost; removing clears both fields so it is pending again, and recording after removing gives the same cost |
| Totals.CostsTotalExcludesDonations | components/RaffleDetailPage.tsx:97 | the costs total charges every cost at its amount except donations, which count nothing |
| Totals.CostsTotalAppend | components/RaffleDetailPage.tsx:97 | adding a cost raises the costs total by its amount, or not at all for a donation |
| Totals.SalesTotalAppend | components/RaffleDetailPage.tsx:47 | adding a sale raises the sales total by its amount |
| Totals.FiguresOf | components/RaffleDetailPage.tsx:201-203 | the page's sales figure is the sum of sale amounts, its costs figure the sum of non-donation costs, and profit their difference |
| Totals.TicketsCoverSales | components/RaffleDetailPage.tsx:48 | when every sale sells a ticket, the ticket count is at least the number of sales |
| RaffleDetailPage.SaleMovesFigures | components/RaffleDetailPage.tsx:201-203 | a new sale raises the sales figure and the profit by its amount and leaves the costs figure alone |
| RaffleDetailPage.CostMovesFigures | components/RaffleDetailPage.tsx:202-203 | a new cost raises the costs figure and lowers the profit by its amount, unless it is a donation |
| RaffleDetailPage.ListHeadersMatchFigures | components/RaffleDetailPage.tsx:47-48 | the sales and cost list headers show the same totals as the summary, and the ticket count covers the sales |
| RaffleDetailPage.SplitPartitionsReimbursable | components/RaffleDetailPage.tsx:153-154 | pending and completed keep the raffle's order, never share a cost, and together are exactly the reimbursable costs, with multiplicity |
| RaffleDetailPage.SectionShownIff | components/RaffleDetailPage.tsx:156-158 | the reimbursement section is hidden iff the raffle has no reimbursable cost |
| RaffleDetailPage.ControlsOf | components/RaffleDetailPage.tsx:228-247 | a finalised raffle shows the archived banner, the reopen label, no header edit/delete buttons for the raffle and no add forms; an open one shows those and the finalise label; on either, every sale and cost keeps its edit and delete buttons (lines 64-70 and 113-129) |
| RaffleDetailPage.ToggleFlipsControls | components/RaffleDetailPage.tsx:228-239 | toggling the finalised flag swaps the add forms and the header's raffle edit/delete buttons and changes the label; the entries' edit and delete buttons stay |
| RaffleDetailPage.SaveFromList | components/RaffleDetailPage.tsx:205-210 | an entry goes out only from an open raffle, with that raffle's id and the list's kind, and exactly when the inline form accepts it |
| Encoding.SextetsOf | services/encoding.ts:9 | n bytes become ceil(4n/3) six-bit values, the unpadded length of section 4 of RFC 4648 |
| Encoding.DecodeSextetsOf | services/encoding.ts:9-19 | the six-bit groups of any byte string never have a length of 4k+1, and regrouping them gives back the bytes |
| Encoding.BufferToBase64 | services/encoding.ts:8-13 | the encoding is the bytes' six-bit values written in the URL and filename safe alphabet of section 5 of RFC 4648, without padding |
| Encoding.BtoaOfBinaryString | services/encoding.ts:9 | `btoa` accepts the one-character-per-byte string and gives the padded standard Base64 of the bytes |
| Encoding.RewriteGivesUrl | services/encoding.ts:10-12 | rewriting '+' to '-' and '/' to '_' and removing '=' turns padded standard Base64 into the unpadded URL-safe text |
| Encoding.EncodedIsUrlSafe | services/encoding.ts:9-12 | the output uses only URL-safe characters, contains no '+', '/' or '=', and is ceil(4n/3) characters long |
| Encoding.UndoRewrite | services/encoding.ts:19 | rewriting '-' to '+' and '_' to '/' turns URL-safe text back into standard Base64 |
| Encoding.AtobOfStdString | services/encoding.ts:19 | `atob` accepts unpadded standard Base64 of any valid length and gives one character per decoded byte |
| Encoding.CodesOfBinaryString | services/encoding.ts:20-25 | taking each character's code modulo 256 recovers the bytes of the one-character-per-byte string |
| Encoding.Base64ToBuffer | services/encoding.ts:18-26 | the loop fills the buffer with exactly the decoded bytes, one per character of `atob`'s result, or fails where `atob` throws |
| Encoding.RoundTrip | services/encoding.ts:5-26 | decoding what was encoded gives back the original bytes |
| EntryRules.SaleValues | components/GlobalEntryFormModal.tsx:99-104 | a sale is rejected iff the quantity is NaN or not positive or the amount is NaN or negative; otherwise it yields the parsed quantity and amount |
| EntryRules.CostAmount | components/GlobalEntryFormModal.tsx:107-111 | a cost is rejected iff the description is blank, the amount is NaN or negative, or it is 0 on a non-donation; an accepted amount of 0 is a donation |
| EntryRules.AfterDonationBox | components/GlobalEntryFormModal.tsx:77-79 | checking the donation box clears the reimbursement flag, so the two never hold together; unchecking leaves it alone |
| EntryRules.AfterReimbursementBox | components/GlobalEntryFormModal.tsx:81-83 | checking the reimbursement box clears the donation flag; unchecking leaves it alone |
| EntryRules.AutoAmountAccepted | components/GlobalEntryFormModal.tsx:65-104 | for a positive quantity and a non-negative price the computed amount passes the sale check and is within half a cent of quantity times price |
| EntryRules.FixedAmountAccepted | components/GlobalEntryFormModal.tsx:69-101 | a positive quantity with an amount written by `toFixed(2)` from a non-negative number passes the sale check, within half a cent of that number |
| EntryRules.AutoAmountOfNumber | components/EditSaleModal.tsx:22-46 | the amount computed for a quantity loaded as `String(n)`, n positive, is n times the price to two decimals |
| EntryRules.ClearedAmountRejected | components/GlobalEntryFormModal.tsx:71-101 | a missing or non-positive quantity clears the amount, and a cleared amount fails the sale check |
| Numbers.ParseIntOfString | components/EditSaleModal.tsx:22-64 | `parseInt` of `String(n)` is n, so a loaded quantity reads back unchanged |
| Numbers.IntToStringInjective | components/MonthlyReportsPage.tsx:44 | distinct integers are written as distinct strings |
| Numbers.ParseFloatOfString | components/EditCostModal.tsx:30-53 | `parseFloat` of a whole number's text is that number |
| Numbers.Round2Close | components/GlobalEntryFormModal.tsx:69 | `toFixed(2)` moves a value by at most half a cent and keeps its sign |
| Numbers.Round2OfCents | components/EditSaleModal.tsx:42 | an amount in whole cents is written unchanged by `toFixed(2)` |
| Numbers.Round2Idempotent | components/EditSaleModal.tsx:42 | rounding a rounded amount again changes nothing |
| Text.MatchIsCaseInsensitive | components/HistoryPage.tsx:66-68 | the search ignores the case of both the term and the text |
| Text.EmptyTermMatchesAll | components/HistoryPage.tsx:66 | an empty term is found in every text |
| Text.StringLessIsStrictWeakOrder | api/raffles/index.ts:10 | ordering titles by code points is a strict weak order |
| Text.DigitsOrder | components/MonthlyReportsPage.tsx:44-68 | zero-padded numerals of one width sort as strings exactly as the numbers do |
| GlobalEntryForm.OffersActiveRafflesLatestFirst | components/GlobalEntryFormModal.tsx:38-42 | the offered list is sorted latest day first and holds exactly the raffles that are not finalised, each as often as in the prop |
| GlobalEntryForm.FirstOfferedIsLatest | components/GlobalEntryFormModal.tsx:46-49 | the raffle selected on opening is not finalised and no open raffle has a later date |
| GlobalEntryForm.AmountEffect | components/GlobalEntryFormModal.tsx:65-75 | a cost form, or a form with no raffle selected, leaves the amount as it is |
| GlobalEntryForm.SubmitOutcome | components/GlobalEntryFormModal.tsx:91-116 | no raffle selected is rejected with its message; otherwise a sale or cost is rejected iff its check fails, and an accepted entry carries the parsed numbers and the fields as typed |
| GlobalEntryForm.AutoFilledSaleAccepted | components/GlobalEntryFormModal.tsx:65-105 | a sale whose amount the form computed for the selected raffle is accepted for a positive quantity and a non-negative price |
| GlobalEntryForm.SavedCostFlagsExclusive | components/GlobalEntryFormModal.tsx:77-112 | a saved cost is never both a donation and a reimbursement |
| GlobalEntryForm.Form.constructor | components/GlobalEntryFormModal.tsx:21-36 | the form mounts with every field empty and nothing emitted |
| GlobalEntryForm.Form.RecomputeSaleAmount | components/GlobalEntryFormModal.tsx:65-75 | only the sale amount changes, to what the auto-amount effect computes |
| GlobalEntryForm.Form.Open | components/GlobalEntryFormModal.tsx:46-49 | opening leaves every field empty and selects the first offered raffle, if any |
| GlobalEntryForm.Form.SetFields | components/GlobalEntryFormModal.tsx:50-62 | every field takes the given value and nothing is emitted |
| GlobalEntryForm.Form.Close | components/GlobalEntryFormModal.tsx:50-62 | closing resets every field to '' or false |
| GlobalEntryForm.Form.SelectRaffle | components/GlobalEntryFormModal.tsx:44-75 | the chosen raffle is selected, the sale amount is recomputed iff the selected raffle changed, and no other field changes |
| GlobalEntryForm.Form.SetQuantity | components/GlobalEntryFormModal.tsx:65-75 | with a raffle selected, the quantity is set and the amount recomputed when it changed; otherwise nothing changes |
| GlobalEntryForm.Form.Type | components/GlobalEntryFormModal.tsx:139-221 | with a raffle selected, exactly the typed field changes; otherwise nothing |
| GlobalEntryForm.Form.ClickDonation | components/GlobalEntryFormModal.tsx:77-79 | the box is inert without a raffle or while the reimbursement box is checked; otherwise only the donation flag changes |
| GlobalEntryForm.Form.ClickReimbursement | components/GlobalEntryFormModal.tsx:81-83 | the box is inert without a raffle or while the donation box is checked; otherwise only the reimbursement flag changes |
| GlobalEntryForm.Form.Submit | components/GlobalEntryFormModal.tsx:91-116 | a rejected entry sets its error message; an accepted one emits one save to the selected raffle followed by one close |
| GlobalEntryForm.Form.Cancel | components/GlobalEntryFormModal.tsx:228-263 | the Cancel button and a click on the backdrop emit one close and change no field; nothing is saved |
| InlineEntryForm.AmountEffect | components/InlineEntryForm.tsx:28-38 | a cost form, or a price that is missing or 0, leaves the amount as it is |
| InlineEntryForm.SubmitOutcome | components/InlineEntryForm.tsx:48-68 | a sale or cost is rejected iff its check fails, with the form's message; an accepted sale carries only description, quantity and amount, an accepted cost the six typed fields and no reimbursement date |
| InlineEntryForm.AutoFilledSaleAccepted | components/InlineEntryForm.tsx:28-59 | with a positive price, a sale whose amount the form computed is accepted for every positive quantity |
| InlineEntryForm.Form.constructor | components/InlineEntryForm.tsx:13-25 | the form mounts with every field empty and nothing emitted |
| InlineEntryForm.Form.SetQuantity | components/InlineEntryForm.tsx:28-38 | the quantity is set and the amount recomputed when it changed; no other field changes |
| InlineEntryForm.Form.Type | components/InlineEntryForm.tsx:90-163 | exactly the typed field changes |
| InlineEntryForm.Form.ClickDonation | components/InlineEntryForm.tsx:40-42 | the box is inert while the reimbursement box is checked; otherwise only the donation flag changes |
| InlineEntryForm.Form.ClickReimbursement | components/InlineEntryForm.tsx:44-46 | the box is inert while the donation box is checked; otherwise only the reimbursement flag changes |
| InlineEntryForm.Form.Submit | components/InlineEntryForm.tsx:48-68 | the error is cleared first; a rejected entry then sets its message, an accepted one is emitted once with the error left empty |
| InlineEntryForm.Form.Cancel | components/InlineEntryForm.tsx:177 | cancelling emits one cancel and changes no field |
| EditCostModal.InputDate | components/EditCostModal.tsx:27 | a date field keeps its day and anything falsy becomes '', never absent |
| EditCostModal.LoadedFlags | components/EditCostModal.tsx:32-47 | the loaded flags come through unchanged unless both are set, and the effects never leave both set when the previous flags were not |
| EditCostModal.SubmitOutcome | components/EditCostModal.tsx:51-70 | the save is rejected iff the cost check fails; an accepted cost keeps the original id and carries the eight edited fields, with an unset reimbursement date written as '' |
| EditCostModal.SaveWithoutEdits | components/EditCostModal.tsx:25-70 | opening a valid cost and saving it unedited writes back the same cost with its optional properties made explicit |
| EditCostModal.NormalisedReadsTheSame | components/EditCostModal.tsx:59-69 | making the optional properties explicit keeps pending, reimbursed and donation as every page reads them, and is idempotent |
| EditCostModal.DoublyFlaggedCostOpensCleared | components/EditCostModal.tsx:32-47 | a stored cost flagged as both a donation and a reimbursement opens with both boxes clear |
| EditCostModal.Modal.constructor | components/EditCostModal.tsx:15-23 | the modal mounts closed with every field empty |
| EditCostModal.Modal.SetFields | components/EditCostModal.tsx:29-37 | every form field takes the given value; the props and the emitted events are unchanged |
| EditCostModal.Modal.Open | components/EditCostModal.tsx:25-47 | opening on a cost copies it into the fields as the load effect and the two flag effects leave them |
| EditCostModal.Modal.Close | components/EditCostModal.tsx:49 | closing hides the modal and keeps the fields until the next load |
| EditCostModal.Modal.Type | components/EditCostModal.tsx:83-153 | exactly the typed field changes |
| EditCostModal.Modal.ClickDonation | components/EditCostModal.tsx:41-43 | the box is inert while the reimbursement box is checked; otherwise only the donation flag changes |
| EditCostModal.Modal.ClickReimbursement | components/EditCostModal.tsx:45-47 | the box is inert while the donation box is checked; otherwise only the reimbursement flag changes |
| EditCostModal.Modal.Submit | components/EditCostModal.tsx:51-70 | a rejected save sets the error message; an accepted one emits the edited cost once and leaves closing to the parent |
| EditCostModal.Modal.Delete | components/EditCostModal.tsx:169 | the delete button emits one delete request and changes nothing else |
| EditCostModal.Modal.DeleteReimbursement | components/EditCostModal.tsx:174-182 | the button exists only for a loaded cost with a reimbursement date and emits one request to delete the reimbursement |
| EditCostModal.Modal.Cancel | components/EditCostModal.tsx:73 | cancelling emits one close and changes no field |
| EditSaleModal.AmountEffect | components/EditSaleModal.tsx:38-48 | the effect changes only the amount, and does nothing without a raffle or once the amount was typed by hand |
| EditSaleModal.OpenedAsWritten | components/EditSaleModal.tsx:20-48 | as written, opening loads the sale's quantity and description, clears the error and sets the manual flag from the stored amount; without a raffle the stored amount is shown, but a hand-priced sale opened on a form not in hand-typed mode shows the amount computed from the quantity held before the load |
| EditSaleModal.Opened | components/EditSaleModal.tsx:20-48 | as intended, opening loads the sale's quantity and description, clears the error and sets the manual flag from the stored amount; the stored amount is shown whenever it was typed by hand or there is no raffle |
| EditSaleModal.ManualAmountLostOnFirstOpen | components/EditSaleModal.tsx:20-48 | on the first opening as written, a sale of 2 tickets at 10.00 sold for 15.00 shows an empty amount, which the save check rejects; the intended opening shows 15.00 |
| EditSaleModal.SubmitOutcome | components/EditSaleModal.tsx:62-77 | the save is rejected iff the sale check fails; an accepted sale keeps the original id and carries the parsed quantity and amount and the typed description |
| EditSaleModal.LoadedQuantityAccepted | components/EditSaleModal.tsx:22-77 | a loaded positive quantity and description, with any non-negative amount, save as the original sale with that amount |
| EditSaleModal.OpenedAmount | components/EditSaleModal.tsx:20-48 | as intended (`Opened`): after opening, the quantity and description are the sale's, and the amount is the stored one when it was typed by hand, else the amount computed from the quantity |
| EditSaleModal.NearStoredAmount | components/EditSaleModal.tsx:29-42 | an amount within half a cent of a product that lies within 0.001 of the stored amount lies within 0.006 of it |
| EditSaleModal.SaveManualWithoutEdits | components/EditSaleModal.tsx:28-77 | as intended (`Opened`): a sale with a hand-typed amount, opened and saved unedited, is saved unchanged |
| EditSaleModal.SaveComputedWithoutEdits | components/EditSaleModal.tsx:38-77 | as intended (`Opened`): a sale with a computed amount, opened and saved unedited, gets the amount computed afresh from quantity and price |
| EditSaleModal.SaveWithoutEdits | components/EditSaleModal.tsx:20-77 | as intended (`Opened`): opening a valid sale and saving it unedited keeps its id, quantity and notes; the amount is the stored one when typed by hand, otherwise within 0.006 of it |
| EditSaleModal.Modal.constructor | components/EditSaleModal.tsx:14-18 | the modal mounts closed with no sale, no raffle and every field empty |
| EditSaleModal.Modal.Open | components/EditSaleModal.tsx:20-48 | opening on a sale leaves the fields as the load and the auto-amount effect intend |
| EditSaleModal.Modal.Load | components/EditSaleModal.tsx:20-35 | the load effect sets the sale's quantity, amount and description, clears the error, and with a raffle decides whether the amount was typed by hand |
| EditSaleModal.Modal.AutoAmountEffect | components/EditSaleModal.tsx:38-48 | with a raffle and no hand-typed amount, the amount becomes the one computed from the quantity |
| EditSaleModal.Modal.Close | components/EditSaleModal.tsx:50 | closing hides the modal and keeps the fields |
| EditSaleModal.Modal.SetQuantity | components/EditSaleModal.tsx:57-60 | a new quantity turns hand-typed mode off and the amount follows the quantity again |
| EditSaleModal.Modal.SetAmount | components/EditSaleModal.tsx:52-55 | typing an amount keeps it and turns hand-typed mode on |
| EditSaleModal.Modal.SetDescription | components/EditSaleModal.tsx:115 | only the description changes |
| EditSaleModal.Modal.Submit | components/EditSaleModal.tsx:62-79 | a rejected save sets the error message; an accepted one emits the edited sale and then a close |
| EditSaleModal.Modal.Delete | components/EditSaleModal.tsx:124 | the delete button emits one delete request and changes nothing else |
| EditSaleModal.Modal.Cancel | components/EditSaleModal.tsx:82 | cancelling emits one close and changes no field |
| EditRaffleModal.SubmitOutcome | components/EditRaffleModal.tsx:32-39 | the save is rejected iff the title is blank, the category is empty, the date is unset or the price is NaN or negative; an accepted edit carries exactly the original id, the title, category, date and parsed price, and no finalised flag |
| EditRaffleModal.CategoriesAreNames | components/EditRaffleModal.tsx:4 | the offered categories are seven non-empty names |
| EditRaffleModal.SaveWithoutEdits | components/EditRaffleModal.tsx:20-39 | opening a raffle with a title, a category and a non-negative price and saving it unedited emits exactly its own id, title, category, date and price |
| EditRaffleModal.Modal.constructor | components/EditRaffleModal.tsx:14-18 | the modal mounts closed with the first category and the other fields empty |
| EditRaffleModal.Modal.Open | components/EditRaffleModal.tsx:20-28 | opening on a raffle copies its title, category, date and price into the fields |
| EditRaffleModal.Modal.Close | components/EditRaffleModal.tsx:30 | closing hides the modal and keeps the fields |
| EditRaffleModal.Modal.Type | components/EditRaffleModal.tsx:60-93 | exactly the typed field changes |
| EditRaffleModal.Modal.SelectCategory | components/EditRaffleModal.tsx:70-73 | choosing an offered category changes only the category |
| EditRaffleModal.Modal.Submit | components/EditRaffleModal.tsx:32-41 | a rejected save sets the error message; an accepted one emits the edit and then a close, so the modal closes only after a successful save |
| EditRaffleModal.Modal.Cancel | components/EditRaffleModal.tsx:46 | cancelling emits one close and changes no field |
| ReimbursementModal.SubmitOutcome | components/ReimbursementModal.tsx:29-36 | confirming is rejected iff no day is chosen; otherwise it emits exactly the day and the notes as typed |
| ReimbursementModal.ConfirmWithoutEdits | components/ReimbursementModal.tsx:16-36 | confirming unedited emits the cost's existing reimbursement date or today, with its existing notes or '', and recording that on a reimbursable cost makes it reimbursed |
| ReimbursementModal.Modal.constructor | components/ReimbursementModal.tsx:12-14 | the modal mounts closed with every field empty |
| ReimbursementModal.Modal.Open | components/ReimbursementModal.tsx:16-25 | opening on a cost sets the default date and notes and clears the error |
| ReimbursementModal.Modal.Close | components/ReimbursementModal.tsx:27 | closing hides the modal and keeps the fields |
| ReimbursementModal.Modal.Type | components/ReimbursementModal.tsx:50-59 | typing changes only the date or only the notes |
| ReimbursementModal.Modal.Submit | components/ReimbursementModal.tsx:29-36 | a missing date sets the error message and emits nothing; otherwise the details are emitted once and closing is left to the parent |
| ReimbursementModal.Modal.Cancel | components/ReimbursementModal.tsx:39 | cancelling emits one close and changes no field |
| ItemFormModal.SubmitOutcome | components/ItemFormModal.tsx:20-27 | an item is rejected iff the description is blank or the amount is NaN or not above zero; an accepted one is exactly the description and the parsed amount |
| ItemFormModal.ItemCheckIsCostCheckWithoutDonation | components/ItemFormModal.tsx:23 | the item check accepts exactly what the entry forms' cost check accepts for a cost that is not a donation, with the same amount |
| ItemFormModal.Modal.constructor | components/ItemFormModal.tsx:11-13 | the modal mounts with every field empty |
| ItemFormModal.Modal.SetOpen | components/ItemFormModal.tsx:15 | showing or hiding the modal keeps the fields |
| ItemFormModal.Modal.Type | components/ItemFormModal.tsx:50-61 | typing changes only the description or only the amount |
| ItemFormModal.Modal.Submit | components/ItemFormModal.tsx:20-31 | a rejected item sets the error and emits nothing; an accepted one is emitted once and description, amount and error are reset to '' |
| ItemFormModal.Modal.Cancel | components/ItemFormModal.tsx:36 | cancelling emits one close and changes no field |
| ReimbursementsPage.TagAll | components/ReimbursementsPage.tsx:100-106 | each cost is tagged with its raffle's id, title, category and date, one item per cost in the same order |
| ReimbursementsPage.Owner | components/ReimbursementsPage.tsx:97-107 | an item of the flattened list comes from a cost of one of the raffles and carries that raffle's fields |
| ReimbursementsPage.TaggedMembers | components/ReimbursementsPage.tsx:97-107 | the flattened list holds exactly the costs that pass the filter, each tagged with its own raffle |
| ReimbursementsPage.ListsPartitionReimbursable | components/ReimbursementsPage.tsx:96-122 | pending lists the pending costs and completed the reimbursed ones, each tagged with its raffle; they never share an item, together they are every reimbursable cost, and completed runs from the latest reimbursement date to the earliest as a permutation of the reimbursed costs |
| ReimbursementsPage.FilteredPendingIsOrderedSubset | components/ReimbursementsPage.tsx:124-136 | the filtered list keeps the pending list's order and holds exactly its items that pass every filter |
| ReimbursementsPage.UndatedCostIgnoresDate | components/ReimbursementsPage.tsx:126-132 | a cost without a date passes the year and month filters whatever they are set to |
| ReimbursementsPage.SearchFindsDescription | components/ReimbursementsPage.tsx:128 | searching for a cost's own description, in any letter case, never hides it |
| ReimbursementsPage.Preview | components/ReimbursementsPage.tsx:138 | the preview is the first five completed items, or all of them when there are fewer |
| ReimbursementsPage.EditClick | components/ReimbursementsPage.tsx:162-165 | the edit button exists iff the page is not read-only |
| ReimbursementsPage.ReimburseClick | components/ReimbursementsPage.tsx:158-160 | the reimburse button exists iff the page is not read-only |
| ReimbursementsPage.EditOpensOriginalCost | components/ReimbursementsPage.tsx:162-165 | editing a listed item opens exactly the original cost, as it is in its own raffle, with that raffle's id |
| ReimbursementHistoryPage.HistoryIsOrderedSubset | components/ReimbursementHistoryPage.tsx:61-87 | the history keeps the completed list's order, so it runs from the latest reimbursement to the earliest, and holds only reimbursed costs of the given raffles reimbursed in the chosen year |
| ReimbursementHistoryPage.OpenFiltersShowWholePeriod | components/ReimbursementHistoryPage.tsx:79-85 | with no search, raffle 'all' and category 'Todas', the history is exactly the completed items of the chosen year, and of the chosen month when one is chosen |
| ReimbursementHistoryPage.SearchFindsReimbursementNote | components/ReimbursementHistoryPage.tsx:79 | a search for a cost's whole reimbursement note finds the cost, whatever the letter case |
| HistoryPage.FilteredHistoryIsOrderedSubset | components/HistoryPage.tsx:64-76 | the filtered history keeps the history's order and holds exactly the logs that pass the search, action and raffle tests; with the initial filters it is the whole history |
| HistoryPage.SearchFindsDescription | components/HistoryPage.tsx:66-68 | a term found in a log's description, in any letter case, keeps the log in the list |
| HistoryPage.EnabledUndoSelectsLog | components/HistoryPage.tsx:154-159 | with the page never read-only, the button is enabled iff the log is not undone, reads "Desfeito" iff disabled, and a click selects a log with that id |
| HistoryPage.ActionLabelsDistinct | components/HistoryPage.tsx:24-37 | every one of the twelve action types has a label and no two share one |
| HistoryPage.SortedRaffles | components/HistoryPage.tsx:78-80 | the raffle filter lists every raffle once per occurrence, latest date first |
| RaffleListPage.FinalizedLastIsStrictWeakOrder | components/RaffleListPage.tsx:92-99 | open-before-finalised, then later day first, is a strict weak order, so the sort is well defined |
| RaffleListPage.AsWrittenOnLoaded | components/RaffleListPage.tsx:94-95 | on raffles whose flag is a boolean the `!==` comparator agrees with the order on the flags' truth values |
| RaffleListPage.AsWrittenNeedsLoadedFlags | components/RaffleListPage.tsx:94-95 | an absent flag beside `false` makes each raffle go before the other, so the comparator is not a strict weak order in general |
| RaffleListPage.ListedIsOrderedSelection | components/RaffleListPage.tsx:82-100 | the list holds exactly the raffles the category, year and month filter keeps, with their multiplicities, open raffles before finalised ones and later days first within each |
| RaffleListPage.OtherOnlyUnderAll | components/RaffleListPage.tsx:72-86 | "Outro" is not a pill, so a raffle of that category shows only under "Todos" |
| RaffleListPage.Page.constructor | components/RaffleListPage.tsx:77-80 | the page opens on "Todos", November 2025, with the picker closed |
| RaffleListPage.Page.SelectCategory | components/RaffleListPage.tsx:141 | a pill changes only the category |
| RaffleListPage.Page.TogglePicker | components/RaffleListPage.tsx:152 | the filter button flips the picker and leaves the filter alone |
| RaffleListPage.Page.SelectMonth | components/RaffleListPage.tsx:103-106 | choosing a month or the whole year changes only the month and closes the picker |
| RaffleListPage.Page.ChangeYear | components/RaffleListPage.tsx:108-114 | the arrows move only the year by the amount |
| MonthlyReportsPage.AllReports | components/MonthlyReportsPage.tsx:37-70 | the month report: one bucket per month key holding that month's raffles in order with their summed sales and costs, none empty, every raffle's month present, latest key first |
| MonthlyReportsPage.ReportsForYearSelectsYear | components/MonthlyReportsPage.tsx:72 | for four-digit years the year view keeps exactly the months whose raffles are of that year, still latest first, and misses none of them |
| MonthlyReportsPage.ExpandedRaffles | components/MonthlyReportsPage.tsx:140 | an expanded month lists its own raffles, each once per occurrence, latest day first |
| MonthlyReportsPage.Toggled | components/MonthlyReportsPage.tsx:33-35 | after a click a month is open exactly when it is the clicked one and was not already open |
| MonthlyReportsPage.ToggleTwice | components/MonthlyReportsPage.tsx:33-35 | two clicks on a month restore a closed page, or leave that month open if it was |
| MonthlyReportsPage.Page.constructor | components/MonthlyReportsPage.tsx:25-26 | the page opens on 2025 with no month expanded |
| MonthlyReportsPage.Page.ChangeYear | components/MonthlyReportsPage.tsx:28-31 | the arrows move the year by the amount and collapse any month |
| MonthlyReportsPage.Page.ToggleMonth | components/MonthlyReportsPage.tsx:33-35 | a click on a month row toggles it and keeps the year |
| Reports.MonthKeyParts | components/MonthlyReportsPage.tsx:44 | the key of a day of a four-digit year is its four-digit year, a dash and its two-digit month |
| Reports.KeyPartsLess | components/RelatoriosPage.tsx:265 | keys of fixed-width parts compare year first, then month |
| Reports.KeyPartsEqual | components/RelatoriosPage.tsx:265 | such keys are equal exactly when both parts are |
| Reports.MonthKeyOrder | components/RelatoriosPage.tsx:265-287 | comparing month keys compares the months, and two days share a key exactly when they share a month |
| Reports.YearPrefixSelectsYear | components/MonthlyReportsPage.tsx:72 | for four-digit years a month key starts with the year's digits exactly when the day is of that year |
| Reports.GroupOfAppend | components/RelatoriosPage.tsx:256-258 | a raffle added to the input joins only its own key's group, adding its sales and costs |
| Reports.GroupGains | components/MonthlyReportsPage.tsx:46-50 | a raffle's own group gains its sales, its cash costs and the raffle itself |
| Reports.EmptyGroup | components/MonthlyReportsPage.tsx:46 | a group without raffles is the fresh `{ sales: 0, costs: 0 }` bucket |
| Reports.StepKeysDistinct | components/RelatoriosPage.tsx:256 | creating a bucket only when its key is missing keeps the keys distinct |
| Reports.StepBuckets | components/RelatoriosPage.tsx:256-258 | after a step every bucket is still the group of its key |
| Reports.StepMembership | components/RelatoriosPage.tsx:256 | after a step a key has a bucket exactly when some raffle counted has that key |
| Reports.GroupedStep | components/MonthlyReportsPage.tsx:40-51 | one step of the `forEach` keeps the dictionary grouped, its keys in first-seen order |
| Reports.BucketBefore | components/MonthlyReportsPage.tsx:46 | the bucket a step starts from is the group of the raffles counted so far |
| Reports.BucketAfter | components/MonthlyReportsPage.tsx:48-50 | adding a raffle's sales, costs and itself to that bucket gives the group with the raffle |
| Reports.AddToBucket | components/MonthlyReportsPage.tsx:46-50 | a step creates the bucket when missing and adds the raffle, keeping the dictionary grouped, and the buckets' totals grow by the raffle's sales and costs |
| Reports.Entries | components/MonthlyReportsPage.tsx:59 | `Object.entries` lists one bucket per key, in key order |
| Reports.EntriesUpdate | components/RelatoriosPage.tsx:257-258 | updating one bucket changes the entries' total by that bucket's change; a new key adds its bucket |
| Reports.StepTotals | components/RelatoriosPage.tsx:254-277 | after each step the buckets add up to one more raffle's sales and costs |
| Reports.SortedTotals | components/RelatoriosPage.tsx:286 | sorting the rows keeps their sales and costs totals |
| Reports.ClampedMargin | components/RelatoriosPage.tsx:121-123 | the green bar's width stays within 0-100, is 0 without sales or profit, 100 once profit reaches sales, and otherwise the profit's share of sales |
| Reports.EntriesAreGroups | components/MonthlyReportsPage.tsx:59-67 | the entries of a filled dictionary are distinct non-empty groups, one for every raffle |
| Reports.ReorderedGroups | components/MonthlyReportsPage.tsx:68 | reordering them keeps distinct keys, the groups and every raffle's group |
| Reports.SortedEntriesReported | components/RelatoriosPage.tsx:286-288 | sorting the entries of a filled dictionary gives its report |
| Reports.SortEntries | components/RelatoriosPage.tsx:286-288 | the sorted entries are the report of the raffles and keep the dictionary's totals |
| Reports.OneBucketPerRaffle | components/RelatoriosPage.tsx:254-277 | every raffle lies in exactly one row of a report, the row of its key |
| Reports.RowsInOrder | components/RelatoriosPage.tsx:286-288 | two rows of a report hold raffles of different keys and are in the comparator's order |
| Reports.ByProfitIsStrictWeakOrder | components/RelatoriosPage.tsx:286 | `b.profit - a.profit` is a strict weak order |
| Reports.ByKeyDescendingIsStrictWeakOrder | components/RelatoriosPage.tsx:287 | `b.originalKey.localeCompare(a.originalKey)` is a strict weak order |
| Reports.MonthRowsLatestFirst | components/MonthlyReportsPage.tsx:68 | for four-digit years every raffle of an earlier month row is of a later month than every raffle of a later row |
| RelatoriosPage.FinancialSummary | components/RelatoriosPage.tsx:235-245 | the summary's profit is its sales less its costs |
| RelatoriosPage.FinancialSummaryAddsUpRaffles | components/RelatoriosPage.tsx:236-241 | the summary adds up the raffles' sales, their costs without donations, and their profits |
| RelatoriosPage.Percentage | components/RelatoriosPage.tsx:65 | the reimbursed share is 100 with nothing reimbursable, within 0-100 when reimbursed stays within reimbursable, and 100 exactly when all is reimbursed |
| RelatoriosPage.RatioBounds | components/RelatoriosPage.tsx:65 | a part of a positive whole gives a share within 0 and 1, and 1 exactly when it is the whole |
| RelatoriosPage.RafflePendingIsDifference | components/RelatoriosPage.tsx:66 | a raffle's pending amount is its reimbursable less its reimbursed amount |
| RelatoriosPage.PendingIsDifference | components/RelatoriosPage.tsx:66 | over every raffle, what is pending is what is reimbursable less what is reimbursed |
| RelatoriosPage.Summarize | components/RelatoriosPage.tsx:50-69 | the nested loops total every reimbursable cost, and those with a reimbursement date, with the pending amount and the percentage derived from them |
| RelatoriosPage.ReimbursedWithinReimbursable | components/RelatoriosPage.tsx:54-65 | with no negative amounts the reimbursed total stays within the reimbursable one and the bar within 0-100% |
| RelatoriosPage.ByYearDescendingIsStrictWeakOrder | components/RelatoriosPage.tsx:288 | `parseInt(b.label) - parseInt(a.label)` is a strict weak order |
| RelatoriosPage.CountCategory | components/RelatoriosPage.tsx:256-258 | counting a raffle in its category keeps the category dictionary grouped and its totals those of the raffles counted |
| RelatoriosPage.NothingFilled | components/RelatoriosPage.tsx:250-252 | the three empty dictionaries are filled from no raffles |
| RelatoriosPage.CountRaffle | components/RelatoriosPage.tsx:255-276 | one turn of the `forEach` adds the raffle to its category, year and month and keeps all three dictionaries filled |
| RelatoriosPage.FillDictionaries | components/RelatoriosPage.tsx:254-277 | one pass fills the three dictionaries from every raffle |
| RelatoriosPage.BuildReports | components/RelatoriosPage.tsx:249-290 | the category, month and year reports of the raffles, ordered by profit, by month key and by year, the category rows adding up to the financial summary |
| RelatoriosPage.YearNumberOfKey | components/RelatoriosPage.tsx:264-288 | `parseInt` of a year label gives back its year |
| RelatoriosPage.LaterYearFirst | components/RelatoriosPage.tsx:288 | of two rows of different years the comparator keeps in place, the first is the later year |
| RelatoriosPage.YearRowsLatestFirst | components/RelatoriosPage.tsx:288 | every raffle of an earlier year row is of a later year than every raffle of a later row |
| RelatoriosPage.RecentMonths | components/RelatoriosPage.tsx:293 | the recent months are the first three month rows, or all when fewer |
| RelatoriosPage.RecentMonthsAreLatest | components/RelatoriosPage.tsx:293 | for four-digit years a raffle among the recent months is of a later month than any raffle left out |
| Seqs.Filter | components/HistoryPage.tsx:65 | `filter` keeps exactly the elements that pass, in their order and with their multiplicities |
| Seqs.FilterKeepsAll | components/HistoryPage.tsx:65 | a filter every element passes returns the whole sequence |
| Seqs.Sort | components/RaffleListPage.tsx:92 | `sort` returns a permutation of its input |
| Seqs.SortSorted | components/RaffleListPage.tsx:92 | with a comparator that is a strict weak order, the sorted output is in the comparator's order |
| Seqs.SortedSelection | components/RaffleListPage.tsx:82-99 | filtering then sorting gives exactly the elements that pass, in order, each as often as in the input |
| Seqs.SumSort | components/RelatoriosPage.tsx:286 | sorting rows does not change a total over them |
| Seqs.Find | App.tsx:358 | `find` returns an element that passes, the first one, and returns nothing exactly when none passes |
| EditSaleModal.ComputedAmountNonNegative | components/EditSaleModal.tsx:40-41 | the amount computed for a positive quantity at a non-negative price is not negative |
| Store.Database.constructor | api/raffles/index.ts:39 | a connection opens on consistent tables with no transaction under way |
| Encoding.BinaryString | services/encoding.ts:9 | `String.fromCharCode(...bytes)` gives one character per byte |
| Encoding.ReplaceChar | services/encoding.ts:10-11 | a global one-character replace keeps the length and leaves none of the replaced character |
| Encoding.RemoveChar | services/encoding.ts:12 | removing '=' leaves none of it and adds no character |
| Text.Lower | components/HistoryPage.tsx:66-67 | `toLowerCase` keeps the length and lower-cases each character in place |
| Text.IntToString | components/MonthlyReportsPage.tsx:44 | `String(n)` is never empty and starts with '-' exactly for negative numbers |
| Text.PadStart2 | components/MonthlyReportsPage.tsx:44 | `padStart(2, '0')` makes the text at least two long and keeps it at the end |

## Left out

- Time zones: `new Date(...)` with local `getFullYear`/`getMonth`, the time-zone offset
  correction in date formatting, and `toLocaleString` are not modelled. A stored day is
  read as its own year, month and day.
- `localeCompare` is code-point order.
- RafflesApi.ListingOrder: titles on the same day are compared by code points. `ORDER BY title`
  sorts by the database's collation, which by default ignores letter case, so for "apple" and
  "Banana" on the same day the server lists "apple" first and the model lists "Banana" first.
  `RafflesApi.ListedBeforeIsStrictWeakOrder` is about the same code-point order.
- Text.StringLessIsStrictWeakOrder: Dafny characters are Unicode scalar values, so the order is by
  code points. JavaScript compares UTF-16 code units, and the two orders differ for a character
  above U+FFFF compared with one in U+E000-U+FFFF.
- RafflesApi.SaleOf, RafflesApi.CostOf: the served sale and cost objects also carry their
  `raffleId` column (`SELECT *`), which the model drops: `types.ts` does not declare it on
  `Sale` or `Cost`, and nothing in the core reads it from a nested entry.
- Letter case: `toLowerCase` is modelled on ASCII letters only.
- Month labels ("Janeiro 2025", "Jan 2025") are not modelled. Rows are identified by their
  "YYYY-MM" key.
- `parseFloat` covers optional whitespace, a sign, digits, a fraction and an exponent. It
  does not cover "Infinity", hexadecimal or the other literal forms.
- Floating point: sums are exact, and `toFixed(2)` rounds exactly.
- RaffleListPage.ListedIsOrderedSelection: proved for raffles whose `isFinalized` is a
  boolean, as the listing endpoint serves them. With an absent flag beside `false`, the
  comparator as written is not a strict weak order (`RaffleListPage.AsWrittenNeedsLoadedFlags`),
  and the outcome of `sort` then depends on the engine.
- MonthlyReportsPage.ReportsForYearSelectsYear: proved for four-digit years only. For other
  years, `startsWith(String(year))` can match a longer year.
- Reports.MonthRowsLatestFirst: proved for four-digit years only, for the same reason.
- RelatoriosPage.RecentMonthsAreLatest: proved for four-digit years only, for the same reason.
- RelatoriosPage.YearNumber: a year label always comes from `String(year)`. The `NaN` that
  `parseInt` gives for a non-numeric label is read as 0.
- Reports: the category and year buckets of the reports page also carry their raffles. The
  sums they show are the same.
- EditCostModal.Modal.Open: the load effect and the two flag effects that follow it are one
  step, `EditCostModal.Loaded`. The intermediate renders are not modelled.
- ReimbursementsPage.ReimburseClick: hands over the cost without the four raffle fields.
  The source passes the tagged item itself (components/ReimbursementsPage.tsx:158-160),
  whose extra fields the reimbursement modal does not read.
- `isReadOnly` is never passed by `App.tsx`. The pages are modelled with it as a parameter,
  and the lemmas state the `false` case.
- Not part of this model:
  - the undo endpoint and the raffle update and delete endpoints, whose server files are not
    part of this model, and with them the classification of updates into history actions;
  - the undo confirmation messages of `App.tsx`.
- Plumbing that is not modelled:
  - `services/api.ts` and `api/_lib/db.ts` (fetch wrappers, connection setup);
  - the SQL text;
  - the `async` flow and `Promise.all` loading;
  - alert display.
- Authentication is not modelled: the login page, the session storage in `App.tsx`,
  `services/biometrics.ts` and `BiometricSettings` in `components/RelatoriosPage.tsx`.
- `stringToBuffer` and `bufferToString` in `services/encoding.ts` are thin wrappers over
  `TextEncoder`/`TextDecoder` and are not modelled.
- `beforeState`/`afterState` are kept as values. Their JSON text is not modelled, and
  neither is the ISO text of a timestamp.
- `crypto.randomUUID` is not modelled: fresh ids are parameters, with the requirement that
  they are not already used.
- The clock is not modelled: "today" is a parameter.
- Presentational state is not modelled: accordions, date pickers other than the list
  filters, and JSX.

## Findings

| source | as written | input that shows it | evidently intended | confidence | as-written member | corrected member |
|---|---|---|---|---|---|---|
| components/EditSaleModal.tsx:20-48 | `App.tsx` renders the sale modal with `raffle` null while it is closed. Opening it therefore changes `raffle` in the same commit as `sale`. The auto-amount effect then runs with the quantity and manual flag from before the load. Its `setAmount` is queued after the load's and wins, and the new manual flag stops any recomputation. | The first opening of a sale of 2 tickets at 10.00 sold for 15.00: the amount field comes up empty, and saving without edits is rejected (`EditSaleModal.ManualAmountLostOnFirstOpen`). | The modal shows the stored amount of a hand-priced sale, and saving without edits keeps it (`EditSaleModal.SaveWithoutEdits`). | not executed | EditSaleModal.OpenedAsWritten | EditSaleModal.Opened |
