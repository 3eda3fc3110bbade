# Contract report core of the public-procurement parser, in Dafny

The parser pulls a customer's contracts for one financial year from the
public-procurement GraphQL service and writes them to a spreadsheet. Its
core is modelled here:

- **Contract pagination** (`fetch_all_contracts`). The loop sends requests
  with the cursor `after` set to the id of the last contract received. It
  retries timeouts, connection failures and HTTP 429. It stops on an empty
  page, on the page cap, on any other status, on an `errors` payload and on
  any other exception, and returns what it has collected.
- **Plan lookup** (`fetch_plans_by_ids`). The plan ids are cut into batches
  of 100. Each batch is paged with a limit of 200, and a short page ends
  the batch. All plans received become a table keyed by id, where a later
  plan replaces an earlier one.
- **Number normalisation** (`parse_number`). Null, blank, unparsable and
  non-numeric values read as 0. Numbers pass through. Text is trimmed and
  read as a decimal literal.
- **Summary sheet** (`transform_summary`). There is one row per contract.
  The planned sum adds up the plan amounts of the units whose `plnPointId`
  is found in the table. The savings are shown only when both sums are
  positive.
- **Detailed sheet** (`transform_detailed`). Each contract gives a header
  row, followed by one item row per unit.
- **Plan-id collection** in `main`: the set of every truthy `plnPointId`.

The network is a parameter. A run gets a finite *script* of replies, and
each request sent consumes the next one. A reply is a timeout, a connection
failure, another request exception, or an HTTP status with a body. The body
is an `errors` list, a null `data`, or an entity list. Each fetcher is an
imperative method with loops. Each method is proved equal to a recursive
reference function (`Run`, `BatchRun`, `BatchesRun`) over the script, and
the lemmas state the loops' properties about those functions. The two
transforms and the id collection are methods too. They are proved equal to
row-building functions (`SummaryRowOf`, `DetailRows`, `ReferencedIds`), and
lemmas state what the rows and counters mean.

Modules: `Records` (records, replies, `Flatten`), `Numbers`
(`parse_number`), `ContractFetch`, `PlanFetch`, `Cells` (cell rules shared
by both sheets), `Summary`, `Detailed`, `PlanIds`.

## Model

| member | source | states |
|---|---|---|
| ContractFetch.FetchAllContracts | get_contracts.py:78-151 | The loop's collected contracts, the requests it sent and why it stopped equal the reference run `Run` from no cursor at page 1. |
| ContractFetch.RunIsConcatenationOfPages | get_contracts.py:114-129 | The contracts returned are the non-empty pages received, concatenated in order. Nothing from a failed or retried reply is included. |
| ContractFetch.RunCursorFollowsLastContract | get_contracts.py:91-129 | The k-th request carries the fixed limit. Its `after` is the id of the last contract received before it, or None when nothing was received yet. |
| ContractFetch.RunRespectsPageCap | get_contracts.py:86-89 | With a non-zero cap `m`, at most `m - page + 1` pages are accepted. Stopping on the cap means exactly that many were accepted. |
| ContractFetch.MaxPagesBound | get_contracts.py:86-89 | From page 1, a positive cap bounds the accepted pages by the cap. A negative cap stops before any request. |
| ContractFetch.NoCapWhenUnsetOrZero | get_contracts.py:87 | A `max_pages` of None and one of 0 give the same run, and that run never stops for the cap. |
| ContractFetch.RetriesAreTransparent | get_contracts.py:106-140 | Removing every timeout, connection failure and 429 from the replies leaves the collected contracts and the stop reason unchanged. |
| ContractFetch.RunStopsOnlyAtItsLastReply | get_contracts.py:106-148 | A stop other than the cap or the end of the replies is caused by the last reply consumed. No earlier reply was a stopping one. |
| ContractFetch.ThreePagesThenEmpty | get_contracts.py:114-129 | Three non-empty pages and an empty one give their concatenation. This takes four requests with cursors None and the ids of the last contract of each page, and ends on the empty page. |
| PlanFetch.FetchPlansByIds | get_contracts.py:154-235 | The loop over the batches of the ids sends the requests of the reference run `BatchesRun` and ends as it does. The table of all plans received is returned only when every batch finished. There is none when a null `data` raised or the script ran out first. |
| PlanFetch.FetchBatchAt | get_contracts.py:161-230 | One turn of the batch loop: when the batch raises or runs out of replies, the whole run ends the same way, with the requests sent so far plus the batch's. Otherwise the batch's plans and requests join what was collected, and the next batch reads the replies after the batch's last. |
| PlanFetch.FetchBatch | get_contracts.py:165-230 | The inner loop over one batch, from no cursor, equals the reference run `BatchRun` on the replies from that point, including how the batch ended. |
| PlanFetch.ChunksCount | get_contracts.py:159-163 | The number of batches is the ceiling of the id count divided by 100. |
| PlanFetch.ChunksCover | get_contracts.py:161-162 | The batches, concatenated, are the id list itself, with no loss, duplication or reordering. |
| PlanFetch.ChunksAreSlices | get_contracts.py:161-162 | Batch k is the slice from `k*100` to `min(k*100+100, n)`. It is non-empty and at most 100 long, and exactly 100 long unless it is the last. |
| PlanFetch.TwoHundredFiftyIds | get_contracts.py:159-163 | 250 ids give three batches of 100, 100 and 50. |
| PlanFetch.BatchRunPages | get_contracts.py:212-220 | A batch's plans are its accepted pages in order. Every page but the last is full (200 or more). |
| PlanFetch.BatchCursorFollowsLastPlan | get_contracts.py:169-222 | Each request of a batch carries that batch and the limit 200. Its `after` is the id of the last plan received in the batch so far. |
| PlanFetch.RequestsCarryBatches | get_contracts.py:161-173 | Every request sent names one of the batches as its id filter, with the limit 200. |
| PlanFetch.BatchRunFirstRequest | get_contracts.py:165-178 | A batch given a reply sends at least one request, and the first asks for the batch from its starting cursor. |
| PlanFetch.EveryBatchDispatched | get_contracts.py:161-230 | A lookup that finished sent its requests as one group per batch, in batch order. Each group opens with a request for its batch without a cursor, and every request in it names that batch. |
| PlanFetch.ThreeBatchesDispatched | get_contracts.py:159-230 | For 250 ids, a finished lookup's requests are those for ids 0-99, then 100-199, then 200-249, each group opening without a cursor. |
| PlanFetch.ConnectionFailureSkipsBatch | get_contracts.py:229-230 | A connection failure ends the current batch without a retry. The run goes on with the next batch. |
| PlanFetch.PageWithinBatchIsShort | get_contracts.py:219-220 | When the service honours the id filter, a page has at most as many plans as the batch has ids, so fewer than 200. |
| PlanFetch.HonestBatchTakesOnePage | get_contracts.py:165-220 | With such a page as the first reply, the batch sends one request and ends with that page, whatever replies follow. |
| PlanFetch.PlanTableKeys | get_contracts.py:235 | The table's keys are exactly the ids of the plans received. |
| PlanFetch.PlanTableLastWins | get_contracts.py:235 | A plan that no later plan shares its id with is the table's entry for that id. |
| PlanFetch.PlanTableOfConcat | get_contracts.py:235 | The table of two runs of plans is the first table overridden by the second. |
| Numbers.Strip | get_contracts.py:245 | The stripped text is no longer than the input, and its ends are not whitespace. It is empty exactly when the input is all whitespace. |
| Numbers.StripPadding | get_contracts.py:245 | Any whitespace around a text whose ends are not whitespace is exactly what stripping removes. |
| Numbers.ParseNumberPolicy | get_contracts.py:238-251 | Null and non-numeric JSON read as 0. Numbers pass through and booleans read as 1 or 0. Blank or unparsable text reads as 0, and other text reads as its trimmed decimal value. |
| Numbers.ParseNumberIntText | get_contracts.py:244-248 | The text of any integer, padded with any whitespace, reads back as that integer. |
| Numbers.ParseNumberFractionText | get_contracts.py:244-248 | Text "whole.frac", padded with whitespace, reads back as the whole part plus the fraction digits scaled by their count. |
| Cells.DescriptionFallback | get_contracts.py:270 | The description is `descriptionRu` when that is non-empty, else `trdBuyNameRu` when that is non-empty, else empty. |
| Cells.SavingsMatchesColumns | get_contracts.py:290-303 | The savings are filled exactly when both amounts are positive, and then equal their difference. Equal amounts give 0, not an empty cell. |
| Summary.TransformSummary | get_contracts.py:254-316 | One row per contract, in order and numbered from 1. The with-plan counter counts the positive planned sums, and the two counters add up to the number of contracts. |
| Summary.SummaryRowFor | get_contracts.py:265-308 | The row built for one contract is `SummaryRowOf` for its number, and the planned sum it uses is the planned sum of the contract's units. |
| Summary.UnitsPlanSum | get_contracts.py:273-281 | The unit loop's sum equals the planned sum of the contract's units. |
| Summary.PlannedSumOverResolvedUnits | get_contracts.py:277-281 | Only units whose `plnPointId` is truthy and found contribute: the planned sum equals the sum over those units alone. |
| Summary.PlannedSumAppend | get_contracts.py:277-281 | The planned sum of a split list of units is the sum of the two parts' planned sums. |
| Summary.SummaryRowColumns | get_contracts.py:289-303 | The planned and contract sums appear only when positive. The savings appear exactly when both do, as their difference. |
| Summary.CountWithPlanIsCount | get_contracts.py:283-286 | The with-plan counter is the number of contracts whose planned sum is positive. |
| Summary.ContractSumText | get_contracts.py:289 | The text "1500.00" reads as 1500. |
| Summary.TwoPlannedUnits | get_contracts.py:276-281 | Two found units with plan amounts 600 and 1000 give a planned sum of 1600. |
| Summary.PlannedAndActualScenario | get_contracts.py:273-303 | A contract sum of "1500.00" against units planned at 600 and 1000 gives 1600 planned, 1500 actual and 100 saved. |
| Summary.BlankScenario | get_contracts.py:273-303 | A blank contract sum with no unit found in the table leaves the planned, actual and savings cells empty. |
| Summary.NoResolvedUnitsPlanNothing | get_contracts.py:276-281 | When no unit is found in the table, the planned sum is 0. |
| Detailed.TransformDetailed | get_contracts.py:319-426 | The rows are the contracts' blocks in order. The contract counter is the number of contracts, the position counter the number of units, and the third counter the number of contracts without units. |
| Detailed.AppendBlock | get_contracts.py:336-413 | One contract appends its header row followed by its item rows (its block). The position counter grows by its unit count, and the no-units counter grows by one exactly when it has no units. |
| Detailed.AppendItems | get_contracts.py:372-413 | The unit loop appends one item row per unit, in order, and counts each as a position. |
| Detailed.DetailRowsCount | get_contracts.py:333-415 | The sheet has one row per contract plus one per unit. |
| Detailed.DetailRowsPrefix | get_contracts.py:333-415 | Rows are only appended: the sheet of the first k contracts is a prefix of the whole sheet. |
| Detailed.BlockLayout | get_contracts.py:345-415 | Contract i's header, numbered i+1, sits after the rows of the contracts before it. Its units follow it in order as item rows. |
| Detailed.ItemsAt | get_contracts.py:372-413 | The j-th item row of a contract is the row of its j-th unit. |
| Detailed.ItemColumns | get_contracts.py:375-412 | An item's name is the plan's `nameRu` when found and "-" otherwise. An unfound unit has no planned sum and no savings. The savings are filled exactly when the planned and unit sums are positive, as their difference. |
| Detailed.ItemsAddUpToSummary | get_contracts.py:378-411 | When no plan amount is negative, a contract's item planned sums add up to its summary planned sum, so the two sheets agree. |
| PlanIds.CollectPlanIds | get_contracts.py:635-640 | The collected set equals the truthy `plnPointId`s of all units of all contracts. |
| PlanIds.ReferencedIdsMembers | get_contracts.py:635-640 | An id is collected exactly when some unit of some contract carries it as a non-zero `plnPointId`, so 0 is never collected. |
| PlanIds.EveryTruthyIdIsRequested | get_contracts.py:635-640 | Every unit that can be found in the table has its id among those asked of the plan fetcher. |
| PlanIds.NoIdsNoRequests | get_contracts.py:645-649 | Fetching an empty id list sends no request and gives an empty table, as `main`'s shortcut for no ids assumes. |

## Left out

- The HTTP transport, the bearer token, the query texts and the `customerBin`/`finYear` variables. A request is reduced to the fields that change between requests (limit, cursor, and for plans the batch).
- The sleeps before retries and between pages, and all logging. They have no effect on the data.
- Any reply after the last one in a script. When no reply is left, the fetchers stop with `ScriptEnd`, which stands for "the rest of the run is not modelled". The contract fetcher then returns what it has collected. The plan lookup returns no table, because the source returns one only after its last batch.
- ContractFetch.FetchAllContracts: a reply whose `data` is null ends the loop as an unexpected error, because the `AttributeError` it raises is caught by the last handler. An invalid JSON body is a request exception and also ends the loop.
- PlanFetch.FetchPlansByIds: a null `data` raises out of the function, since no handler there catches it. The model returns no table in that case, and what `main` does with the exception is not modelled.
- PlanFetch.FetchPlansByIds: the unused `page` counter of the plan loop is not modelled.
- PlanFetch.PageWithinBatchIsShort: that any partition of the ids into batches gives the same table is not proved. A script of replies fixes the answers in advance, so it cannot say what the service would answer to a different batching. Only the one-page consequence for a single batch is proved, in `HonestBatchTakesOnePage`.
- Numbers.ParseNumber: `float()` also accepts exponents, `inf`, `nan` and digit-group underscores. It also accepts any Unicode decimal digit (category Nd), such as Arabic-Indic or full-width digits, so `'١٢'` reads as 12.0. The model reads only the ASCII digits 0-9, and all of these other forms read as unparsable here, that is as 0. Amounts are exact reals, so binary floating-point rounding is not modelled.
- A `ContractUnits` value of JSON null is modelled as an empty list. In the source, `transform_detailed` counts it as a contract without units and `transform_summary` skips it, but the id collection in `main` would raise on it.
- Detailed.TransformDetailed: the average positions per contract is only printed, and is left out. The fixed blank cells of each row kind are implied by the row's constructor.
- `export_to_excel`, `select_export_mode`, the JSON cache file, the environment settings and the rest of `main` are file and console I/O. They are not part of this model.
