# Xerox document selection and report lines for day routes

This project models the Xerox part of the Chilean electronic-document
module for field-service day routes (`fsm.route.dayroute`). The module
does three things:

- It finds the shipping documents of a set of day routes and counts them.
  The documents are invoices, pickings and batch pickings.
- It selects the record sets to send to Xerox, the signing and printing
  service, with one send per company.
- It builds the numbered report lines that the Xerox templates render.
  Moves are grouped by (product, unit of measure) and the groups are
  listed under one header per product category, followed by a TOTAL line.

Files:

- `wrappers.dfy`: the `Option` type.
- `ordered.dfy`: first-seen de-duplication and selection over sequences.
  This is the order that Python dictionaries and Odoo's `mapped` keep.
- `xerox_report.dfy`: `get_xerox_data`.
  - `Accumulate`, `Rows` and `Report` are the specification functions.
  - `XeroxData`, `GroupMoves`, `GroupMove`, `EmitReport`, `EmitSection`
    and `EmitLines` are the imperative builder, proved equal to those functions.
- `xerox_report_props.dfy`: what the builder promises.
  - Per-key sums and maxima.
  - First-seen order of lines and sections.
  - One line per key, under its own section's header.
  - Numbering from 1 and the closing total.
- `xerox_report_examples.dfy`: worked cases of the builder.
- `xerox_shipping.dfy`: `_compute_shipping` as a class and a loop,
  `_xerox_get_dayroute_rsets` as a function, and `xerox_send_files` as a
  loop that records one call per company.

Three behaviours of the code are kept as written:

1. Every route of a record set is given the documents found for the whole
   record set. The search domains are built from `self`, not from the route
   at hand.
2. Without `force`, the routes are filtered on counters computed in the
   caller's own `xerox_force` context. The `force` argument is not used for
   that filter. Since all routes share one counter, the result is all of the
   routes or none of them.
3. A route whose `company_id` is empty is never sent. `mapped('company_id')`
   drops the empty company, and no company's filter matches the route
   (`CompanylessNeverSent`).

## Model

| member | source | states |
|---|---|---|
| XeroxReport.XeroxData | l10n_cl_etd_xerox_fsmroute/models/fsm_route_dayroute.py:118-177 | the report built from the batch pickings is the specification `Report` of the moves reachable from them |
| XeroxReport.ReachableMoves | l10n_cl_etd_xerox_fsmroute/models/fsm_route_dayroute.py:124-125 | no contract of its own: the moves of the batches' pickings, de-duplicated in first-seen order; `ReachableMovesOnce` proves they are each such move exactly once |
| XeroxReport.MoveQty | l10n_cl_etd_xerox_fsmroute/models/fsm_route_dayroute.py:140-141 | no contract of its own: the done quantity, or the planned quantity when nothing is done; `QuantityIsSum` and the examples state its use |
| XeroxReport.Step | l10n_cl_etd_xerox_fsmroute/models/fsm_route_dayroute.py:126-145 | no contract of its own: one iteration of the grouping loop; `StepLine` gives its effect on each key and `StepKeepsWf` the invariant it keeps |
| XeroxReport.Accumulate | l10n_cl_etd_xerox_fsmroute/models/fsm_route_dayroute.py:126-145 | no contract of its own: the grouping pass over the moves; `AccumulateWf`, `AccumulateFirstSeen`, `QuantityIsSum` and `PriceIsMax` state what it computes |
| XeroxReport.GroupMoves | l10n_cl_etd_xerox_fsmroute/models/fsm_route_dayroute.py:126-145 | the grouping loop leaves the two ordered dictionaries equal to `Accumulate` of the moves |
| XeroxReport.GroupMove | l10n_cl_etd_xerox_fsmroute/models/fsm_route_dayroute.py:127-145 | one iteration registers the move's category and its (product, unit) key if new, then adds its quantity and raises the price, exactly as one `Step` of the specification |
| XeroxReport.EmitReport | l10n_cl_etd_xerox_fsmroute/models/fsm_route_dayroute.py:147-177 | the emission loop produces the rows of every section, then the total, numbered from 1 |
| XeroxReport.EmitSection | l10n_cl_etd_xerox_fsmroute/models/fsm_route_dayroute.py:149-166 | one section appends its header and its lines with the running index continuing from the lines so far |
| XeroxReport.EmitLines | l10n_cl_etd_xerox_fsmroute/models/fsm_route_dayroute.py:163-166 | appending a section's lines numbers each line with the next index, so the lines so far stay numbered consecutively from 1 |
| XeroxReport.StepKeepsWf | l10n_cl_etd_xerox_fsmroute/models/fsm_route_dayroute.py:126-145 | one loop iteration keeps the dictionaries consistent (keys listed once, every line's section named), and the move's key and category are then present |
| XeroxReport.StepLine | l10n_cl_etd_xerox_fsmroute/models/fsm_route_dayroute.py:131-145 | one iteration adds the move's key if new (seeded from that move), leaves every other line unchanged, adds the move's quantity to its key and raises its price to the larger of the old price and the sale price |
| XeroxReport.AccumulateWf | l10n_cl_etd_xerox_fsmroute/models/fsm_route_dayroute.py:126-145 | the whole grouping pass keeps the dictionaries consistent |
| XeroxReport.Members | l10n_cl_etd_xerox_fsmroute/models/fsm_route_dayroute.py:150-152 | every key listed for a section is an accumulated line of that section; that the list holds all of them, in accumulator order, is proved in `MembersElements` and `BlocksKeysMembers` |
| XeroxReport.Block | l10n_cl_etd_xerox_fsmroute/models/fsm_route_dayroute.py:149-166 | no contract of its own: a section's header and lines, or nothing when no line belongs to it; `BlockGrouped` and `BlockViews` state its shape |
| XeroxReport.TotalQuantity | l10n_cl_etd_xerox_fsmroute/models/fsm_route_dayroute.py:168 | no contract of its own: the sum of the accumulated quantities; `TotalIsSumOfMoves` equates it with the sum over all moves |
| XeroxReport.Rows | l10n_cl_etd_xerox_fsmroute/models/fsm_route_dayroute.py:148-177 | no contract of its own: the blocks of the sections in dictionary order, then the total; `RowsShape` states its length and its single closing total |
| XeroxReport.Report | l10n_cl_etd_xerox_fsmroute/models/fsm_route_dayroute.py:147-177 | no contract of its own: the rows numbered from 1; `ReportShape`, `ReportLinesOncePerKey` and `ReportSections` state what the report holds |
| XeroxReportProps.ReachableMovesOnce | l10n_cl_etd_xerox_fsmroute/models/fsm_route_dayroute.py:124-125 | the moves reached are every move of every picking of every batch, each exactly once |
| XeroxReportProps.AccumulateFirstSeen | l10n_cl_etd_xerox_fsmroute/models/fsm_route_dayroute.py:126-139 | the line keys and the sections are the keys and categories of the moves, each kept at its first occurrence |
| XeroxReportProps.LinesInFirstSeenOrder | l10n_cl_etd_xerox_fsmroute/models/fsm_route_dayroute.py:126-139 | keys and sections are distinct, are exactly those of the moves, and are ordered by first occurrence in the input |
| XeroxReportProps.LineKeys | l10n_cl_etd_xerox_fsmroute/models/fsm_route_dayroute.py:131-132 | a key has a line exactly when some move has that key |
| XeroxReportProps.SectionKeys | l10n_cl_etd_xerox_fsmroute/models/fsm_route_dayroute.py:127-129 | a category has a section exactly when some move has that category |
| XeroxReportProps.LineSeededByFirstMove | l10n_cl_etd_xerox_fsmroute/models/fsm_route_dayroute.py:131-139 | a line's code, name, unit label and section come from the first move of its key |
| XeroxReportProps.SectionTitledByFirstMove | l10n_cl_etd_xerox_fsmroute/models/fsm_route_dayroute.py:127-129 | a section's title is the category name of its first move, or empty when the name is unset |
| XeroxReportProps.QuantityIsSum | l10n_cl_etd_xerox_fsmroute/models/fsm_route_dayroute.py:140-141 | a key's quantity is the sum over its moves of the done quantity, or of the planned quantity when nothing is done |
| XeroxReportProps.PriceIsMax | l10n_cl_etd_xerox_fsmroute/models/fsm_route_dayroute.py:142-145 | a key's price is at least 0 and at least every sale price of its moves, and is 0 or one of those prices |
| XeroxReportProps.PriceNeverDecreases | l10n_cl_etd_xerox_fsmroute/models/fsm_route_dayroute.py:142-145 | one more move never lowers a line's price and never drops a line |
| XeroxReportProps.TotalIsSumOfMoves | l10n_cl_etd_xerox_fsmroute/models/fsm_route_dayroute.py:168 | the total of the accumulated quantities equals the sum of the quantities of all moves |
| XeroxReportProps.NumberedAt | l10n_cl_etd_xerox_fsmroute/models/fsm_route_dayroute.py:148-176 | numbering keeps the rows and gives the i-th row the index start + i |
| XeroxReportProps.RowsShape | l10n_cl_etd_xerox_fsmroute/models/fsm_route_dayroute.py:147-177 | the rows are one header per used section, one line per key and a final total of the accumulated quantities; no other row is a total |
| XeroxReportProps.ReportShape | l10n_cl_etd_xerox_fsmroute/models/fsm_route_dayroute.py:147-177 | the report has one line per non-empty section, one per key and one total; indexes run 1..n; the last line is the total of all move quantities; no other line is a total |
| XeroxReportProps.EmptyReport | l10n_cl_etd_xerox_fsmroute/models/fsm_route_dayroute.py:168-177 | without moves the report is the single total line with quantity 0 and index 1 |
| XeroxReportProps.ReportRows | l10n_cl_etd_xerox_fsmroute/models/fsm_route_dayroute.py:147-177 | the rows of the report are the section blocks followed by the total |
| XeroxReportProps.ReportLinesOncePerKey | l10n_cl_etd_xerox_fsmroute/models/fsm_route_dayroute.py:150-166 | every key of the moves appears on exactly one product line, and each section lists its keys in accumulator order |
| XeroxReportProps.BlocksListEveryKey | l10n_cl_etd_xerox_fsmroute/models/fsm_route_dayroute.py:149-166 | the section blocks of consistent dictionaries list every line key exactly once, each section's keys in accumulator order |
| XeroxReportProps.ReportLinesFromGrouping | l10n_cl_etd_xerox_fsmroute/models/fsm_route_dayroute.py:163-165 | each product line of the report carries its key's accumulated line |
| XeroxReportProps.ReportSections | l10n_cl_etd_xerox_fsmroute/models/fsm_route_dayroute.py:149-166 | headers appear for exactly the sections that have lines, in first-seen order; each product line follows its own section's header, and every header is followed by a line of its section |
| XeroxReportProps.ReportHeadersTitled | l10n_cl_etd_xerox_fsmroute/models/fsm_route_dayroute.py:149-162 | every header of the report is titled with the name registered for its section, that is the first move's category name or empty |
| XeroxReportProps.EveryCategoryHasHeader | l10n_cl_etd_xerox_fsmroute/models/fsm_route_dayroute.py:149-153 | when each product has one category, every category met gets a header, in first-seen order |
| XeroxReportProps.CategoryUsed | l10n_cl_etd_xerox_fsmroute/models/fsm_route_dayroute.py:126-139 | when each product has one category, every category met has at least one accumulated line |
| XeroxReportExamples.DoneQuantitiesMerge | l10n_cl_etd_xerox_fsmroute/models/fsm_route_dayroute.py:140-141 | done quantities 3 and 5 of one product and unit give one line of quantity 8 |
| XeroxReportExamples.PriceKeepsHighest | l10n_cl_etd_xerox_fsmroute/models/fsm_route_dayroute.py:142-145 | sale prices 10, none and 7 leave the line's price at 10 |
| XeroxReportExamples.CategoriesFirstSeen | l10n_cl_etd_xerox_fsmroute/models/fsm_route_dayroute.py:127-129 | categories met in the order B, A, B leave the grouping pass with the sections B, A |
| XeroxReportExamples.SectionsInFirstSeenOrder | l10n_cl_etd_xerox_fsmroute/models/fsm_route_dayroute.py:149-153 | categories met in the order B, A, B give the headers B then A, unsorted |
| XeroxShipping.BatchesOf | l10n_cl_etd_xerox_fsmroute/models/fsm_route_dayroute.py:35 | the candidate batches are exactly the batches of the loading pickings that have one |
| XeroxShipping.FindShippingDocs | l10n_cl_etd_xerox_fsmroute/models/fsm_route_dayroute.py:20-39 | no contract of its own: the three searches with the record set's domains, the batches searched among those of the loading pickings; `ComputeShipping` assigns them to every route |
| XeroxShipping.TruckInvoices | l10n_cl_etd_xerox_fsmroute/models/fsm_route_dayroute.py:47-50 | the shipping invoices are exactly those of class 33 or 39 |
| XeroxShipping.PendingSignCount | l10n_cl_etd_xerox_fsmroute/models/fsm_route_dayroute.py:42-46 | no contract of its own: the number of invoices, pickings and batches found; compared with the shipping count in `ShippingWithinPending` |
| XeroxShipping.ShippingDocsCount | l10n_cl_etd_xerox_fsmroute/models/fsm_route_dayroute.py:51-55 | no contract of its own: as the pending count with only class 33 and 39 invoices; `ShippingWithinPending` bounds it by the pending count |
| XeroxShipping.ShippingWithinPending | l10n_cl_etd_xerox_fsmroute/models/fsm_route_dayroute.py:42-55 | the shipping-document count never exceeds the pending-signature count, and equals it exactly when every invoice is of class 33 or 39 |
| XeroxShipping.NothingFoundCountsZero | l10n_cl_etd_xerox_fsmroute/models/fsm_route_dayroute.py:42-55 | with no documents found, both counters are 0 |
| XeroxShipping.ComputeShipping | l10n_cl_etd_xerox_fsmroute/models/fsm_route_dayroute.py:11-55 | every route of the record set gets the invoices, pickings and batches found for the whole record set, and the two counters of those documents |
| XeroxShipping.ForcedSelectsAll | l10n_cl_etd_xerox_fsmroute/models/fsm_route_dayroute.py:85-86 | with `force`, every route of the record set is selected |
| XeroxShipping.XeroxRsets | l10n_cl_etd_xerox_fsmroute/models/fsm_route_dayroute.py:72-91 | no contract of its own: the four record sets of one call; `ForcedSelectsAll`, `UnforcedAllOrNothing`, `SelectedRoutesFromSelf`, `SelectedDocuments` and `LiquidationInvoicesOnly` state what it selects |
| XeroxShipping.UnforcedAllOrNothing | l10n_cl_etd_xerox_fsmroute/models/fsm_route_dayroute.py:76-86 | without `force`, the routes are all selected when the shared shipping-document count in the caller's context is non-zero, and none are selected otherwise |
| XeroxShipping.WithDocs | l10n_cl_etd_xerox_fsmroute/models/fsm_route_dayroute.py:79 | no contract of its own: the routes kept by the filter on the shipping-document count; `WithDocsAllOrNone` shows a shared count keeps all or none |
| XeroxShipping.WithDocsAllOrNone | l10n_cl_etd_xerox_fsmroute/models/fsm_route_dayroute.py:79 | filtering the record set on a shipping-document count that every route shares keeps all routes or none |
| XeroxShipping.UnionOverShared | l10n_cl_etd_xerox_fsmroute/models/fsm_route_dayroute.py:88-90 | the union over the routes of documents that every route shares is those documents, or nothing for an empty record set |
| XeroxShipping.UnionOver | l10n_cl_etd_xerox_fsmroute/models/fsm_route_dayroute.py:81-90 | no contract of its own: `mapped` of a document field over the routes; `UnionOverShared` gives its value when every route holds the same documents |
| XeroxShipping.SelectedRoutesFromSelf | l10n_cl_etd_xerox_fsmroute/models/fsm_route_dayroute.py:79-86 | the selected routes are routes of the record set |
| XeroxShipping.SelectedDocuments | l10n_cl_etd_xerox_fsmroute/models/fsm_route_dayroute.py:76-91 | nothing is selected for an empty record set; otherwise the pickings and batches are those found with `force`, and the invoices are too, narrowed to class 61 exactly when the context's `xerox` is 61 |
| XeroxShipping.LiquidationInvoicesOnly | l10n_cl_etd_xerox_fsmroute/models/fsm_route_dayroute.py:81-84 | in a liquidation context every selected invoice is of class 61 |
| XeroxShipping.LiquidationInvoices | l10n_cl_etd_xerox_fsmroute/models/fsm_route_dayroute.py:84 | the invoices kept are exactly those of class 61 |
| XeroxShipping.XeroxSendFiles | l10n_cl_etd_xerox_fsmroute/models/fsm_route_dayroute.py:93-102 | the calls made are the send plan over the record set's companies |
| XeroxShipping.SendPlan | l10n_cl_etd_xerox_fsmroute/models/fsm_route_dayroute.py:99-102 | one call per company given, in that order; `SendPlanAt` gives the call at each position |
| XeroxShipping.CompaniesOf | l10n_cl_etd_xerox_fsmroute/models/fsm_route_dayroute.py:99 | a company is listed exactly when some route has it set; a route whose company is empty adds nothing |
| XeroxShipping.Companies | l10n_cl_etd_xerox_fsmroute/models/fsm_route_dayroute.py:99 | no contract of its own: the companies of the routes, each once, first seen first; `CompaniesCover` proves them distinct and exactly those set on the routes |
| XeroxShipping.CompanyRoutes | l10n_cl_etd_xerox_fsmroute/models/fsm_route_dayroute.py:100 | no contract of its own: the routes whose company is the given one, in record-set order; `CompanyRoutesElements` states its elements |
| XeroxShipping.SendPlanAt | l10n_cl_etd_xerox_fsmroute/models/fsm_route_dayroute.py:99-102 | the call at each position carries that company's own routes' record sets |
| XeroxShipping.SendPlanCompanies | l10n_cl_etd_xerox_fsmroute/models/fsm_route_dayroute.py:99-102 | one call per company given, in the order given |
| XeroxShipping.CompaniesCover | l10n_cl_etd_xerox_fsmroute/models/fsm_route_dayroute.py:99 | the companies iterated are distinct and are exactly the companies set on the routes |
| XeroxShipping.RoutesPartitioned | l10n_cl_etd_xerox_fsmroute/models/fsm_route_dayroute.py:99-100 | every route that has a company belongs to exactly one company's partition |
| XeroxShipping.CompanyRoutesElements | l10n_cl_etd_xerox_fsmroute/models/fsm_route_dayroute.py:100 | a company's routes are exactly the routes of the record set with that company |
| XeroxShipping.SendsOwnRoutesOnly | l10n_cl_etd_xerox_fsmroute/models/fsm_route_dayroute.py:99-102 | each call carries only routes of the record set whose company is the call's company |
| XeroxShipping.CompanylessNeverSent | l10n_cl_etd_xerox_fsmroute/models/fsm_route_dayroute.py:99-100 | a route without a company is carried by no call: `mapped('company_id')` skips it and no company's filter matches it |

## Left out

- The Odoo ORM is not modelled. `search`, `filtered`, `mapped`,
  `with_context` and recordsets become sets, sequences and plain functions.
  The field declarations of lines 57-70 are not modelled.
- The domain builders `_xerox_get_domain_invoice`,
  `_xerox_get_domain_picking` and `_xerox_get_domain_picking_batch`,
  together with the searches they feed, are opaque function-valued inputs
  (`Searches`). Their filtering rules are not part of this model.
- `etd.document.xerox_build_and_send_files` is not modelled.
  `XeroxSendFiles` returns the calls as `(company, rsets)` values instead
  of making them. The file generation and transmission are external.
- The `@job` queue decorator and the two action wrappers
  `action_xerox_send_files` and `action_xerox_send_files_force` are not
  modelled. They are background-job and user-interface triggers.
- Translated strings are not modelled. The header is a `HeaderRow` that
  carries the category and its name. The total is a `TotalRow` with its
  quantity. Blank cells and the "TT" unit are left implicit.
- Quantities and prices are integers, not Odoo floats. The model is about
  grouping and summing, not rounding.
- A product line is a `ProductRow` that carries its key and its accumulated
  line. In the source, the same dictionary object from `lines` is mutated to
  receive its index and is then appended. The model does not capture that
  aliasing.
- `_xerox_get_dayroute_rsets` reads the computed fields of the routes. The
  model recomputes them from the searches instead of reading them from
  `DayRoute` objects, so it works on `Route` values.
- A missing invoice class is represented by a code outside 33, 39 and 61. It
  then behaves as the source's `False` code does.
