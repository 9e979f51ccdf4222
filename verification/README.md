# IT equipment management: gateway, report shaping and view logic in Dafny

This project is a Dafny model of the decision logic of an IT-equipment
management system. The system has:

- an API gateway that dispatches requests to four backend services
  (equipment, providers, maintenance, reports);
- a report service that exports its datasets to PDF;
- a Streamlit front end whose views count, filter and validate equipment,
  provider and maintenance records before sending them to the backends.

The model covers four parts:

- **Gateway** (`gateway.dfy`, modules `Routing` and `Gateway`). It covers the
  routing table and `forward_request`:
  - service resolution from the first path segment;
  - the outbound request with its rewritten `host` header;
  - the choice between the JSON and the raw relay of the reply, and the headers dropped from it;
  - the 503 answer on a transport error.
- **Report** (`report.dfy`). It covers:
  - cell text for a value (`_normalize_value`);
  - the per-title renaming of column names (`_rename_dataset_for_pdf`), which is
    a nested loop over Python dicts;
  - the heading/table/spacer section each report contributes to the PDF story
    (`_append_report_section`), as a class whose element list grows in place.
- **Views**:
  - `providers.dfy`: counters, search filter, provider selector, the form
    validation with its ordered error list, and the POST/PUT payload;
  - `equipment.dfy`: status counters, inventory filters, the location
    fallback, and the create form's three early exits and payload;
  - `maintenance.dfy`: type counters, history filters, the name fallback, the
    calendar's guards and date-range filter, and the schedule form and its
    payload.
- **Support** (`text.dfy`, `seqs.dfy`, `dict.dfy`, `values.dfy`, `wrappers.dfy`).
  These model the Python semantics the views rely on:
  - `str.lower`, `in`, `split`, `strip`, `isdigit`, `str(int)`;
  - dicts in insertion order with `get` and item assignment;
  - pandas boolean masks as order-preserving filters and counts;
  - `astype(str)` of a missing cell, which prints as `"None"`.

Each filter method is proved equal to a specification function (`Filter` over
a row predicate). Membership and order preservation are then proved about that
function. The error list of the provider form is proved to be the ordered
sub-list of the six checks that fail. Each payload is proved to carry, under
the backend's key names, the form's fields, the request time and the fixed
values the view sends.

## Model

| member | source | states |
|---|---|---|
| Routing.RoutingTableIsHttp | api-gateway/main.py:17-22 | every routing-table entry is `http://` followed by a slash-free `host:port` authority |
| Gateway.ForwardRequest | api-gateway/main.py:28-79 | a request is forwarded iff its first path segment names a service, otherwise it goes to the next handler. The outbound request passes on verb, query parameters, body and headers, goes to base URL + path, and sets `host` to the URL's authority. A transport error raises the 503 `HTTPException` (outcome `Unavailable`) with a detail naming the service. A JSON-family content type gives a re-parsed JSON reply, or a failure when the body does not parse. Any other type is relayed as raw bytes with `application/octet-stream` as the default media type. Status is kept, and the headers are the reply's headers minus the three hop-by-hop ones |
| Gateway.FirstSegment | api-gateway/main.py:30 | splitting `a + rest` on "/" yields `a` first when `a` has no slash and `rest` starts with one |
| Gateway.FirstOccurrence | api-gateway/main.py:44 | the index found for a separator is its first occurrence |
| Gateway.HostOfHttpUrl | api-gateway/main.py:44 | the text between `//` and the next `/` of `http://auth/path` is `auth` |
| Gateway.HostIsBackendAuthority | api-gateway/main.py:40-44 | for a routed path the rewritten `host` header is the backend's own `host:port` |
| Gateway.ServiceNameIsFirstSegment | api-gateway/main.py:30-35 | the service name of `/segment/...` is `segment` |
| Gateway.StripLeadingSlash | api-gateway/main.py:30 | `strip("/")` removes the leading slash of a path |
| Gateway.KeepsSegment | api-gateway/main.py:30 | `strip("/")` never cuts into a non-empty first segment |
| Gateway.LocalPathsAreNotRouted | api-gateway/main.py:37-38 | `/` and `/health` resolve to names outside the routing table, so they reach the gateway's own handlers |
| Gateway.EquipmentRequestScenario | api-gateway/main.py:35-44 | `/equipment/42` is routed to `equipment-service:8001` with that host header |
| Gateway.UnavailableDetailNamesService | api-gateway/main.py:75-78 | the 503 detail contains the service name |
| Gateway.JsonFamilyWithParameters | api-gateway/main.py:54-61 | a content type that is `application/json` or `application/problem+json` in any letter case, followed by anything (such as parameters), is JSON-family once lower-cased |
| Gateway.OtherMediaTypesAreOpaque | api-gateway/main.py:61-73 | `text/plain` and a missing content type are relayed raw |
| Text.Lower | api-gateway/main.py:54 | lower-casing keeps the length and lowers each character; its partners are `Text.LowerIdempotent` and `Text.LowerKeepsLowercase` |
| Text.LowerIdempotent | api-gateway/main.py:54 | lower-casing an already lower-cased text changes nothing |
| Text.ContainsIff | api-gateway/main.py:61 | `needle in hay` holds iff `needle` occurs in `hay` at some position |
| Text.ContainsIgnoreCaseIgnoresCase | frontend/views/proveedores.py:101-108 | `str.contains(..., case=False)` gives the same answer when either text is lower-cased first |
| Text.IndexOf | api-gateway/main.py:44 | the index found is an occurrence of the separator with none before it, and no index is found iff the separator does not occur |
| Text.Split | api-gateway/main.py:30 | `split` yields at least one part, none containing the separator |
| Text.JoinSplit | api-gateway/main.py:30 | joining the parts of `split` with the separator restores the text |
| Text.Strip | frontend/views/mantenimiento.py:111 | `strip` yields a piece of the text that neither starts nor ends with a stripped character; its partner is `Text.StripTrims` |
| Text.StripTrims | frontend/views/mantenimiento.py:111 | `strip` removes only stripped characters, and only from the two ends: the result sits at some position of the text with nothing but stripped characters before and after it |
| Text.StripAll | frontend/views/mantenimiento.py:110-111 | a text made only of stripped characters strips to the empty text |
| Text.CellText | frontend/views/proveedores.py:103-108 | `astype(str)` shows a present cell as its text and a missing one as `"None"`; its partners are `Providers.MissingCellsMatchNone` and `Maintenance.MissingNameMatchesNone` |
| Text.ParseNatToString | frontend/views/proveedores.py:406 | the decimal text of a number reads back as that number |
| Dict.Get | services/report/main.py:200 | `row.get(k)` is None exactly when `k` is not a key, otherwise a value stored under `k` |
| Dict.SetKeepsKeys | services/report/main.py:251 | assigning a key that is present keeps the keys and their order |
| Dict.SetAppendsNewKey | services/report/main.py:251 | assigning a new key appends it after the existing entries |
| Dict.SetKeepsOthers | services/report/main.py:251 | assigning a key leaves every other key's entry in place |
| Dict.GetAfterSet | services/report/main.py:251 | after `d[k] = v`, `d.get(k)` is `v` and every other key's value is unchanged |
| Report.NormalizeValue | services/report/main.py:184-187 | None prints empty; strings are kept; booleans print `True`/`False`; an integer prints as decimal digits that read back as it, with a `-` when negative |
| Report.Cell | services/report/main.py:200 | a column the row lacks prints empty, otherwise the value under that column is printed |
| Report.RenameRow | services/report/main.py:247-253 | a renamed row never has more entries than the original and never repeats a column |
| Report.RenameKeepsItems | services/report/main.py:245-253 | when no two columns get the same new name, the renamed row has the same values in the same order under the new names |
| Report.UnknownTitleKeepsRow | services/report/main.py:245 | a title without a mapping leaves each row unchanged |
| Report.StatusRowIsTranslated | services/report/main.py:220-224 | the equipment-status report's columns become `Estado`, `Cantidad`, `Porcentaje (%)` |
| Report.RenameDatasetForPdf | services/report/main.py:215-255 | an empty dataset is returned as is; otherwise each row is renamed with its title's mapping, one row out per row in, in order |
| Report.RenameRows | services/report/main.py:247-253 | the outer loop yields one renamed row per row, in order |
| Report.RenameItems | services/report/main.py:249-252 | the inner loop yields the row renamed item by item |
| Report.CellsOf | services/report/main.py:199-200 | one cell per column, each the printed value under that column; its partner is `Report.FirstRecordRow` |
| Report.RowsOf | services/report/main.py:198-200 | one data row per record, in order, each the record's cells under the given columns |
| Report.BuildTableData | services/report/main.py:197-200 | the table is a header row with the first record's columns, then one row per record with its cells under those columns |
| Report.FirstRecordRow | services/report/main.py:197-200 | the first data row shows the first record's values column by column |
| Report.Story.AppendReportSection | services/report/main.py:189-213 | appends the heading, then the no-data paragraph and a 12-point spacer for an empty dataset, or the table (header repeated on each page) and an 18-point spacer; earlier elements are kept |
| Providers.InactivosCountsTheRest | frontend/views/proveedores.py:75-77 | total minus active is the number of providers not marked active, so it is never negative |
| Providers.FilterProviders | frontend/views/proveedores.py:96-110 | the rows shown are exactly the `Filter` of the list by the two masks, so duplicates are kept. A provider is shown iff it is listed, is active when only active ones are asked for, and its RUC or business name contains the search text ignoring case; order is kept |
| Providers.MissingCellsMatchNone | frontend/views/proveedores.py:101-110 | a provider lacking RUC and business name matches the search text `none` |
| Providers.SelectProvider | frontend/views/proveedores.py:35-46 | no provider is selected iff the list is empty; otherwise the chosen entry is selected; its partner is `Providers.SubmitUpdateTab`, which sends the PUT for the selected provider's id |
| Providers.RucAcceptedIff | frontend/views/proveedores.py:293-294 | a RUC passes iff it has exactly 11 characters, all digits |
| Providers.EveryCheckRuns | frontend/views/proveedores.py:292-304 | each of the six checks is among those that run |
| Providers.CollectProviderErrors | frontend/views/proveedores.py:292-304 | the errors are the failing checks in the source's order; each is shown with its text from `Providers.Message`; its partner is `Providers.FailedChecksMeaning` |
| Providers.FailedChecksMeaning | frontend/views/proveedores.py:292-309 | a check is reported iff it fails; no error is reported iff the form is valid; errors keep the check order |
| Providers.PayloadOf | frontend/views/proveedores.py:311-319 | the payload has the seven backend keys in order, each once |
| Providers.PayloadCarriesInputs | frontend/views/proveedores.py:311-319 | each payload key carries the corresponding form field |
| Providers.SubmitProviderForm | frontend/views/proveedores.py:292-321 | the errors are the failing checks. A request is sent iff there are no errors. It carries the form's payload and is a POST to `/providers/` from the create form, or a PUT to `/providers/` followed by the selected provider's id (`None` for a null id) from the update form (lines 376-408) |
| Providers.SubmitUpdateTab | frontend/views/proveedores.py:330-408 | an empty provider list sends nothing; otherwise the provider picked in the selector is the one selected, the form's checks give the errors, and a request is sent iff the form is valid: a PUT to `/providers/` followed by that provider's id, carrying the form's payload |
| Providers.UpdatePathNamesId | frontend/views/proveedores.py:405-406 | the PUT path for a provider id ends in the id's digits, which read back as the id |
| Equipment.OperativoIsNeitherOther | frontend/views/equipos.py:83-85 | the status `operativo` is counted neither as in maintenance nor as retired |
| Equipment.CountersWithinTotal | frontend/views/equipos.py:81-85 | operational plus in-maintenance, and operational plus retired, never exceed the total |
| Equipment.MaintenanceAndRetiredOverlap | frontend/views/equipos.py:84-85 | a status whose lower-cased text contains both `manten` and `baja`, in either order, is counted as in maintenance and as retired |
| Text.LowerKeepsLowercase | frontend/views/equipos.py:81 | lower-casing leaves a text without capitals unchanged |
| Equipment.UbicacionActual | frontend/views/equipos.py:128-130 | the location shown is the recorded one, or `Sin ubicación registrada` when missing; it is used through `Equipment.UbicacionesOf` and `Equipment.FilterInventory` |
| Equipment.FilterInventory | frontend/views/equipos.py:111-130 | an item is shown iff its type and status are among the chosen ones (when any are chosen) and its code or serial contains the search text ignoring case. Order is kept, and the location column is built from the shown rows |
| Equipment.UbicacionesOf | frontend/views/equipos.py:128-130 | the location column has one entry per shown row, each that row's location text; its partner is `Equipment.FilterInventory`, which fixes the shown rows |
| Equipment.LocationOptions | frontend/views/equipos.py:161-163 | the fetched locations are offered, or a single placeholder without id when there are none; its partner is `Equipment.NoLocationsNoSubmit` |
| Equipment.NoLocationsNoSubmit | frontend/views/equipos.py:161-198 | with no locations the submit button is disabled |
| Equipment.EquipmentPayload | frontend/views/equipos.py:220-229 | the payload has the eight backend keys in order, each once |
| Equipment.EquipmentPayloadCarriesInputs | frontend/views/equipos.py:220-229 | each key carries its form field; `observaciones` is null iff left empty and otherwise the text entered |
| Equipment.SubmitEquipment | frontend/views/equipos.py:208-231 | nothing happens unless submitted. A location without id is an error. So is an empty required field. Otherwise the payload is sent. An error message (`Equipment.ErrorText`) is shown iff one of the two errors occurs |
| Maintenance.DateLeIsTotalOrder | frontend/views/mantenimiento.py:228-232 | date comparison is a total order |
| Maintenance.TypeCountersWithinTotal | frontend/views/mantenimiento.py:72-73 | preventive plus corrective never exceed the total |
| Maintenance.FilterHistory | frontend/views/mantenimiento.py:105-116 | a record is shown iff its type and status are among the chosen ones (when any are chosen) and its equipment name or id contains the stripped search text ignoring case; order is kept |
| Maintenance.BlankEquipoTextKeepsAll | frontend/views/mantenimiento.py:110-116 | a search text made of blanks filters nothing beyond type and status |
| Maintenance.MissingNameMatchesNone | frontend/views/mantenimiento.py:110-114 | a record without equipment name matches the search text `none` |
| Maintenance.EquipoNombre | frontend/views/mantenimiento.py:142 | the equipment name is shown when present and non-empty, otherwise `Equipo #` and the id; its partner is `Maintenance.FallbackNameShowsId` |
| Maintenance.FallbackNameShowsId | frontend/views/mantenimiento.py:142 | the fallback name contains the equipment id |
| Maintenance.Calendar | frontend/views/mantenimiento.py:204-233 | no records, a missing date column, no scheduled records, and a start after the end each stop with their own message. Otherwise the rows shown are exactly the `Filter` of the records by the date range, so they are the records scheduled within the range, in order, duplicates kept |
| Maintenance.MinDate | frontend/views/mantenimiento.py:219 | the default start is the earliest scheduled date |
| Maintenance.MaxDate | frontend/views/mantenimiento.py:220 | the default end is the latest scheduled date |
| Maintenance.DefaultRangeShowsAll | frontend/views/mantenimiento.py:219-233 | with the default range every scheduled record is shown |
| Maintenance.MaintenanceType | frontend/views/mantenimiento.py:297 | the type is `preventivo` iff the label is `Preventivo`, else `correctivo`; its partner is `Maintenance.OfferedTypesAreLowercased` |
| Maintenance.OfferedTypesAreLowercased | frontend/views/mantenimiento.py:274-297 | both offered labels map to their lower-case form |
| Maintenance.SchedulePayload | frontend/views/mantenimiento.py:301-312 | the payload has the ten backend keys in order, each once |
| Maintenance.SchedulePayloadFields | frontend/views/mantenimiento.py:297-312 | the payload carries the id, the type, status `solicitado`, the lower-cased priority, the request time, and the scheduled date in ISO form (null iff none). The start, end and cost fields are null |
| Maintenance.PaddedReadsBack | frontend/views/mantenimiento.py:307 | a zero-padded numeral has at least the width, exactly the width when the number fits, and reads back as the number |
| Maintenance.IsoDateFields | frontend/views/mantenimiento.py:307 | `isoformat()` of a valid day is ten characters with `-` at positions 4 and 7, and its digit groups read back as year, month and day |
| Maintenance.SubmitSchedule | frontend/views/mantenimiento.py:288-312 | an equipment id of 0 gives the single missing-id error and no payload; otherwise the payload is built |

## Left out

- The network, async I/O and the HTTP client pool are left out. The backend's reply (or transport error) and `response.json()` are parameters of `Gateway.ForwardRequest`; the JSON value type is generic.
- Gateway.ForwardRequest: the check at api-gateway/main.py:32 (`if not path_parts`) can never fire, because `split` always returns at least one part. The model proves `|PathParts(path)| >= 1` and has no branch for it.
- Gateway.ForwardRequest: request and response headers are maps with one value per name. Header order and repeated headers are not modelled.
- Gateway.ForwardRequest: the outcome `Unavailable` is the `HTTPException(503, ...)` the source raises, and `query` is the `params` argument it passes. What the framework answers to an exception raised inside an HTTP middleware is not modelled. Neither is how the HTTP client builds the query string from a multi-valued query, such as whether repeated keys are kept.
- Gateway.ForwardRequest: a body that does not parse as JSON gives the distinct outcome `MalformedJson`. The source raises an exception the gateway does not catch; the framework's answer to it is not part of this model.
- CORS middleware, the `/health` handler body and the unused database URL are not modelled.
- Text: lower-casing, `isdigit` and `strip` whitespace cover ASCII only. Unicode case mapping, Unicode digits and non-ASCII whitespace (such as U+0085 or U+00A0) are not modelled.
- Providers.FilterProviders, Equipment.FilterInventory, Maintenance.FilterHistory: `str.contains` is read as a literal substring search. Its regular-expression reading of the search text is not modelled.
- pandas coerces an integer id column with missing values to floats, so cells print like `1.0` or `nan`. The model prints integer ids as integers and missing ones as `None`.
- Report: floating-point values (costs, percentages) print through `Value.Other`, whose text is given; Python's float formatting is not modelled.
- Report: the SQL queries, `pd.cut` age groups, Excel export, table styling, PDF rendering and the export loop over the five reports (services/report/main.py:350-360) are left out. Each section is modelled by `Report.Story.AppendReportSection`.
- Providers: option labels of the selector (frontend/views/proveedores.py:41-44), prefilling the update form, and handling the backend's status code after POST or PUT are not modelled.
- Providers.SubmitUpdateTab: a provider's id is either a number or null, and a null id is printed as `None` in the PUT path. A provider object without an `id_proveedor` key, where the source raises `KeyError`, and an empty provider object, which the update tab's `if not selected` skips, are not modelled.
- Equipment: sorting of the filter choices (frontend/views/equipos.py:99, 103) and of the detail-tab selector (line 258), and the backend's response handling, are not modelled.
- Maintenance: the current time (`datetime.now()`) is a parameter. Dates carry no time of day. Whether the `fecha_programada` column exists is a parameter. Sorting for display and the per-day summary (frontend/views/mantenimiento.py:259-265) are not modelled.
- Maintenance.SubmitSchedule: the widget has `min_value=1`, so an id of 0 cannot come from the UI. The model still takes any integer and covers the error branch.
- Streamlit widgets, layout, messages shown with `st.info`/`st.warning` and session state are not modelled beyond the outcome each view reaches.
