# CaffeFlux front-end: a Dafny model of its view state logic

CaffeFlux is the React front-end of a café point-of-sale system. It has a
sales-entry view with a local cart, views to open, list, close and delete
work shifts (turnos), an admin sales summary, and an end-of-day close that
saves a PDF report and then asks the backend to close every active shift.
Under the rendering and the HTTP calls, each view holds a small amount of
pure, sequential state logic. This project models that logic as immutable
Dafny datatypes and pure functions, and proves what the views promise about it.

Modules, one per view or shared concept:

- `Common`: optional values, the JSON `null`/`undefined`/string value of a
  timestamp or a name, its JavaScript truthiness and template-literal text,
  `detail || fallback`, request outcomes, and an order-preserving `Filter`.
- `Timestamps`: the UTC-suffix normalisation (`'Z'` appended unless present)
  and the three time formatters.
- `Shifts`: the shift record and the three open/closed tests the views use.
- `Cart` (`Ventas.js`): the cart reducer with its incrementally kept total,
  and the sale submission.
- `ConfirmModal`: the choose → confirm → request → remove-by-id flow shared by
  the close-shift and active-shift views.
- `CloseShift` (`CerrarTurno.jsx`) and `DeleteShift` (`TurnosActivos.jsx`).
- `ShiftHistory` (`VerTurnos.jsx`), `OpenShift` (`AbrirTurno.jsx`).
- `Payments`: the payment record and both total computations.
- `SalesSummary` (`VentasTotales.jsx`).
- `DayClose` (`CerrarDia.jsx`): which report lines exist and in what order,
  the error text, and the Idle → ConfirmPending → Generating → Idle flow.

Every HTTP request is an outcome passed in as a parameter
(`Ok(data)` or `Err(detail)`). The current instant is passed in as its ISO text.
Money is whole numbers.

Notes on the source, as modelled:

- The cart total is kept incrementally. It matches the lines only while every
  product id has one fixed price. `Cart.Valid` therefore ties each line to a
  catalogue price map, and adding requires the product to carry its catalogue
  price. `Cart.PriceChangeBreaksTotal` shows the drift when it does not.
- The views disagree on what an open shift is. The close-shift view keeps
  `hora_cierre === null`. The active-shift view keeps a falsy `hora_cierre`.
  The two lists differ exactly on a close time that is `undefined` or `""`
  (`Shifts.OpenAndActiveAgreeIff`).
- The close-shift view and the end-of-day report append `'Z'` before parsing a
  time. The active-shift and history views do not. The close-shift and
  active-shift views hand `Date` the same text exactly when it already ends in
  `'Z'` (`Timestamps.ViewsAgreeIffSuffixed`). Their locale options differ in
  any case.
- In the report, the "no sales" test `!ventasDesglosadas && pagos.length === 0`
  reduces to `pagos` being empty, because every payment raises the flag.
- In the report's error handler, the initial "Error desconocido…" text is
  overwritten on every branch, so it is never shown.
- The cleanup after the report is saved is the single request
  `PUT /api/turnos/cerrar_todos` (`src/pages/admin/CerrarDia.jsx:210`).

## Model

| member | source | states |
|---|---|---|
| Cart.Find | src/pages/Ventas.js:19 | `find` returns the first line with the id, and returns nothing exactly when no line has it |
| Cart.AddToCart | src/pages/Ventas.js:18-28 | a listed id gets its quantity raised by one and every other line is unchanged; a new id is appended as one line of quantity 1 at the end; the total always rises by the product's price |
| Cart.RemoveFromCart | src/pages/Ventas.js:31-37 | an absent id changes nothing; otherwise no line with the id remains, every other line is kept in order, and the total falls by the amount of the first line with the id |
| Cart.AddPreservesValid | src/pages/Ventas.js:19-27 | adding a product at its catalogue price keeps ids unique, prices fixed per id, and total equal to the sum of price × quantity |
| Cart.RemovePreservesValid | src/pages/Ventas.js:32-35 | removing keeps the same invariant and shortens a cart holding the id by exactly one line |
| Cart.ReplayKeepsValid | src/pages/Ventas.js:17-37 | for every sequence of adds and removes of catalogue products, the total equals Σ price × quantity and no two lines share an id |
| Cart.AddKeepsIds | src/pages/Ventas.js:19-26 | adding a product at any price never gives two lines the same id |
| Cart.RemoveKeepsIds | src/pages/Ventas.js:34 | removing never gives two lines the same id |
| Cart.ReplayKeepsIds | src/pages/Ventas.js:17-37 | for every sequence of adds and removes at any prices, no two lines share an id |
| Cart.PriceChangeBreaksTotal | src/pages/Ventas.js:27 | without the fixed-price assumption, the running total (2200) drifts from the lines (2000) while the ids stay unique |
| Cart.RegistrarVenta | src/pages/Ventas.js:40-45 | an empty cart only alerts and sends nothing; otherwise the body is the running total and each line's id and quantity, in cart order |
| Cart.SaleSettled | src/pages/Ventas.js:47-53 | success alerts "Venta registrada correctamente ✅" and empties the cart with a zero total; failure shows no alert and leaves the cart as it was |
| Cart.SubmittedSaleConsistent | src/pages/Ventas.js:42-45 | for a valid cart, the submitted total equals the submitted items valued at catalogue prices, and the submitted ids are distinct |
| Timestamps.WithUtcSuffix | src/pages/Turno/CerrarTurno.jsx:11 | the result ends in 'Z', extends the input by at most one character, and equals the input exactly when the input already ends in 'Z' |
| Timestamps.UtcSuffixIdempotent | src/pages/Turno/CerrarTurno.jsx:11 | normalising twice equals normalising once |
| Timestamps.UtcSuffixShortest | src/pages/admin/CerrarDia.jsx:73 | the normalised text is the shortest extension of the input that ends in 'Z' |
| Timestamps.FormatTimeDisplay | src/pages/Turno/CerrarTurno.jsx:7-14 | a falsy time shows "N/A"; otherwise the local date-time of the text with one 'Z' appended, and only when it does not already end in 'Z' |
| Timestamps.FormatClock | src/pages/admin/CerrarDia.jsx:70-75 | a falsy time shows "?"; otherwise the local time of day of the text with one 'Z' appended, and only when it does not already end in 'Z' |
| Timestamps.FormatUnnormalised | src/pages/admin/TurnosActivos.jsx:64-66 | a falsy time shows the placeholder; otherwise the text is parsed as sent |
| Timestamps.ViewsAgreeIffSuffixed | src/pages/admin/TurnosActivos.jsx:65 | the close-shift and active-shift views hand `Date` the same text for a present time exactly when it already ends in 'Z' |
| Shifts.OpenShifts | src/pages/Turno/CerrarTurno.jsx:51 | exactly the shifts whose close time is null, each as often as in the input, in input order |
| Shifts.ActiveShifts | src/pages/admin/TurnosActivos.jsx:26 | exactly the shifts whose close time is falsy, each as often as in the input, in input order |
| Shifts.ClosedShifts | src/pages/admin/CerrarDia.jsx:114 | exactly the shifts whose close time is truthy, each as often as in the input, in input order |
| Shifts.ActiveClosedPartition | src/pages/admin/TurnosActivos.jsx:26 | the active and closed lists together are a rearrangement of the whole list |
| Shifts.OpenAreActive | src/pages/Turno/CerrarTurno.jsx:51 | every shift of the strict open list is also in the active list |
| Shifts.OpenAndActiveAgreeIff | src/pages/Turno/CerrarTurno.jsx:51 | the null test and the falsy test give the same list exactly when no close time is undefined or empty |
| ConfirmModal.Choose | src/pages/Turno/CerrarTurno.jsx:58-60 | choosing a row only records `{id_turno, usuario}` as pending; list and toast are untouched |
| ConfirmModal.Cancel | src/pages/admin/TurnosActivos.jsx:139 | cancelling only clears the pending shift |
| ConfirmModal.TakePending | src/pages/Turno/CerrarTurno.jsx:64-67 | confirm with nothing pending changes nothing; otherwise it clears the modal and yields the pending shift |
| ConfirmModal.RemoveShift | src/pages/Turno/CerrarTurno.jsx:79 | the rows without that id, in their order, each kept record as many times as it was listed |
| ConfirmModal.RemoveShiftExact | src/pages/admin/TurnosActivos.jsx:55 | with distinct ids, removing a listed id drops exactly that row; removing an unlisted id changes nothing |
| ConfirmModal.NoConfirmNoRequest | src/pages/Turno/CerrarTurno.jsx:58-67 | a run of row and cancel clicks with no confirm issues no request |
| ConfirmModal.ConfirmedWereChosen | src/pages/Turno/CerrarTurno.jsx:58-67 | from an empty modal, every shift acted upon was chosen somewhere in the run, and requests never outnumber choices |
| ConfirmModal.ConfirmFollowsChoice | src/pages/Turno/CerrarTurno.jsx:58-67 | from an empty modal, every shift acted upon was chosen by the action immediately before the confirm that acted on it |
| CloseShift.Loaded | src/pages/Turno/CerrarTurno.jsx:47-55 | a successful fetch lists exactly the null-close-time shifts in server order, each as often as the server sent it; a failure changes nothing |
| CloseShift.ExecuteClose | src/pages/Turno/CerrarTurno.jsx:63-75 | without a pending shift, no request and no change; otherwise the modal is cleared and the body is `{id_turno, usuario_cierre: usuario}` |
| CloseShift.CloseSettled | src/pages/Turno/CerrarTurno.jsx:76-85 | success removes exactly the rows with that id, keeping every copy of the others in order, and toasts the user's name; failure keeps the list and toasts detail or the fallback |
| CloseShift.CloseErrorText | src/pages/Turno/CerrarTurno.jsx:83-84 | the failure text is a non-empty backend detail, else "Error al cerrar el turno." |
| CloseShift.ChooseConfirmClose | src/pages/Turno/CerrarTurno.jsx:58-80 | choosing row i and confirming requests that shift; with distinct ids, success leaves every other row in order, and failure leaves the list unchanged |
| DeleteShift.Loaded | src/pages/admin/TurnosActivos.jsx:23-33 | a successful fetch lists exactly the falsy-close-time shifts in server order, each as often as the server sent it; a failure toasts the load error and keeps the list |
| DeleteShift.ExecuteDelete | src/pages/admin/TurnosActivos.jsx:45-51 | without a pending shift, nothing; otherwise the modal is cleared first and the pending shift is deleted |
| DeleteShift.DeleteSettled | src/pages/admin/TurnosActivos.jsx:52-60 | success removes exactly the rows with that id, keeping every copy of the others in order; failure keeps the list; the toast uses detail, else 'Error de conexión' |
| DeleteShift.CancelThenConfirmIsInert | src/pages/admin/TurnosActivos.jsx:139 | after cancel, confirm issues no request |
| DeleteShift.DeleteRemovesExactlyOne | src/pages/admin/TurnosActivos.jsx:55 | with distinct ids, a successful delete removes exactly that shift and nothing else; a failed one removes nothing |
| ShiftHistory.GetEstado | src/pages/Turno/VerTurnos.jsx:30-32 | the closed label exactly for a truthy close time, the open label otherwise |
| ShiftHistory.EstadoMatchesFilters | src/pages/Turno/VerTurnos.jsx:31 | a shift is labelled closed iff the report lists it as closed, and open iff the admin view lists it as active |
| ShiftHistory.Fetched | src/pages/Turno/VerTurnos.jsx:11-16 | a fetch stores the server list unfiltered, replacing the local list |
| ShiftHistory.ClearScreen | src/pages/Turno/VerTurnos.jsx:23-27 | clearing leaves an empty local list |
| ShiftHistory.ClearIsLocalOnly | src/pages/Turno/VerTurnos.jsx:43 | a reload after clearing equals a reload without it; after clearing, the button is disabled and the placeholder shows; the button is enabled iff no placeholder |
| ShiftHistory.TimeCells | src/pages/Turno/VerTurnos.jsx:79-83 | each time cell shows the raw text's local rendering, or "-" when falsy |
| OpenShift.InitialFloat | src/pages/Turno/AbrirTurno.jsx:21 | the parsed float, or 0 when parsing fails |
| OpenShift.AbrirTurno | src/pages/Turno/AbrirTurno.jsx:12-23 | an empty name warns and sends nothing; otherwise the body has the typed name, the parsed float or 0, and the given instant |
| OpenShift.OpenSettled | src/pages/Turno/AbrirTurno.jsx:29-34 | success names the returned `usuario_responsable`; failure shows a non-empty detail, else the generic text |
| OpenShift.MessageColour | src/pages/Turno/AbrirTurno.jsx:63 | a settled message is drawn red iff the request failed; the name warning is not red |
| OpenShift.AnaScenario | src/pages/Turno/AbrirTurno.jsx:19-23 | "Ana" with an unparseable float sends float 0 |
| Payments.SumTotalsBounds | src/pages/admin/CerrarDia.jsx:116-117 | all-missing totals sum to 0; with non-negative totals the sum is at least each total |
| Payments.TotalGeneral | src/pages/admin/CerrarDia.jsx:116-117 | the `forEach` accumulation equals the sum of totals, missing ones counted as 0 |
| Payments.ReduceIsSum | src/pages/admin/VentasTotales.jsx:22 | the left fold from `acc` is `acc` plus the same sum, so both views show one grand total |
| SalesSummary.Loaded | src/pages/admin/VentasTotales.jsx:17-25 | success stores the payments as sent and a total equal to their sum; failure changes nothing |
| SalesSummary.Toggle | src/pages/admin/VentasTotales.jsx:29-31 | the toggle flips the detail flag and nothing else |
| SalesSummary.ToggleTwice | src/pages/admin/VentasTotales.jsx:30 | toggling twice is the identity |
| SalesSummary.VisibilityConsistent | src/pages/admin/VentasTotales.jsx:45-51 | exactly one of the empty text and the toggle button shows; the table needs the button; toggling a loaded list flips the table |
| SalesSummary.MetodoLabel | src/pages/admin/VentasTotales.jsx:65 | the method, or 'N/A' when it is missing or empty |
| SalesSummary.RowTotal | src/pages/admin/VentasTotales.jsx:75 | the row total, 0 when missing |
| DayClose.PagoLines | src/pages/admin/CerrarDia.jsx:150-160 | a payment with products gives one line per product with price × quantity, in order; otherwise one fallback line with its total or 0 |
| DayClose.SalesLines | src/pages/admin/CerrarDia.jsx:148-161 | every payment contributes at least one line |
| DayClose.SalesLinesSingle | src/pages/admin/CerrarDia.jsx:149-160 | one payment's section is exactly that payment's lines |
| DayClose.SalesLinesConcat | src/pages/admin/CerrarDia.jsx:148-161 | the lines of two runs of payments are the first run's lines followed by the second's, so each payment's lines appear whole and in payment order |
| DayClose.ShiftLine | src/pages/admin/CerrarDia.jsx:187-196 | the employee's name when it is truthy, 'Desconocido' when it is null, missing or empty, never an empty name; both times formatted by the report's clock format |
| DayClose.ShiftSection | src/pages/admin/CerrarDia.jsx:186-201 | one line per closed shift in order, or the single "no closed shifts" line |
| DayClose.WriteSales | src/pages/admin/CerrarDia.jsx:146-161 | the loop writes every payment's lines in order, and the flag ends raised iff there was a payment |
| DayClose.WriteShifts | src/pages/admin/CerrarDia.jsx:187-197 | the loop writes one line per closed shift, in order |
| DayClose.WriteReport | src/pages/admin/CerrarDia.jsx:114-201 | the imperative layout produces exactly the report: header, sales section, grand total, closed-shift section |
| DayClose.NoSalesIff | src/pages/admin/CerrarDia.jsx:163-168 | the "no sales" line appears iff there are no payments |
| DayClose.NoClosedShiftsIff | src/pages/admin/CerrarDia.jsx:186-201 | the "no closed shifts" line appears iff no close time is truthy; otherwise there is one line per closed shift |
| DayClose.EmptyDayScenario | src/pages/admin/CerrarDia.jsx:163-173 | with no payments the report shows "no sales" and a zero total, and the cleanup is still requested |
| DayClose.ErrorText | src/pages/admin/CerrarDia.jsx:226-235 | precedence: response detail, then response data as JSON, then `err.message`, then the error as JSON |
| DayClose.Click | src/pages/admin/CerrarDia.jsx:93-96 | when enabled, the button clears the toast and shows the modal; it is ignored while loading |
| DayClose.CancelConfirm | src/pages/admin/CerrarDia.jsx:270 | cancel only hides the modal |
| DayClose.Accept | src/pages/admin/CerrarDia.jsx:99-103 | accept hides the modal and sets loading |
| DayClose.Finish | src/pages/admin/CerrarDia.jsx:204-241 | a fetch failure gives the generation error and no effects; otherwise save, then cleanup, with a success or cleanup-warning toast; loading always ends |
| DayClose.CleanupOnlyAfterSave | src/pages/admin/CerrarDia.jsx:204-210 | the close-all request always follows a saved report, and is sent iff the fetches succeeded |
| DayClose.CleanupWarningDistinct | src/pages/admin/CerrarDia.jsx:217-237 | the cleanup-failure message never equals a generation-error message |
| DayClose.StepFollowsMachine | src/pages/admin/CerrarDia.jsx:93-103 | every event keeps "no modal while loading" and moves only along Idle → ConfirmPending → Generating → Idle, or from ConfirmPending back to Idle |
| DayClose.GeneratingNeedsConfirm | src/pages/admin/CerrarDia.jsx:99-103 | loading starts only from accept in the confirmation modal |

## Left out

- HTTP calls and the backend: each request is an outcome given as a parameter. Two concurrent fetches are modelled as one combined outcome. Retries, timeouts and races between responses are not modelled.
- React scheduling: every handler runs on the latest committed state. The stale-closure case is not modelled. In it, two clicks before a re-render both read the same `total`.
- Locale options: the close-shift view formats with `es-CL` and a 24-hour clock, while the active-shift and history views use the browser default. `Shown` records only the text handed to `Date`, so this difference is not modelled.
- Clocks and locales: `toISOString`, `toLocaleString`, `toLocaleTimeString`, `toLocaleDateString` and the report file name. A shown time is the text handed to `Date`. The generation date and time are placeholder lines.
- Floating point: prices, totals and the cash float are integers. `parseFloat` is an `Option<int>` input. `toFixed(2)` formatting is not modelled. The report lines carry the amounts, not their text.
- jsPDF layout: fonts, sizes, `y` coordinates and `doc.save`. Only which lines exist and their order is modelled. A throw inside jsPDF is not modelled.
- Exceptions from the formatters' `try` blocks ("Error de formato", the second "?"): `Date` rendering is not modelled, so no throw can arise.
- A non-string `detail` (a list of validation errors) is not modelled. The detail is an optional string.
- The cleanup success path that itself throws (`resCierre.data` undefined) is not modelled. It would show the cleanup warning.
- Toast auto-dismiss timers (`setTimeout`) are not modelled. Dismissing the end-of-day toast by click is modelled.
- Emoji prefixes are kept in the modelled messages, but style objects and JSX markup are not modelled.
- The product list fetch of the sales view is not modelled. It only stores `res.data`.
- The catalogue, home, navigation, routing and demo-toggle pages are not modelled. They hold no state logic.
- ConfirmModal.ConfirmedWereChosen: the pending record holds the id and the user only. It does not check that the chosen shift is still listed when the request is sent, because the source does not either.
- Cart.SaleSettled: the `console.error` of a failed sale is not modelled; the failure shows nothing to the user.
