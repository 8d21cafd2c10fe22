# Car-app record screens, auth gate and layout, modelled in Dafny

This project models the client-side state of the Car-app fleet dashboard:

- The **Invoices** and **Vehicles** screens. Each keeps an ordered list of records, a create draft, an edit draft, the record selected for edit and an open flag for the edit dialog. The Invoices screen also keeps a view dialog. Handlers change this state: field edits, create, open-edit, save-edit and delete. Each screen is a class (`Invoices.InvoicesPage`, `Vehicles.VehiclesPage`) whose fields are that state.
- The record list itself (`RecordList`). A record is an id plus the rest of its fields, `Row<F>`. The list changes only by appending, by `ReplaceId` (the `map` in the save handlers) and by `WithoutId` (the `filter` in the delete handlers). Lemmas prove what these do to the list: what is kept, what order it keeps, what stays unique.
- The **auth gate** (`Auth.AuthProvider`). It holds the `isAuthenticated` flag, the browser's local storage as a map, and the list of router redirects issued so far. It has the load effect, `login` and `logout`.
- The **layout chooser** (`Layout.Choose`). From the flag and the path it picks the app shell, the login page or the bare page.

Drafts and records share one type per entity: the draft type (the source's `Omit<T, 'id'>`). A numeric field (`amount`, `year`) is `Forms.Numeric`: `Blank` for the empty marker `''`, or `Num(x)`. A draft's numeric field only ever holds `''` or `Number(text)`. Validation rejects `''`, so the `Number(...)` that create and save apply to it is the identity, and the stored record holds the draft's own value. Each class's `Valid()` invariant says every stored record's numeric field is a number. Every handler preserves it.

Inputs the model takes as parameters:
- `number: real` in the input-change handlers is the value of `Number(value)`.
- `now: nat` in create is `Date.now()`. The new id is the prefix followed by the decimal digits of `now`.
- `confirmed: bool` in delete is the answer to `window.confirm`.
- An `alert` becomes the outcome `Alert(message)`, carrying the source's message text.
- `pathname` in the auth load effect is `window.location.pathname`.

## Model

| member | source | states |
|---|---|---|
| Forms.FromText | src/app/invoices/page.tsx:41 | A numeric field stays the empty marker exactly when the typed text is empty; otherwise it holds the parsed number |
| Forms.Decimal | src/app/invoices/page.tsx:50 | The timestamp is written as a non-empty string of decimal digits |
| Forms.DecimalRoundTrip | src/app/invoices/page.tsx:50 | Reading the decimal digits back gives the timestamp |
| Forms.NewId | src/app/vehicles/page.tsx:51 | A new id begins with the entity's prefix followed by at least one more character |
| Forms.NewIdInjective | src/app/vehicles/page.tsx:51 | Two creates get the same id exactly when they happen in the same millisecond |
| RecordList.WithoutId | src/app/invoices/page.tsx:90 | The filtered list is no longer than before, and every record left is from the list and does not have the deleted id |
| RecordList.ReplaceId | src/app/invoices/page.tsx:79-83 | Same length; each record with the id becomes that id with the new fields, and every other record is unchanged |
| RecordList.WithoutIdCount | src/app/vehicles/page.tsx:90 | Delete removes every copy of each record with the id and keeps every other record with its multiplicity |
| RecordList.WithoutIdAppend | src/app/vehicles/page.tsx:90 | Delete distributes over concatenation, so the records that stay keep their relative order |
| RecordList.WithoutIdAbsent | src/app/invoices/page.tsx:90 | Deleting an id no record has leaves the list unchanged |
| RecordList.WithoutIdIdempotent | src/app/invoices/page.tsx:90 | After a delete no record has the id, and deleting again changes nothing |
| RecordList.WithoutIdUnique | src/app/vehicles/page.tsx:90 | Delete keeps ids unique |
| RecordList.ReplaceIdKeepsIds | src/app/vehicles/page.tsx:79-83 | Save keeps the sequence of ids, so length and order, unchanged |
| RecordList.ReplaceIdNoop | src/app/invoices/page.tsx:79-83 | Saving fields that every record with the id already has leaves the list unchanged |
| RecordList.ReplaceIdIdempotent | src/app/vehicles/page.tsx:79-83 | Saving the same draft twice gives the same list as saving it once |
| RecordList.ReplaceIdExactlyOne | src/app/invoices/page.tsx:79-83 | With unique ids, after a save exactly one record has the edited id, it carries the draft, all other records are unchanged and ids stay unique |
| RecordList.AppendUnique | src/app/invoices/page.tsx:54 | Appending a record with an unused id keeps ids unique |
| Invoices.WithInput | src/app/invoices/page.tsx:39-42 | A text change updates only the named draft field; the amount stays the empty marker for empty text and becomes a number otherwise |
| Invoices.InvoicesPage.constructor | src/app/invoices/page.tsx:24-37 | The screen starts with the three seed invoices, blank Pending drafts, nothing selected and both dialogs closed |
| Invoices.InvoicesPage.AddInputChange | src/app/invoices/page.tsx:39-42 | The create draft becomes the draft with the one field changed, and nothing else changes |
| Invoices.InvoicesPage.AddStatusChange | src/app/invoices/page.tsx:133 | The create form's status select changes only the draft's status |
| Invoices.InvoicesPage.CreateInvoice | src/app/invoices/page.tsx:44-56 | If client, date or due date is empty or the amount is blank: the alert, with list and draft unchanged. Otherwise one invoice is appended with id INV plus the timestamp and the draft's fields, earlier invoices are kept, and the draft resets to blank Pending. Stored amounts stay numeric |
| Invoices.InvoicesPage.OpenView | src/app/invoices/page.tsx:58-61 | The clicked invoice becomes the one viewed and the view dialog opens |
| Invoices.InvoicesPage.OpenEdit | src/app/invoices/page.tsx:63-67 | The invoice is selected, every non-id field is copied into the edit draft, and the dialog opens |
| Invoices.InvoicesPage.SetEditOpen | src/app/invoices/page.tsx:216-217 | Closing the dialog from the dialog itself changes only the open flag and keeps the selection |
| Invoices.InvoicesPage.EditInputChange | src/app/invoices/page.tsx:69-72 | The edit draft becomes the draft with the one field changed |
| Invoices.InvoicesPage.EditStatusChange | src/app/invoices/page.tsx:246 | The edit dialog's status select changes only the draft's status |
| Invoices.InvoicesPage.SaveEdit | src/app/invoices/page.tsx:74-86 | With no selection or an incomplete draft: the alert, and nothing changes. Otherwise every invoice with the selected id gets the draft's fields and keeps the id; the dialog closes and the selection clears. Stored amounts stay numeric |
| Invoices.InvoicesPage.Delete | src/app/invoices/page.tsx:88-93 | Confirmed: the list loses exactly the invoices with the row's id. Declined: the list is unchanged |
| Invoices.SeedWellFormed | src/app/invoices/page.tsx:24-28 | The seed invoices have distinct ids and numeric amounts |
| Invoices.BlankDraftIncomplete | src/app/invoices/page.tsx:37 | The blank draft the form starts from and resets to fails validation |
| Invoices.AmountInput | src/app/invoices/page.tsx:41 | The amount becomes blank exactly when its text is empty, and changes to other fields never touch it |
| Invoices.CompleteIsEmptinessOnly | src/app/invoices/page.tsx:45 | Validation checks only emptiness: whitespace-only fields and any description pass, and clearing any one required field fails |
| Invoices.OpenThenSaveKeepsList | src/app/invoices/page.tsx:63-66 | When ids are unique, saving a stored invoice's own copied fields leaves the list unchanged |
| Invoices.SaveKeepsAmountsNumeric | src/app/invoices/page.tsx:81 | Saving a complete draft keeps every stored amount numeric |
| Vehicles.WithInput | src/app/vehicles/page.tsx:36-39 | A text change updates only the named draft field; the year stays the empty marker for empty text and becomes a number otherwise |
| Vehicles.VehiclesPage.constructor | src/app/vehicles/page.tsx:23-34 | The screen starts with the three seed vehicles, blank Active drafts, nothing selected and the dialog closed |
| Vehicles.VehiclesPage.AddInputChange | src/app/vehicles/page.tsx:36-39 | The add draft becomes the draft with the one field changed |
| Vehicles.VehiclesPage.AddSelectChange | src/app/vehicles/page.tsx:41-43 | The select handler changes only the add draft's status |
| Vehicles.VehiclesPage.AddVehicle | src/app/vehicles/page.tsx:45-57 | If make, model or vin is empty or the year is blank: the alert, and nothing changes. Otherwise one vehicle is appended with id V plus the timestamp and the draft's fields, and the draft resets to blank Active. Stored years stay numeric |
| Vehicles.VehiclesPage.OpenEdit | src/app/vehicles/page.tsx:59-63 | The vehicle is selected, make, model, year, vin and status are copied into the edit draft, and the dialog opens |
| Vehicles.VehiclesPage.SetEditOpen | src/app/vehicles/page.tsx:192 | Closing the dialog from the dialog itself changes only the open flag |
| Vehicles.VehiclesPage.EditInputChange | src/app/vehicles/page.tsx:65-68 | The edit draft becomes the draft with the one field changed |
| Vehicles.VehiclesPage.EditSelectChange | src/app/vehicles/page.tsx:70-72 | The select handler changes only the edit draft's status |
| Vehicles.VehiclesPage.SaveEdit | src/app/vehicles/page.tsx:74-86 | With no selection or an incomplete draft: the alert, and nothing changes. Otherwise the vehicles with the selected id get the draft's fields and keep the id; the dialog closes and the selection clears |
| Vehicles.VehiclesPage.Delete | src/app/vehicles/page.tsx:88-93 | Confirmed: exactly the vehicles with the row's id are removed. Declined: nothing changes |
| Vehicles.SeedWellFormed | src/app/vehicles/page.tsx:23-27 | The seed vehicles have distinct ids and numeric years |
| Vehicles.YearInput | src/app/vehicles/page.tsx:38 | The year becomes blank exactly when its text is empty, and changes to other fields never touch it |
| Vehicles.CompleteIsEmptinessOnly | src/app/vehicles/page.tsx:46 | Year 0 and any status pass validation, and clearing any one of make, model, year or vin fails |
| Vehicles.OpenThenSaveKeepsList | src/app/vehicles/page.tsx:59-63 | When ids are unique, saving a stored vehicle's own copied fields leaves the list unchanged |
| Auth.Remember | src/context/auth-context.tsx:34 | After login's write, the storage remembers a login and every other key is unchanged |
| Auth.Forget | src/context/auth-context.tsx:40 | After logout's removal, the key is absent and every other key is unchanged |
| Auth.LoadRedirect | src/context/auth-context.tsx:21-29 | The load effect redirects, always to /login, exactly when the storage does not hold 'true' and the path is not /login |
| Auth.AuthProvider.constructor | src/context/auth-context.tsx:16 | The provider starts unauthenticated, with no redirects |
| Auth.AuthProvider.Load | src/context/auth-context.tsx:19-30 | A stored 'true' sets the flag with no redirect; anything else leaves the flag and redirects to /login unless already there |
| Auth.AuthProvider.Login | src/context/auth-context.tsx:33-37 | Stores 'true' under the key, sets the flag and redirects to / |
| Auth.AuthProvider.Logout | src/context/auth-context.tsx:39-43 | Removes the key, clears the flag and redirects to /login |
| Auth.Reload | src/context/auth-context.tsx:16-30 | A freshly mounted provider that runs its load effect is authenticated exactly when the storage remembers a login |
| Auth.ReloadMatchesFlag | src/context/auth-context.tsx:21-43 | After login, a reload is authenticated without a redirect. After logout it is not, and it redirects to /login except on /login |
| Auth.LoginLogoutIdempotent | src/context/auth-context.tsx:33-43 | Logging in twice, or out twice, leaves the same storage as doing it once |
| Auth.OnlyTrueCounts | src/context/auth-context.tsx:22 | A stored value counts as a login exactly when it is the string 'true' |
| Layout.Choose | src/components/app-layout.tsx:14-27 | Shell exactly when authenticated off /login, login page exactly when unauthenticated off /login, and bare exactly on /login; so exactly one applies |
| Layout.ChildrenOnlyInShell | src/components/app-layout.tsx:18-24 | Off /login, children are rendered exactly when authenticated, and then only inside the shell |
| Layout.LoginPageIgnoresFlag | src/components/app-layout.tsx:16 | On /login the page renders bare whatever the flag |

## Left out

- Rendering: the JSX, tables, dialogs' contents, selects and icons. Dialog state is kept only as the open flags and the selected record.
- Parsing and formatting: `Number(...)` and `toFixed(2)` are floating-point behaviour, including NaN. The parsed number is a parameter, and a non-empty text that does not parse still counts as filled, as in the source.
- The clock: `Date.now()` is a parameter. Ids are not claimed unique. `Forms.NewIdInjective` shows two creates in the same millisecond get the same id.
- `window.confirm`, `alert` and `console.log`: the answer is a parameter, the alert is the `Alert` outcome, and the log line is dropped.
- Search and pagination: the Invoices and Vehicles screens modelled here have neither.
- React's batching of state updates: each handler is one atomic step, which is how its updates take effect for the next event.
- Input ids outside the forms: the input-change handlers write whatever key the element id names. The model takes the element ids the forms use (`client`, `amount`, `date`, `dueDate`, `description`; `make`, `model`, `year`, `vin`).
- Auth.AuthProvider.Load: the source only ever sets the flag to true on load and never clears it. The model states it as written. On the first load, the flag is already false.
- The `useAuth` guard that throws outside a provider, and router navigation beyond recording each `replace` target.
- The other screens and services are not part of this model: payments, inventory, the dashboard, the chat assistant, the payment modal and back end, login/signup form wiring, and static layout and sidebar. They hold no state logic of this kind, or only calls to external services.
