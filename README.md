# Diária form: a Dafny model

This project models the logic of a single-page form for travel-allowance ("diária") requests. A public servant fills in one record: their identification, the trip, the financial terms and a free-text activity report. The form keeps that working record plus a most-recent-first history of up to ten generated records. From the record it renders an official PDF document.

The model has three modules, one per source file:

- `Types` (`types.dfy`, from `types.ts`) holds the record as nested datatypes, the two-valued `ZoneType` with its display strings, and the reset value `InitialData`.
- `Form` (`form.dfy`, from `App.tsx`) has a pure updater for each handler: field-wise edits, the financial update that recomputes the total, the report improvement, and the guarded, capped history push. It also has the class `DiariaForm`, whose two fields `data` and `history` are the component's two state cells. Each handler is a method that assigns the updater's result. Lemmas cover the updaters, including the exact shape of the history after any sequence of generated documents: the records that pass the name-and-date guard, newest first, followed by the old history and cut to ten.
- `Pdf` (`pdf.dfy`, from `services/pdfService.ts`) contains:
  - the output filename and its two sanitisers (whitespace runs become `_`, slashes become `-`);
  - the rows of the servant table and the trip table;
  - `GenerateDiariaPdf`, a method that advances the vertical cursor `y` section by section, as the renderer does, and returns every derived position, the tables and the filename.

Numbers are modelled as exact `real`s. The PDF library's table heights and wrapped line counts are inputs. The text returned by the report-improvement service is an input. So is the user's answer to the "clear all fields?" confirmation.

A few facts of the renderer and the reset record:

- The filename prefix is `Diaria_`.
- The banking cell reads `Banco: <bank> / Ag: <branch> / CC: <account>`.
- The default vehicle is `Oficial`.
- The renderer never adds a page itself.

## Model

| member | source | states |
|---|---|---|
| `Types.ZoneFromDisplay` | App.tsx:134-137 | reading a display string back gives the zone whose display string it is; any other string gives no zone |
| `Types.ZoneDisplayRoundTrip` | types.ts:2-5 | there are exactly two zones, their display strings differ, and each zone is recovered from its display string |
| `Types.InitialServidorEmpty` | types.ts:39-48 | all eight servant fields of the reset record are empty |
| `Types.InitialViagemDefaults` | types.ts:49-60 | the reset trip is urban, leaves at 08:00, returns at 18:00 in the `Oficial` vehicle, and every other trip field is empty |
| `Types.InitialFinanceiroConsistent` | types.ts:61-66 | the reset finance is 0 × 1 = 0, so the total invariant already holds, and the reset report is empty |
| `Form.ServidorExtensional` | types.ts:8-17 | a servant is determined by the values of its eight fields |
| `Form.WithServidorField` | App.tsx:28-30 | the edited servant field takes the new value and every other servant field keeps its value |
| `Form.ApplyViagemEdit` | App.tsx:32-34 | a text edit sets exactly its field and keeps the zone; a zone edit sets the zone and keeps every text field |
| `Form.WithFinanceiroField` | App.tsx:36-42 | after any financial edit, even to the total itself, total = unit value × quantity; the unit value and quantity are the edited value or unchanged |
| `Form.FinanceiroOrderIrrelevant` | App.tsx:36-42 | setting the unit value and the quantity in either order gives the same record, whose total is their product |
| `Form.FinanceiroTotalDerived` | App.tsx:38-39 | writing the total of a consistent record has no effect, so the total is not independently settable |
| `Form.WithImprovedReport` | App.tsx:44-53 | without both notes and objective the record is unchanged; otherwise only the report changes, to the improved text |
| `Form.InitialDataNotRecorded` | App.tsx:58 | the reset record, whose name is empty, fails the history guard |
| `Form.PushHistory` | App.tsx:59 | the new history has length min(old length + 1, 10), holds the record at index 0, and shifts the old entries down by one |
| `Form.Recorded` | App.tsx:58-60 | a record without name or departure date leaves the history unchanged; one with both is pushed; a history of at most 10 stays at most 10 |
| `Form.RecordAllBounded` | App.tsx:55-61 | after any sequence of generated documents a history of at most 10 entries still has at most 10 |
| `Form.RecordAllSkips` | App.tsx:58 | generating documents for records that all fail the guard leaves the history unchanged |
| `Form.Guarded` | App.tsx:58 | keeps exactly the records that pass the history guard: every kept record passes and comes from the input, and every passing input record is kept |
| `Form.GuardedAll` | App.tsx:58 | when every record passes the guard, none is filtered out |
| `Form.RecordAllWindow` | App.tsx:55-61 | after any sequence of generations the history is the records that passed the guard, newest first, followed by the old history, cut to 10; its length is min(number passing + old length, 10) and entry 0 is the latest passing record |
| `Form.AllRecorded` | App.tsx:55-61 | when every record passes the guard, the history is all of them newest first followed by the old history, cut to 10 |
| `Form.WindowPrepend` | App.tsx:59 | cutting to 10 before or after prepending gives the same history |
| `Form.DiariaForm.constructor` | App.tsx:10-18 | the working record and history start from what was stored, or from the reset record and an empty history |
| `Form.DiariaForm.UpdateServidor` | App.tsx:28-30 | only the named servant field changes; the trip, finance, report and history are untouched and the invariant is kept |
| `Form.DiariaForm.UpdateViagem` | App.tsx:32-34 | only the edited trip field changes; the servant, finance, report and history are untouched |
| `Form.DiariaForm.UpdateFinanceiro` | App.tsx:36-42 | the new total equals unit value × quantity; the servant, trip, report and history are untouched |
| `Form.DiariaForm.UpdateRelatorio` | App.tsx:183 | the report becomes the typed text and nothing else changes |
| `Form.DiariaForm.HandleImproveReport` | App.tsx:44-53 | the user is alerted exactly when notes or objective are empty, and then the data is unchanged; otherwise only the report changes, to the improved text |
| `Form.DiariaForm.HandleDownloadPdf` | App.tsx:55-61 | the data is never changed; the document holds the current record's servant and trip tables, the layout for the given metrics, the signature block, and the filename built from the record's name and departure date; the history grows by a front push, capped at 10, only when name and departure date are both set |
| `Form.DiariaForm.HandleClear` | App.tsx:63-67 | with confirmation the data becomes the reset record, without it the data is unchanged; the history is untouched either way |
| `Form.DiariaForm.LoadFromHistory` | App.tsx:69-71 | the data becomes exactly the chosen entry; the history is untouched |
| `Pdf.DropWhitespaceSuffix` | services/pdfService.ts:113 | removes exactly the leading whitespace run: what it drops is all whitespace and what it keeps is a suffix that does not start with whitespace |
| `Pdf.SanitizeName` | services/pdfService.ts:113 | the sanitised name contains no whitespace |
| `Pdf.SanitizeNameChars` | services/pdfService.ts:113 | apart from `_`, every character of the sanitised name occurs in the name |
| `Pdf.SanitizeNameRun` | services/pdfService.ts:113 | a maximal whitespace run between two parts is replaced by exactly one `_` |
| `Pdf.SanitizeNameKeeps` | services/pdfService.ts:113 | a name without whitespace is returned unchanged |
| `Pdf.SanitizeDate` | services/pdfService.ts:113 | the sanitised date has the input's length, a `-` wherever the input had `/`, and the input's character everywhere else |
| `Pdf.SanitizeIdempotent` | services/pdfService.ts:113 | sanitising a name or a date twice gives the same result as sanitising it once, and a sanitised date contains no `/` |
| `Pdf.FileName` | services/pdfService.ts:113 | the filename starts with `Diaria_` and ends with `.pdf`, and contains a `/` only if the name does |
| `Pdf.FileNameTwoWords` | services/pdfService.ts:113 | a two-word name gives `Diaria_<first>_<last>_<date>.pdf` whatever whitespace separates the words |
| `Pdf.FileNameExample` | services/pdfService.ts:113 | `João Silva` leaving on `01/05/2024` gives `Diaria_João_Silva_01-05-2024.pdf` |
| `Pdf.Unlabel` | services/pdfService.ts:30-34 | a cell yields a value exactly when it starts with the label, and the cell is the label followed by that value |
| `Pdf.ServidorRows` | services/pdfService.ts:30-34 | the servant table is 3 rows of 2 cells, and the last cell is the banking triple |
| `Pdf.ServidorRowsReadBack` | services/pdfService.ts:30-34 | stripping each cell's label gives back the servant field it shows |
| `Pdf.PlacaCell` | services/pdfService.ts:57 | the plate cell is never empty; it is the plate itself whenever the plate is set; it reads `N/A` exactly when the plate is empty or is itself `N/A` |
| `Pdf.ViagemRows` | services/pdfService.ts:54-58 | the trip table is 3 rows of 4 cells; columns 0 and 2 are the fixed labels; the value cells are the origin, destination with zone, departure and return `date às time`, vehicle and plate cell |
| `Pdf.ViagemLabelsFixed` | services/pdfService.ts:54-58 | the label columns are the same for every trip |
| `Pdf.DestinoCellZone` | services/pdfService.ts:55 | the destination cell starts with the destination and its parenthesised part reads back as the trip's zone |
| `Pdf.Layout` | services/pdfService.ts:8-108 | the positions strictly increase down the page; title at 20, subtitle 10 below, first heading 15 below that; each rule 5 below its heading and each table or finance line 7 below its rule; each section heading 10 below the previous table; the report heading is 5·lines + 15 below the objective heading and the finance heading 5·lines + 20 below the report heading; the signature line is 40 below the finance line and the captions 5 below it |
| `Pdf.SignatureRules` | services/pdfService.ts:106-111 | two 70-unit rules, the left starting at the margin and the right ending at the right margin, with each caption centred under its rule |
| `Pdf.GenerateDiariaPdf` | services/pdfService.ts:6-113 | stepping the cursor section by section lands every element exactly where `Layout` puts it; the document holds the servant and trip tables, the signature block and the filename defined above |

## Left out

- Browser persistence is not modelled. This covers the reads from local storage, the writes after every change, and the JSON round trip (App.tsx:10-26). The constructor takes the already decoded stored values.
- The report-improvement service is not part of this model: it is a network call. Its answer, including its fallback to the original notes on failure, is the `improved` parameter of `HandleImproveReport`.
- The busy flag that disables the improve button while a call is outstanding is not modelled. Neither are the alert and confirm dialogs. The confirmation is a parameter, and the alert is the method's boolean result.
- Form.DiariaForm.HandleImproveReport: applies the improved text to the record as it was when the action started. The component applies it to the state current when the answer arrives. The two differ only if the user edits the form during the call, which is not modelled because the model is not asynchronous.
- Form.WithFinanceiroField: the product is exact real multiplication. The source multiplies IEEE-754 doubles, so rounding is not modelled. The coercion of typed text to a number (`parseFloat(...) || 0`) and the `toFixed(2)` and `toLocaleString` formatting are left out as floating-point parsing and display.
- Form.ApplyViagemEdit: the zone is only set to one of the two zone values, as the zone selector does. The handler's declared type would also let a free string be stored in the zone field; that is not modelled.
- Form.DiariaForm.LoadFromHistory: any record may be loaded. The component only offers history entries, so the invariant is promised only for an entry of the history.
- `components/Input.tsx` is not part of this model. It holds presentational wrappers with no logic.
- Pdf.GenerateDiariaPdf: the drawing calls are not modelled (text, line, fonts and sizes, saving the file). Neither are the horizontal positions other than the signature block. The PDF library's wrapped line counts are inputs. Each table's final position is modelled as its start plus a height given as input. The wrapped lines themselves are not modelled, and neither are the financial line's formatted texts. A table carried over to a new page, whose final position then lies above its start, is not modelled: table heights are natural numbers, and the strict top-to-bottom order of `Layout` relies on that.
- Pdf.SanitizeName: characters are Unicode scalar values. JavaScript strings are UTF-16 code units, which differ only for characters outside the Basic Multilingual Plane. No whitespace character lies outside it, so the filename differs from the source only in how such characters are counted.
- Page overflow: the renderer never calls for a new page itself, but the table library moves the rest of a table that does not fit onto a new page, and text past the bottom edge is simply drawn off the page. The model has a single page.
