# Invoice ledger and vehicle status, modelled in Dafny

This project models the two pieces of business logic in a small
business-administration front end: the tax-invoice screen and the vehicle
list screen.

- **Invoice** (`invoice.dfy`): the screen state is the class
  `InvoicePage`. Its two fields are the form record `formData` and the
  ordered product list `products`. `HandleChange` overwrites one named
  field of the form. `AddProduct` appends the product built from the
  entry fields, then blanks those fields. The subtotal is the left fold
  `reduce((s, p) => s + p.quantity * p.rate, 0)`. SGST and CGST are each
  9% of it. IGST and round-off are 0. The total is their sum, which is
  118% of the subtotal. The module also models the rendered rows
  (serial number and line value), the download file name
  `billedTo + "-invoice.pdf"`, and the amount-in-words stub.
- **Vehicles** (`vehicles.dfy`): `GetStatus` is "Active" exactly when
  the insurance, pollution and RC dates are all at or after "now".
  Otherwise it is "Inactive". `FilteredData` keeps the vehicles whose
  lower-cased number contains the lower-cased search term.
- **Text** (`text.dfy`): the case mappings and the substring test used
  by both screens.

Amounts are exact `real`s. A parsed date is either `At(t)` on an integer
time line or `Invalid`. The JavaScript `>=` on dates compares time
values, and an invalid date has time value NaN, so an invalid date never
compares as `>=`. The clock read `new Date()` is the parameter `now`.

## Model

| member | source | states |
|---|---|---|
| `Invoice.Set` | src/Screens/Invoice.tsx:49-51 | the spread update sets the named field to the new value and every other field keeps its old value |
| `Invoice.ClearProductEntry` | src/Screens/Invoice.tsx:65-71 | after adding a product, productName and hsn are "" and quantity and rate are 0; unit and every header field are unchanged |
| `Invoice.ProductFrom` | src/Screens/Invoice.tsx:56-62 | the appended product's name, hsn, quantity, unit and rate are read from the form fields productName, hsn, quantity, unit and rate |
| `Invoice.InvoicePage.constructor` | src/Screens/Invoice.tsx:26-44 | the form starts with transport mode "ROAD", unit "NOS", empty text fields and zero amounts; the product list starts empty |
| `Invoice.InvoicePage.HandleChange` | src/Screens/Invoice.tsx:49-51 | only the named field changes and the products are untouched; a change through a rendered input keeps the unit at "NOS" everywhere |
| `Invoice.InvoicePage.AddProduct` | src/Screens/Invoice.tsx:53-72 | exactly one product is added, at the end, with its fields copied from the entry fields; earlier products are unchanged and in order; the entry fields are cleared and the rest of the form is kept; the subtotal rises by quantity × rate |
| `Invoice.InvoicePage.Totals` | src/Screens/Invoice.tsx:74-79 | the totals are recomputed from the current product list; the total is 118% of the sum of the line values |
| `Invoice.Fold` | src/Screens/Invoice.tsx:74 | the reduce, started from any accumulator, adds the sum of quantity × rate over the products to it |
| `Invoice.Subtotal` | src/Screens/Invoice.tsx:74 | the subtotal is the sum of quantity × rate over the products, and the empty list gives 0 |
| `Invoice.SubtotalAppend` | src/Screens/Invoice.tsx:74 | appending product p increases the subtotal by exactly p.quantity × p.rate |
| `Invoice.FoldAppend` | src/Screens/Invoice.tsx:74 | the left fold over a list with one more element at the end is the old fold plus that element's value |
| `Invoice.ComputeTotals` | src/Screens/Invoice.tsx:74-79 | the subtotal is the sum of the line values; sgst = cgst = 9% of it; igst and round-off are 0; the total is 118% of the subtotal |
| `Invoice.SumNonNegative` | src/Screens/Invoice.tsx:74 | with no negative quantity or rate, the sum of the line values is non-negative |
| `Invoice.TotalsBounded` | src/Screens/Invoice.tsx:74-79 | with no negative quantity or rate, 0 <= subtotal <= total |
| `Invoice.TotalsExamples` | src/Screens/Invoice.tsx:74-79 | one line of 10 at 100 gives 1000 / 90 / 90 / 0 / 0 / 1180; no lines gives all zeros |
| `Invoice.Rows` | src/Screens/Invoice.tsx:209-221 | there is one row per product, in order; row i shows serial i + 1, the product's name, hsn, quantity, unit and rate, and value quantity × rate; the value column adds up to the subtotal |
| `Invoice.RowSumMatches` | src/Screens/Invoice.tsx:209-221 | rows whose value column holds each product's quantity × rate add up to the sum of the line values |
| `Invoice.PdfFileName` | src/Screens/Invoice.tsx:94 | the file name is the billed-to text followed by "-invoice.pdf" |
| `Invoice.FileNameRoundTrip` | src/Screens/Invoice.tsx:94 | the billed-to text can be read back from the file name, so different parties get different file names |
| `Invoice.InvoicePage.DownloadName` | src/Screens/Invoice.tsx:94 | the download name encodes the current billed-to field |
| `Invoice.NumberToWords` | src/Screens/Invoice.tsx:17-19 | the words line is the upper-cased two-decimal rendering followed by " ONLY" |
| `Vehicles.NotBefore` | src/Screens/Vechile.tsx:18 | an invalid date is never >= now (its time value is NaN); a valid date is >= now exactly when its time value is at least now |
| `Vehicles.GetStatus` | src/Screens/Vechile.tsx:12-27 | the status is "Active" iff the insurance, pollution and RC dates are all >= now, otherwise "Inactive", and it is always a key of statusStyles |
| `Vehicles.InactiveWhenAnyExpired` | src/Screens/Vechile.tsx:18-21 | one of the three dates before now makes the vehicle "Inactive" |
| `Vehicles.InactiveWhenAnyInvalid` | src/Screens/Vechile.tsx:14-18 | an unparsable insurance, pollution or RC date makes the vehicle "Inactive" |
| `Vehicles.StatusIgnoresOtherFields` | src/Screens/Vechile.tsx:12-22 | the fitness date, slNo and vehicleNumber have no influence on the status |
| `Vehicles.StatusMonotone` | src/Screens/Vechile.tsx:18 | a vehicle "Active" at a later instant is "Active" at every earlier instant |
| `Vehicles.LapsedInsuranceExample` | src/Screens/Vechile.tsx:12-22 | a lapsed insurance gives "Inactive"; with the three deciding dates not before now and an invalid fitness date, the status is "Active" |
| `Vehicles.Matches` | src/Screens/Vechile.tsx:42-44 | a vehicle matches iff the lower-cased term occurs at some position of the lower-cased vehicle number; the empty term matches every vehicle; a term longer than the vehicle number matches none |
| `Vehicles.FilteredData` | src/Screens/Vechile.tsx:42-44 | a vehicle is kept iff its lower-cased number contains the lower-cased term; a kept vehicle keeps its multiplicity; the result is no longer than the input |
| `Vehicles.FilterIsSubsequence` | src/Screens/Vechile.tsx:42-44 | the filtered list is an order-preserving subsequence of the vehicles |
| `Vehicles.SubsequenceOfTail` | src/Screens/Vechile.tsx:42-44 | a subsequence of a list's tail is a subsequence of the list |
| `Vehicles.SubsequenceDropFirst` | src/Screens/Vechile.tsx:42-44 | dropping the first element of a subsequence leaves a subsequence |
| `Vehicles.EmptySearchKeepsAll` | src/Screens/Vechile.tsx:42-44 | an empty search term keeps every vehicle, in order |
| `Vehicles.FilterIgnoresCase` | src/Screens/Vechile.tsx:42-44 | search terms that lower-case alike give the same result |
| `Vehicles.FilterSameForLoweredTerm` | src/Screens/Vechile.tsx:42-44 | lower-casing the search term first does not change the result |
| `Text.Lower` | src/Screens/Vechile.tsx:43 | the ASCII lower-casing that models toLowerCase keeps the length, maps each character on its own, and leaves no upper-case letter |
| `Text.Upper` | src/Screens/Invoice.tsx:18 | the ASCII upper-casing that models toUpperCase keeps the length, maps each character on its own, and leaves no lower-case letter; it is exact on the ASCII text that toFixed(2) produces |
| `Text.Contains` | src/Screens/Vechile.tsx:43 | includes holds iff the term occurs at some position of the string |
| `Text.LowerIdempotent` | src/Screens/Vechile.tsx:43 | lower-casing twice is the same as lower-casing once |
| `Text.ContainsEmpty` | src/Screens/Vechile.tsx:43 | every string includes the empty string |

## Left out

- Invoice.InvoicePage.HandleChange: requires a value of the field's kind, a number for quantity and rate and text otherwise. In the browser a change event always carries a string, and `addProduct` converts quantity and rate with `Number(...)` (src/Screens/Invoice.tsx:59,61). That string-to-number coercion, including its NaN results, is not modelled.
- Invoice.ComputeTotals: amounts are exact reals. The screen uses IEEE doubles, so `subtotal * 0.09` and the sums can round in ways the model does not show.
- Invoice.NumberToWords: the `toFixed(2)` rendering of the total is taken as a parameter. Number formatting is not modelled, and neither is the `toFixed(2)` rendering of the rate, value and tax cells.
- Text.Lower: the case mappings cover the ASCII letters only. JavaScript's `toLowerCase`/`toUpperCase` also map non-ASCII letters, and those mappings can change the length: `"İ".toLowerCase()` has two characters and `"ß".toUpperCase()` is `"SS"`.
- Vehicles.GetStatus: the record holds already-parsed dates and `now` is a parameter. Parsing the date strings with `new Date(...)` and reading the clock are not modelled. `At(t) >= now` compares instants, not calendar days. `new Date("YYYY-MM-DD")` is midnight UTC, while `now` includes the time of day (src/Screens/Vechile.tsx:13). So a document already counts as expired during its own expiry date, from 05:30 Indian time onwards.
- `downloadPDF` (src/Screens/Invoice.tsx:83-95): rasterising the template with html2canvas, embedding the image with jsPDF, and the page-height arithmetic are calls into foreign libraries. Only the file name on line 94 is modelled.
- The `fetch` of vehicles (src/Screens/Vechile.tsx:35-40) is network I/O and is not modelled. The vehicle list is a parameter of `FilteredData`.
- The JSX layout, the `generate` flag, the detail modal (`selectedVehicle`) and the hard-coded "ROAD" cell are presentation only.
- React state batching is not modelled. This includes a second `addProduct` from a stale render closure: each method call here sees the state the previous call left.
- src/App.tsx, src/Components/Sidebar.tsx, src/Components/Topbar.tsx and src/Components/ Layout.tsx are navigation, a static menu and a timer-driven clock, with no logic worth verifying.
