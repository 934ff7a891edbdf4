# Simple_Bill billing form — Dafny model

`src/App.jsx` is a one-component billing form. A shopkeeper enters a customer's name and WhatsApp
number, and picks line items from an eight-entry catalog (the price is auto-filled) or types a price.
The form keeps a running total. On submit it builds a text receipt greeted by the time of day, puts a
`91` country code in front of the number, logs the bill to a spreadsheet endpoint and, if that call
does not throw, opens a `https://wa.me/<number>?text=<receipt>` link.

This project models the form's logic:

- `wrappers.dfy` (`Wrappers`): the `Option` type.
- `decimal.dfy` (`Decimal`): how a template string prints a non-negative integer Number below 10^21
  (above that JavaScript switches to exponent notation, as in `1e+21`). This is used for the row
  number and for catalog prices, which stay far below that bound. It comes with the digits-to-value
  reading it inverts.
- `line_items.dfy` (`LineItems`): rows `{name, price}`, the catalog, the catalog lookup (`find`), and the
  three list operations as value functions: append a blank row, remove by position (a `filter`), and
  change one field.
- `totals.dfy` (`Totals`): the total as a pure recomputation from the rows, and how each list operation
  moves it.
- `receipt.dfy` (`Receipt`): the greeting bands, the receipt text as a function, and the loop that
  builds it (`BuildMessage`), proved equal to that function.
- `links.dfy` (`Links`): the formatted number, the deep link and its read-back, and the posted record.
- `bill_form.dfy` (`BillForm`): the component as a class `Form`. Its fields are `customerName`,
  `whatsappNumber`, `items`, `total` and `isSubmitting`. It has one method per handler. Total
  recomputation is explicit after every change to the rows. The invariant `Valid()` says the total
  is always derived from the rows.

A row's price is either typed text or a Number. The price input yields text, but the catalog
auto-fill stores the entry's Number (`src/App.jsx:35`). The model keeps the two apart: `Price = Text(s) |
Amount(n)`. A Number adds itself to the total, and the receipt prints it as its decimal numeral.

Library calls whose internals are not visible are values of the datatype `BillForm.Runtime`, passed
to the form. These are `parseFloat` on text (`None` for NaN), `toFixed(2)` and `encodeURIComponent`
(`None` where it throws a URIError). The form and the general total lemmas assume only one thing about
`parseFloat`: it reads the empty text as NaN (`Totals.BlankIsNaN`). The form's constructor requires it,
and `Valid()` keeps it. The example lemma `Totals.TypedPricesTotal` also assumes the values its parser
gives for "100", "abc" and "50.5". The hour of the day, the locale date text, the ISO timestamp and
the outcome of the logging POST are parameters.

The typed number is not checked (`src/App.jsx:73`), and the `tel` input accepts `?` and `#`. Either
one in the number ends the link's address early: a `?` starts the query, a `#` the fragment.
`Links.ParseLink` reads a link back by those two rules: the number runs up to the first `?` or `#`,
and what follows must be `?text=`. It is not a full URL parser. `Links.SubmitLinkReadsBackIff`
proves that the submitted link reads back to the posted number exactly when the typed number has
neither a `?` nor a `#`.

## Model

| member | source | states |
|---|---|---|
| `Decimal.NatToString` | src/App.jsx:59 | a number below 10^21 (every row number and catalog price) prints as a non-empty string of decimal digits, with no leading zero unless it is 0; it has one digit exactly when the number is below 10 |
| `Decimal.NatToStringRoundTrip` | src/App.jsx:59 | reading the printed digits back gives the number |
| `Decimal.NatToStringInjective` | src/App.jsx:59 | distinct numbers print differently, so row numbers and catalog prices are unambiguous on the receipt |
| `LineItems.Catalog` | src/App.jsx:14-23 | the eight catalog entries, `Item 1` to `Item 8`, priced 100 to 450 in steps of 50, in this order |
| `LineItems.Blank` | src/App.jsx:25 | the blank row `{name:'', price:''}` that "Add Item" appends |
| `LineItems.InitialItems` | src/App.jsx:8 | the list the form starts with: one blank row |
| `LineItems.AutoPrice` | src/App.jsx:34-36 | the price a row gets when its name is set: the Number of the first catalog entry with that name, or the empty text when there is none |
| `LineItems.ChangeRow` | src/App.jsx:31-37 | one edited row: a name edit sets the name and the auto-filled price; a price edit sets only the price, to the typed text |
| `LineItems.Find` | src/App.jsx:34 | `find` returns nothing exactly when no catalog entry has the name; otherwise it returns an entry with that name such that no earlier entry has it |
| `LineItems.CatalogNamesDistinct` | src/App.jsx:14-23 | the eight catalog names are pairwise distinct |
| `LineItems.EmptyNameNotInCatalog` | src/App.jsx:34-36 | the selector's empty choice matches no catalog entry |
| `LineItems.AppendBlank` | src/App.jsx:25 | adding a row makes the list one longer, keeps every earlier row and puts the blank row `{name:'', price:''}` last |
| `LineItems.KeepOthers` | src/App.jsx:26 | a filter by position counted from an offset drops exactly the row at that position when it is in range, and nothing otherwise |
| `LineItems.RemoveAt` | src/App.jsx:26 | removing an in-range position gives the list without that row: one shorter, rows before it in place, rows after it shifted down by one; any other position leaves the list as it was |
| `LineItems.ChangeItem` | src/App.jsx:28-39 | a change keeps the length and every other row, and replaces the changed row as its field dictates |
| `LineItems.ChangePriceOnlyPrice` | src/App.jsx:28-39 | setting the price sets that row's price to the typed text; its name, every other row and the length stay the same |
| `LineItems.ChangeNameAutoFills` | src/App.jsx:33-37 | setting the name sets it. If the value is the name of catalog entry k, and of no earlier entry, the price becomes entry k's price. If no entry has that name (the empty name included), the price becomes `''` |
| `Totals.BlankIsNaN` | src/App.jsx:43 | the parser reads the empty text of a blank row as NaN, as `parseFloat('')` does |
| `Totals.Contribution` | src/App.jsx:43 | what one price adds to the total: a catalog Number adds itself; typed text adds its parsed value, or 0 when it parses as NaN |
| `Totals.Total` | src/App.jsx:42-45 | the `reduce` over the rows: starting from 0, add each row's contribution, left to right |
| `Totals.TotalAppend` | src/App.jsx:43 | the total of two lists one after the other is the sum of their totals |
| `Totals.TotalSingle` | src/App.jsx:43 | a one-row list totals that row's contribution: its parsed price, 0 when it does not parse, or the catalog Number |
| `Totals.TotalSplit` | src/App.jsx:43 | the total is the part before a row, plus that row's contribution, plus the part after it |
| `Totals.TypedPricesTotal` | src/App.jsx:43 | with a parser that reads "100", "abc" and "50.5" as 100, NaN and 50.5, those three rows total 150.5 |
| `Totals.AppendBlankKeepsTotal` | src/App.jsx:42-45 | appending a blank row leaves the total unchanged |
| `Totals.InitialTotalIsZero` | src/App.jsx:8-9 | the starting list of one blank row totals 0 |
| `Totals.RemoveAtTotal` | src/App.jsx:26 | removing an in-range row takes exactly its contribution off the total |
| `Totals.ChangeItemTotal` | src/App.jsx:42-45 | changing a row moves the total by the new row's contribution minus the old row's |
| `Totals.SelectCatalogEntryTotal` | src/App.jsx:33-37 | selecting catalog entry k by name adds exactly that entry's price to the total, whatever the parser |
| `Totals.TotalPair` | src/App.jsx:43 | a two-row list totals the sum of the two rows' contributions |
| `Receipt.Greeting` | src/App.jsx:49-53 | "Good Morning" exactly before 12, "Good Afternoon" exactly from 12 up to 17, "Good Evening" exactly from 17 on |
| `Receipt.GreetingIsOneOfThree` | src/App.jsx:50-53 | for every hour 0..23 the greeting is one of the three bands, so the placeholder "Hello" is never used |
| `Receipt.GreetingBoundaries` | src/App.jsx:51-52 | 11 and 12 fall on either side of the morning/afternoon boundary; 16 and 17 fall on either side of the afternoon/evening boundary |
| `Receipt.PriceText` | src/App.jsx:59 | how a price is printed: typed text as it is, a catalog Number as its decimal numeral |
| `Receipt.Header` | src/App.jsx:55-57 | `{greeting} {customerName},`, a blank line, `--- YOUR BILL SUMMARY ---`, and `Date: {date}` followed by a blank line |
| `Receipt.ItemLine` | src/App.jsx:59 | the line `{position}. {name}: ₹{price}` of one row |
| `Receipt.Entries` | src/App.jsx:58-61 | the `forEach` output: for each row in order, its line numbered from `start + 1`, then the 25-dash separator |
| `Receipt.Message` | src/App.jsx:55-64 | the unencoded receipt: header, each row's entry, `Total: ₹{total text}`, the separator, and the fixed footer |
| `Receipt.EntriesAppend` | src/App.jsx:58-61 | the lines of two lists one after the other are the first list's lines, then the second's, with the numbering continued |
| `Receipt.EntriesAround` | src/App.jsx:58-61 | a row between two lists contributes its line, numbered one after the rows before it, followed by a separator |
| `Receipt.EntriesAt` | src/App.jsx:58-61 | the row at position k appears as line `k+1. name: ₹price` plus a separator, after the lines of the rows before it and before those of the rows after it |
| `Receipt.EntriesSnoc` | src/App.jsx:58-61 | one more row at the end adds exactly its numbered line and a separator |
| `Receipt.CatalogRowLine` | src/App.jsx:59 | a first row holding catalog entry "Item 3" reads `1. Item 3: ₹200` |
| `Receipt.MessageWithoutItems` | src/App.jsx:55-64 | with no rows the receipt is the header followed directly by the total line, a separator and the footer |
| `Receipt.MessageFrame` | src/App.jsx:55-64 | the receipt starts with `{greeting} {customerName},\n\n` and ends with the fixed thank-you footer signed "- Yogesh Mundhe" |
| `Receipt.BuildMessage` | src/App.jsx:47-65 | the greeting chain starting from "Hello", plus the header and the row-by-row `+=` loop, produce exactly the receipt text |
| `Links.FormattedNumber` | src/App.jsx:73 | the formatted number is `91` followed by the raw input, unchecked: two longer, `91` first, the input after it |
| `Links.FormattedNumberInjective` | src/App.jsx:73 | distinct inputs give distinct formatted numbers |
| `Links.Link` | src/App.jsx:75 | the deep link `https://wa.me/{number}?text={message}` |
| `Links.ParseLink` | src/App.jsx:75 | how the link is read back: the number runs from after `https://wa.me/` up to the first `?` or `#` (found by the helper `AddressEnd`), and the rest must start with `?text=`, after which comes the message |
| `Links.ParseLinkOfLink` | src/App.jsx:75 | the link `https://wa.me/<number>?text=<message>` reads back to its number (when that has no `?` and no `#`) and its message |
| `Links.LinkOfParseLink` | src/App.jsx:75 | every string that reads back to a number and a message is the link built of them, and that number has no `?` and no `#` |
| `Links.SubmitLinkStart` | src/App.jsx:73-75 | the submitted link begins `https://wa.me/91<raw>?text=` |
| `Links.SubmitLinkReadsBack` | src/App.jsx:73-77 | when the typed number has no `?` and no `#`, the number the link addresses is the formatted number that is posted, and the message is carried intact |
| `Links.SubmitLinkReadsBackIff` | src/App.jsx:73-77 | the link reads back to the posted number and the message exactly when the typed number has neither a `?` nor a `#` |
| `BillForm.Form.Valid` | src/App.jsx:42-45 | the form's invariant: the total is the one derived from the rows, and a blank price reads as NaN |
| `BillForm.Form.constructor` | src/App.jsx:6-10 | given a parser that reads the empty text as NaN, the form starts with an empty name and number, one blank row, not submitting, and a total of 0 |
| `BillForm.Form.RecomputeTotal` | src/App.jsx:42-45 | after the effect the total is the one derived from the rows |
| `BillForm.Form.SetCustomerName` | src/App.jsx:108 | the name input sets the customer name |
| `BillForm.Form.SetWhatsappNumber` | src/App.jsx:115 | the number input sets the raw number |
| `BillForm.Form.AddItem` | src/App.jsx:25 | the rows become the old rows plus a blank one, and the total does not move |
| `BillForm.Form.RemoveItem` | src/App.jsx:26 | the rows become the old ones without the given position. The total drops by that row's contribution; an out-of-range position changes nothing |
| `BillForm.Form.ChangeItem` | src/App.jsx:28-40 | copying the rows into an array, assigning the field in place and auto-filling the price gives exactly the `LineItems.ChangeItem` rows; the total moves by the difference of the row's contributions |
| `BillForm.Form.GenerateMessage` | src/App.jsx:47-67 | the result is the encoding of the receipt for the current fields, the hour and the date, or none when the encoding throws |
| `BillForm.Form.Submit` | src/App.jsx:69-94 | the flag is set to true first. If encoding the receipt throws (`:66`, before the `try` at `:79`), the handler stops: the flag stays true, nothing is posted, no link is opened and no alert is shown. Otherwise the record with the formatted number, rows, total and timestamp is posted. The link to the formatted number with the encoded receipt is opened exactly when the POST does not throw, and the alert is shown exactly when it does. Then the flag goes back to false |

## Left out

- Rendering, CSS classes and icons (`src/App.jsx:96-169`) are UI only. The two input `onChange` handlers are modelled as setters.
- React's `useState`/`useEffect` scheduling is not modelled: `RecomputeTotal` runs right after each change to the rows, so the stale total of the render between a change and its effect does not appear.
- The network and the browser are not modelled: the `fetch` with `no-cors`, `window.open`, `alert` and `console.error`. The POST's outcome is a parameter, and the opened link and the alert are returned as values.
- `parseFloat`, `toFixed(2)` and `encodeURIComponent` are parameters of `Runtime`, not definitions. Which texts make `encodeURIComponent` throw is not modelled. It throws on a lone UTF-16 surrogate, but the model's strings are sequences of Unicode scalar values and cannot hold one. The model keeps only the possibility of failure. `JSON.stringify` of the payload is not modelled; the payload is a record. Floating-point addition is modelled as exact `real` addition.
- `new Date()`, `getHours`, `toLocaleDateString` and `toISOString` read the clock and the locale. They become parameters.
- The rejected promise that `handleSubmit` returns when encoding throws is not modelled; the effects record shows only that nothing happens after the flag is raised.
- `e.preventDefault()`, re-entrant submits while a POST is pending, and the `async` suspension are not modelled. The flag only disables the button.
- Aliasing is not modelled: `[...items]` copies only the array, so the assignment to `newItems[index]` also mutates the row object that the previous state shares. The model's rows are values.
- `LineItems.ChangeItem`: requires an in-range index. The handler is only ever called with the index of a rendered row; with any other index the JavaScript would throw a TypeError, which is not modelled.
- `BillForm.Form.ChangeItem`: requires an in-range index, for the same reason.
- A catalog Number counts in the total as itself, exactly. `parseFloat` on a Number first turns it into a string, which for these integers gives the same value.
- Only the two inputs with `name="name"` and `name="price"` call the change handler, so `Field` has just those two cases.
- The file has no guard against submitting an empty item list, so none is modelled.
- `Decimal.NatToString`: prints every natural in plain digits; JavaScript's exponent notation from 10^21 on and the Numbers above 2^53 that cannot be represented exactly are not modelled, because no row number or catalog price comes near them.
