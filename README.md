# WooCommerce invoice generator — a Dafny model

This project models the core of the WooCommerce invoice generator, a Java program. The program does four things:
- It reads a WooCommerce order export, a JSON array of orders, into `Order` records.
- It derives each customer's identifier from the customer's name.
- It builds a PDF invoice for each order from a configuration, the company's data and the order: header, data table, greeting, product table with totals, signature, attribution line and footer.
- It prepares the e-mail that carries the invoice: subject, HTML body and attachment.

The model has nine modules:

| module | file | what it models |
|---|---|---|
| `Results` | `results.dfy` | `Option` and `Result`, used for the Java exceptions |
| `Jdk` | `jdk.dfy` | the JDK behaviour the core relies on: UTF-16 code units, `String.hashCode` and `Objects.hash` with 32-bit wrap-around, `String.split(" ")`, `Integer.parseInt`, `String.valueOf(int)`, plain decimal `Double.parseDouble` |
| `Model` | `model.dfy` | the `model` records, and `Customer` as a class whose identifier is set after construction |
| `Layout` | `layout.dfy` | a PDF table as a value: column count, widths, cells, header rows, and its rows |
| `Tables` | `table.dfy` | `document.Table`: a class whose `addAll`/`setBorders` change its cells in place |
| `Invoice` | `invoice.dfy` | what each `generate…` method of `InvoiceGenerator` builds, as functions; the whole run `Compose`; lemmas about layout, totals and failure order |
| `Generation` | `generator.dfy` | `InvoiceGenerator` as the program runs it, on a `Document` whose blocks are appended one by one; each method is proved to build what `Invoice` describes |
| `WooCommerce` | `woocommerce.dfy` | `WooCommerceDataDeserializer`: the reading functions, the class with its loop, and round-trip lemmas |
| `Notification` | `email.dfy` | the subject, body and parts of the message `EmailService` sends |

Java exceptions are modelled as `Result` values. Each failure names what was missing:
- `OutputNotWritable`, `ImageNotReadable`, `WrongColumnCount` and `MissingShareholder` for the generator;
- `MissingKey`, `WrongType`, `NotAnObject`, `NoSuchToken`, `NotAnInt` and `NotADate` for the deserializer.

A generation that fails keeps the blocks it added before the failure. The main result about generation is `Invoice.ComposeFollowsRequirements`. It lists what a generation needs, in the order the program finds out:
1. a writable output file;
2. lettering and logo images;
3. three pairs of proportions;
4. two shareholders;
5. a signature image.

The lemma proves that a run succeeds exactly when all of these hold, and otherwise reports the first one missing, with exactly the blocks added before that point. Formatting dates and numbers is taken never to fail; "## Left out" says where the Java formatters can throw.

A new cell has iText's defaults: a box border, left and top alignment (`Layout.TextCell`, `Layout.TableCell`). The header, data and footer tables clear their borders, explicitly or through `setBorders(0)`. The product table never calls `setBorders`, so its cells stay boxed.

The code has no `finally`: `document.close()` is reached only when every part could be made, so `Generation.InvoiceGenerator.Generate` leaves the document open after a failure.

## Model

All source paths are under `src/main/java/`.

| member | source | states |
|---|---|---|
| `Jdk.Utf16` | src/main/java/model/Customer.java:26 | a character is one UTF-16 code unit, or two exactly when it lies above the basic plane; every unit is below 2^16 |
| `Jdk.CodeUnits` | src/main/java/model/Customer.java:26 | a string has at least as many code units as characters and at most twice as many |
| `Jdk.CodeUnitsAppend` | src/main/java/model/Customer.java:26 | the code units of a concatenation are the concatenated code units (`firstName + lastName` is hashed as one string) |
| `Jdk.HashWord` | src/main/java/model/Customer.java:26 | `String.hashCode`: Horner's `31*h + unit` over the code units, wrapped to a 32-bit word; the result is always below 2^32 |
| `Jdk.StringHash` | src/main/java/model/Customer.java:26 | the hash of a string is a 32-bit word |
| `Jdk.ObjectsHash` | src/main/java/model/Customer.java:26 | `Objects.hash` of one string, `31 + hash` wrapped to 32 bits, is a 32-bit word |
| `Jdk.Pieces` | src/main/java/data/WooCommerceDataDeserializer.java:76-77 | cutting at every space gives at least one piece, and no piece holds a space |
| `Jdk.JoinPieces` | src/main/java/data/WooCommerceDataDeserializer.java:76-77 | joining the pieces with single spaces gives back the original string |
| `Jdk.PiecesOfWord` | src/main/java/data/WooCommerceDataDeserializer.java:76-77 | a word without spaces is a single piece |
| `Jdk.PiecesAfterWord` | src/main/java/data/WooCommerceDataDeserializer.java:76-77 | a word followed by a space contributes exactly one leading piece |
| `Jdk.DropTrailingEmpty` | src/main/java/data/WooCommerceDataDeserializer.java:76-77 | as `split` does, trailing empty pieces are removed: the result is a prefix ending in a non-empty piece, and only empty pieces were dropped |
| `Jdk.SplitTokens` | src/main/java/data/WooCommerceDataDeserializer.java:76-77 | no token of `split(" ")` holds a space; when the string holds a space the tokens are a prefix of its pieces |
| `Jdk.SplitTwoWords` | src/main/java/data/WooCommerceDataDeserializer.java:76-77 | two non-empty words joined by a space split back into those two words |
| `Jdk.SplitThreeWords` | src/main/java/data/WooCommerceDataDeserializer.java:76-77 | three non-empty words joined by spaces split back into those three words |
| `Jdk.SplitFirstTwo` | src/main/java/data/WooCommerceDataDeserializer.java:76-77 | the first two tokens, joined by a space, are a prefix of the string |
| `Jdk.Split` | src/main/java/data/WooCommerceDataDeserializer.java:76-77 | `s.split(" ")`: a string without a space whole, otherwise the pieces between spaces with trailing empty ones dropped; its tokens are characterised by `SplitTokens`, `SplitTwoWords`, `SplitThreeWords` and `SplitFirstTwo` |
| `Jdk.NatToDigits` | src/main/java/document/InvoiceGenerator.java:184 | the decimal spelling of a natural number is non-empty and all digits |
| `Jdk.DigitsRoundTrip` | src/main/java/document/InvoiceGenerator.java:184 | reading the decimal spelling back gives the number |
| `Jdk.IntToString` | src/main/java/document/InvoiceGenerator.java:184 | `String.valueOf(int)`: a minus sign for negative values, then the digits; `IntRoundTrip` proves `parseInt` reads it back |
| `Jdk.ParseInt` | src/main/java/data/WooCommerceDataDeserializer.java:97 | `Integer.parseInt` accepts only an optional sign followed by at least one digit |
| `Jdk.IntRoundTrip` | src/main/java/data/WooCommerceDataDeserializer.java:97 | `parseInt(String.valueOf(i)) == i` for every 32-bit `i` |
| `Jdk.Pow10` | src/main/java/data/WooCommerceDataDeserializer.java:96 | powers of ten are positive, so a decimal's scale is never zero |
| `Jdk.IndexOf` | src/main/java/data/WooCommerceDataDeserializer.java:96 | the first position of a character, or the length when it is absent |
| `Jdk.DecimalValue` | src/main/java/data/WooCommerceDataDeserializer.java:96 | the value of `whole.fraction`, the whole digits plus the fraction digits scaled by 10^(number of fraction digits) |
| `Jdk.ParseDecimal` | src/main/java/data/WooCommerceDataDeserializer.java:96 | `Double.parseDouble` for plain decimals: optional sign, digits, optional point and fraction, at least one digit; `DecimalOfNat` and `DecimalWithFraction` give its value |
| `Jdk.DecimalWithFraction` | src/main/java/data/WooCommerceDataDeserializer.java:96 | a price written `w.f` reads as `w + f / 10^|f|`; either side of the point may be empty, but not both |
| `Jdk.DecimalOfNat` | src/main/java/data/WooCommerceDataDeserializer.java:96 | a price written as digits is read as that number |
| `Model.NameHash` | src/main/java/model/Customer.java:26 | masking with `0xfffffff` always gives an identifier between 0 and 2^28 − 1, never negative |
| `Model.AnnLeeCodeUnits` | src/main/java/model/Customer.java:26 | the code units of "AnnLee" |
| `Model.AnnLeeHashWord` | src/main/java/model/Customer.java:26 | `"AnnLee".hashCode()` worked out step by step |
| `Model.NameHashCollision` | src/main/java/model/Customer.java:22-27 | "An"+"nLee" and "Ann"+"Lee" get the same identifier, 86787242: the identifier depends only on the concatenation |
| `Model.Customer.constructor` | src/main/java/model/Customer.java:9-12 | keeps the four person fields and the given identifier |
| `Model.Customer.GetCustomerId` | src/main/java/model/Customer.java:14-16 | returns the current identifier |
| `Model.Customer.SetCustomerId` | src/main/java/model/Customer.java:18-20 | replaces the identifier and changes no other field |
| `Model.Customer.AsPerson` | src/main/java/model/Customer.java:5 | the inherited `Person` fields |
| `Model.Customer.HashCode` | src/main/java/model/Customer.java:22-27 | depends only on first and last name, lies in 0..2^28 − 1, and is the masked `Objects.hash` of their concatenation |
| `Model.SameNameSameHash` | src/main/java/model/Customer.java:22-27 | customers whose names concatenate alike hash alike, whatever their address, contact or identifier |
| `Layout.Row` | src/main/java/document/Table.java:20 | each row of a table holds exactly as many cells as the table has columns |
| `Layout.RowAt` | src/main/java/document/Table.java:20-21 | cell `c` of row `r` is the cell at position `r·n + c` |
| `Layout.EmptyTable` | src/main/java/document/Table.java:9-11 | a new table is well formed, has the given column count, and has no cells and no header rows |
| `Layout.TextCell` | src/main/java/document/InvoiceGenerator.java:267-270 | `new PdfPCell(new Paragraph(text, font))` with iText's defaults: box border, left and top alignment |
| `Layout.TableCell` | src/main/java/document/InvoiceGenerator.java:200 | `new PdfPCell(table)` with the same defaults |
| `Layout.WithWidths` | src/main/java/document/InvoiceGenerator.java:126 | widths are accepted exactly when there is one per column, and they leave the cells unchanged |
| `Layout.Appended` | src/main/java/document/Table.java:13-17 | the table with the cells added after the existing ones, in order |
| `Layout.Bordered` | src/main/java/document/Table.java:19-25 | the cells with the border width set on every cell of a completed row; `BorderedChangesOnlyBorders` states it cell by cell |
| `Layout.WithBorders` | src/main/java/document/Table.java:19-25 | the table after `setBorders`; `RowsAfterBorders`, `BordersIdempotent` and `FullRowsAllBordered` state its rows |
| `Layout.BorderedChangesOnlyBorders` | src/main/java/document/Table.java:19-25 | `setBorders` changes only borders: the cells of complete rows get the width, and the cells of an incomplete last row keep their border |
| `Layout.RowsAfterBorders` | src/main/java/document/Table.java:19-25 | after `setBorders` the rows are the same cells with the new border |
| `Layout.BordersIdempotent` | src/main/java/document/Table.java:19-25 | setting the same border twice is the same as setting it once |
| `Layout.FullRowsAllBordered` | src/main/java/document/Table.java:19-25 | when the cells fill whole rows, every cell gets the border |
| `Tables.Table.constructor` | src/main/java/document/Table.java:9-11 | an empty table with the given column count |
| `Tables.Table.Value` | src/main/java/document/Table.java:7 | the table's state as a value: column count, widths, cells and header rows |
| `Tables.Table.AddCell` | src/main/java/document/InvoiceGenerator.java:127-128 | appends the cell at the end and changes nothing else |
| `Tables.Table.AddAll` | src/main/java/document/Table.java:13-17 | the cells become the old cells followed by the list, in order |
| `Tables.Table.SetBorders` | src/main/java/document/Table.java:19-25 | the new cells are the old ones with the border set on every cell of a completed row |
| `Tables.Table.SetWidths` | src/main/java/document/InvoiceGenerator.java:126 | succeeds exactly when there is one proportion per column, and only then replaces the widths |
| `Tables.Table.SetHeaderRows` | src/main/java/document/InvoiceGenerator.java:232 | the header row count becomes the argument; a negative count becomes 0 |
| `Invoice.IdentityLayout` | src/main/java/document/InvoiceGenerator.java:67-69 | the identifier is the formatted date, a dash and the order number; the file name is the output path, the identifier and ".pdf" |
| `Invoice.DistinctOrdersDistinctFiles` | src/main/java/document/InvoiceGenerator.java:67-69 | two orders of the same day with different numbers get different identifiers and different files |
| `Invoice.InvoiceId` | src/main/java/document/InvoiceGenerator.java:67-68 | the invoice identifier: the order date in the configured format, a dash and the order number; `IdentityLayout` splits it back |
| `Invoice.OutputFileName` | src/main/java/document/InvoiceGenerator.java:69 | the output file: base path, identifier and ".pdf"; `IdentityLayout` and `DistinctOrdersDistinctFiles` are about it |
| `Invoice.LoadImage` | src/main/java/document/InvoiceGenerator.java:111-112 | an image loads exactly when its file is readable, scaled as configured, and otherwise fails naming the path |
| `Invoice.SizedTable` | src/main/java/document/InvoiceGenerator.java:145 | a table with proportions is made exactly when there is one per column, and otherwise fails naming both counts |
| `Invoice.HeaderTable` | src/main/java/document/InvoiceGenerator.java:104-139 | `generateHeader`; `HeaderOutcome` states when it fails and with which failure, `HeaderLayout` its cells |
| `Invoice.HeaderOutcome` | src/main/java/document/InvoiceGenerator.java:104-139 | the header succeeds exactly when lettering and logo are readable and there are two proportions; otherwise it fails on the first missing one |
| `Invoice.HeaderLayout` | src/main/java/document/InvoiceGenerator.java:104-139 | the header is the heading text beside a borderless nested table holding lettering and logo |
| `Invoice.CompanyInformation` | src/main/java/document/InvoiceGenerator.java:272-279 | five boxed text cells in the given font |
| `Invoice.CustomerInformation` | src/main/java/document/InvoiceGenerator.java:281-287 | four boxed text cells in the given font |
| `Invoice.DataCells` | src/main/java/document/InvoiceGenerator.java:151-158 | fourteen cells: customer beside company, then the blank, company and inner-table cells in their positions |
| `Invoice.InnerDataCells` | src/main/java/document/InvoiceGenerator.java:170-195 | fourteen plain text cells; every label ends in ':' |
| `Invoice.InnerDataCell` | src/main/java/document/InvoiceGenerator.java:166-201 | `generateInnerDataTable`; `InnerDataOutcome`, `InnerDataShape`, `InnerDataValues` and `PerformanceDateOnlyInLastCell` state it |
| `Invoice.DataTable` | src/main/java/document/InvoiceGenerator.java:141-164 | `generateDataTable`; `DataTableOutcome` states when it fails, `DataTableLayout` its rows |
| `Invoice.InnerDataOutcome` | src/main/java/document/InvoiceGenerator.java:166-201 | the inner table is made exactly when it has two proportions and the company has two shareholders; otherwise it fails with the first missing one |
| `Invoice.InnerDataTableCells` | src/main/java/document/InvoiceGenerator.java:166-201 | its cells are the label/value cells, borderless |
| `Invoice.InnerDataShape` | src/main/java/document/InvoiceGenerator.java:166-201 | a well-formed two-column table of fourteen borderless text cells |
| `Invoice.InnerDataValues` | src/main/java/document/InvoiceGenerator.java:174-195 | the values are the shareholders' phones and the second one's e-mail, the identifier, the customer number in decimal, and the readable invoice and performance dates |
| `Invoice.PerformanceDateOnlyInLastCell` | src/main/java/document/InvoiceGenerator.java:166-201 | the performance date affects only the last cell of the inner table |
| `Invoice.DataTableOutcome` | src/main/java/document/InvoiceGenerator.java:141-164 | the data table is made exactly when it has two proportions and the inner table is made; it fails first on its own proportions |
| `Invoice.DataTableLayout` | src/main/java/document/InvoiceGenerator.java:141-164 | seven borderless rows: customer beside company, a blank beside the company's country, a blank row, then the inner table |
| `Invoice.TimesIsProduct` | src/main/java/document/InvoiceGenerator.java:222 | the line total, price taken amount times, is price × amount |
| `Invoice.LineTotal` | src/main/java/document/InvoiceGenerator.java:222 | a product's line total, price times amount; `TimesIsProduct` proves the repeated sum is the product |
| `Invoice.Total` | src/main/java/document/InvoiceGenerator.java:217-225 | the running sum of line totals in list order; `TotalIsSumOfLineTotals` and `TotalAppend` state it |
| `Invoice.SumOfLineTotalsSnoc` | src/main/java/document/InvoiceGenerator.java:224 | adding a product adds its line total |
| `Invoice.TotalIsSumOfLineTotals` | src/main/java/document/InvoiceGenerator.java:217-225 | the running sum of the loop equals the sum of the line totals |
| `Invoice.TotalAppend` | src/main/java/document/InvoiceGenerator.java:217-225 | the total of two lists of products is the sum of their totals |
| `Invoice.TotalExample` | src/main/java/document/InvoiceGenerator.java:217-225 | three items at 9.99 plus shipping at 4.50 total 34.47 |
| `Invoice.ProductRow` | src/main/java/document/InvoiceGenerator.java:219-223 | a product row is four plain text cells |
| `Invoice.ProductRows` | src/main/java/document/InvoiceGenerator.java:217-225 | four cells per product |
| `Invoice.ProductRowsPlain` | src/main/java/document/InvoiceGenerator.java:217-225 | every product cell is plain text in the paragraph font |
| `Invoice.ProductRowsAt` | src/main/java/document/InvoiceGenerator.java:217-225 | the cells of product `k` are its row, at positions 4k to 4k + 3 |
| `Invoice.RowsOfFour` | src/main/java/document/InvoiceGenerator.java:203-235 | a four-column table of 4·m cells has m rows of four consecutive cells |
| `Invoice.ProductTableShape` | src/main/java/document/InvoiceGenerator.java:203-235 | the product table has four columns, one header row, and a row per product plus label and sum rows, all plain text |
| `Invoice.ProductTableHeader` | src/main/java/document/InvoiceGenerator.java:209-215 | the first row holds the four labels |
| `Invoice.ProductTableProducts` | src/main/java/document/InvoiceGenerator.java:217-225 | row k + 1 is product k's row, in order |
| `Invoice.LastRowOfFour` | src/main/java/document/InvoiceGenerator.java:227-229 | four cells appended to whole rows form the last row |
| `Invoice.ProductTable` | src/main/java/document/InvoiceGenerator.java:203-235 | `generateProductTable`; `ProductTableShape`, `ProductTableHeader`, `ProductTableProducts` and `ProductTableSum` state its rows |
| `Invoice.ProductTableCells` | src/main/java/document/InvoiceGenerator.java:203-235 | the cells are the label row, the product rows, then the sum row for the running total |
| `Invoice.ProductTableSum` | src/main/java/document/InvoiceGenerator.java:227-229 | the last row shows the sum of all line totals |
| `Invoice.FinancialInformation` | src/main/java/document/InvoiceGenerator.java:289-295 | four "label: value" cells |
| `Invoice.RightAligned` | src/main/java/document/InvoiceGenerator.java:251-253 | right alignment keeps the number of cells |
| `Invoice.FooterCells` | src/main/java/document/InvoiceGenerator.java:255-260 | company information interleaved with financial information, row by row |
| `Invoice.Footer` | src/main/java/document/InvoiceGenerator.java:243-265 | `generateFooter`; `FooterLayout` states its rows, alignment and texts |
| `Invoice.FooterLayout` | src/main/java/document/InvoiceGenerator.java:243-265 | four borderless rows in the footer font: company lines on the left; IBAN, BIC, bank and tax number right-aligned on the right |
| `Invoice.Middle` | src/main/java/document/InvoiceGenerator.java:82-88 | the seven blocks between the second rule and the signature |
| `Invoice.Heading` | src/main/java/document/InvoiceGenerator.java:98-102 | `generateHeading`: the configured heading, a space and the identifier, in the heading font |
| `Invoice.Salutation` | src/main/java/document/InvoiceGenerator.java:84 | paragraph 1, a space, the customer's last name and a comma, in the paragraph font |
| `Invoice.Signature` | src/main/java/document/InvoiceGenerator.java:237-241 | `generateSignature`: the scaled signature image, or a failure naming the unreadable file |
| `Invoice.Attribution` | src/main/java/document/InvoiceGenerator.java:90-92 | the first shareholder's full name with the company's location and the readable invoice date; fails when there is no shareholder |
| `Invoice.Assemble` | src/main/java/document/InvoiceGenerator.java:76-95 | the blocks `generate` adds, in order, stopping at the first part that cannot be made; `AssembleOutcome` and `AssembleFollows` state it |
| `Invoice.Compose` | src/main/java/document/InvoiceGenerator.java:72-96 | `generate` as a whole; `ComposeFollowsRequirements` and the `Composed…` lemmas state it |
| `Invoice.AssembleOutcome` | src/main/java/document/InvoiceGenerator.java:72-96 | a run is complete exactly when the file is writable and every part is made; at each failure it has the blocks added before it |
| `Invoice.AssembleDonePositions` | src/main/java/document/InvoiceGenerator.java:78-93 | a complete run has fourteen blocks, each part at its position |
| `Invoice.AssembleMiddle` | src/main/java/document/InvoiceGenerator.java:82-88 | heading, blank lines, salutation with the last name, paragraphs and the product table are at positions 4 to 10 |
| `Invoice.AssembleTablesWellFormed` | src/main/java/document/InvoiceGenerator.java:72-96 | assembling keeps every added table well formed |
| `Invoice.AssembleDataOnly` | src/main/java/document/InvoiceGenerator.java:72-96 | two data tables that succeed or fail alike give runs that differ at most in block 2 |
| `Invoice.AssembleFollows` | src/main/java/document/InvoiceGenerator.java:72-96 | parts that each report their first missing requirement make a run that follows all the requirements |
| `Invoice.HeaderReportsFirst` | src/main/java/document/InvoiceGenerator.java:104-139 | the header reports the first of its three requirements that is missing |
| `Invoice.DataReportsFirst` | src/main/java/document/InvoiceGenerator.java:141-201 | the data table reports the first of its four requirements that is missing |
| `Invoice.PartsReportFirst` | src/main/java/document/InvoiceGenerator.java:72-96 | each part reports its own requirements in order, and the attribution line is made once there is a shareholder |
| `Invoice.ComposeFollowsRequirements` | src/main/java/document/InvoiceGenerator.java:72-96 | with formatting taken to be total: generation succeeds exactly when all nine requirements hold; otherwise it fails with the first missing one, with exactly the blocks added before it |
| `Invoice.ComposedOpening` | src/main/java/document/InvoiceGenerator.java:78-81 | a complete invoice starts with the header, a rule, the data table and a rule |
| `Invoice.ComposedMiddle` | src/main/java/document/InvoiceGenerator.java:82-88 | then heading with the identifier, blank line, salutation with the customer's last name, paragraph 2, product table and paragraph 3 |
| `Invoice.ComposedClosing` | src/main/java/document/InvoiceGenerator.java:89-93 | and ends with the signature, "first shareholder (location, date)" and the footer |
| `Invoice.TooFewShareholders` | src/main/java/document/InvoiceGenerator.java:166-171 | with fewer than two shareholders generation fails on the missing one, after header and rule |
| `Invoice.PerformanceDateOnlyInDataTable` | src/main/java/document/InvoiceGenerator.java:72-96 | the performance date changes only the data table |
| `Invoice.ComposedTablesWellFormed` | src/main/java/document/InvoiceGenerator.java:72-96 | every table a generation adds is well formed |
| `Generation.Document.constructor` | src/main/java/document/InvoiceGenerator.java:73 | a fresh document, unbound and empty |
| `Generation.Document.Attach` | src/main/java/document/InvoiceGenerator.java:74 | binds the document to the output file |
| `Generation.Document.Open` | src/main/java/document/InvoiceGenerator.java:76 | opens a fresh document |
| `Generation.Document.Add` | src/main/java/document/InvoiceGenerator.java:78-93 | appends a block to an open document |
| `Generation.Document.Close` | src/main/java/document/InvoiceGenerator.java:95 | closes an open document |
| `Generation.InvoiceGenerator.constructor` | src/main/java/document/InvoiceGenerator.java:45-70 | fonts and separator follow the configuration; the invoice date is the order date; identifier and file name are derived from the order |
| `Generation.InvoiceGenerator.GetId` | src/main/java/document/InvoiceGenerator.java:297-299 | the identifier derived from the order |
| `Generation.InvoiceGenerator.GetFileName` | src/main/java/document/InvoiceGenerator.java:301-303 | the file name derived from the identifier |
| `Generation.InvoiceGenerator.GenerateHeader` | src/main/java/document/InvoiceGenerator.java:104-139 | builds with `Table` objects exactly the header `Invoice.HeaderTable` describes, failures included |
| `Generation.InvoiceGenerator.GenerateInnerDataTable` | src/main/java/document/InvoiceGenerator.java:166-201 | builds exactly the inner data table, failures included |
| `Generation.InvoiceGenerator.GenerateDataTable` | src/main/java/document/InvoiceGenerator.java:141-164 | builds exactly the data table, failures included |
| `Generation.InvoiceGenerator.GenerateProductTable` | src/main/java/document/InvoiceGenerator.java:203-235 | the loop builds exactly the product table, with the running sum as the total of the line totals |
| `Generation.InvoiceGenerator.GenerateSignature` | src/main/java/document/InvoiceGenerator.java:237-241 | the signature image, or a failure when it is unreadable |
| `Generation.InvoiceGenerator.GenerateFooter` | src/main/java/document/InvoiceGenerator.java:243-265 | the loop right-aligns the financial cells and builds exactly the footer |
| `Generation.InvoiceGenerator.AddGreetingAndProducts` | src/main/java/document/InvoiceGenerator.java:82-88 | appends exactly the seven middle blocks |
| `Generation.InvoiceGenerator.AddTables` | src/main/java/document/InvoiceGenerator.java:78-81 | appends header, rule, data table and rule, stopping at the first table that cannot be made |
| `Generation.InvoiceGenerator.AddClosing` | src/main/java/document/InvoiceGenerator.java:89-93 | appends signature, attribution and footer, stopping at the first that cannot be made |
| `Generation.InvoiceGenerator.AddParts` | src/main/java/document/InvoiceGenerator.java:76-95 | the document ends with exactly the blocks of the run; it is closed only when the run completes |
| `Generation.InvoiceGenerator.AddBody` | src/main/java/document/InvoiceGenerator.java:82-95 | appends the middle and closing blocks, and closes the document only on success |
| `Generation.InvoiceGenerator.Generate` | src/main/java/document/InvoiceGenerator.java:72-96 | the document's blocks and the status are `Compose`'s; it is bound only to a writable file; it is closed after success and left open after a later failure |
| `WooCommerce.GetString` | src/main/java/data/WooCommerceDataDeserializer.java:56-57 | succeeds exactly when the key is present with a string, and returns that string |
| `WooCommerce.GetDouble` | src/main/java/data/WooCommerceDataDeserializer.java:96 | `getDouble`: succeeds exactly when the key holds a number, or a string that parses as a decimal; returns the number, or the parsed value; a missing key fails with `MissingKey` |
| `WooCommerce.GetArray` | src/main/java/data/WooCommerceDataDeserializer.java:91 | `getJSONArray`: succeeds exactly when the key holds an array and returns it; a missing key fails with `MissingKey` |
| `WooCommerce.AsObject` | src/main/java/data/WooCommerceDataDeserializer.java:50 | the cast `(JSONObject)`: succeeds exactly on an object and returns its fields |
| `WooCommerce.Token` | src/main/java/data/WooCommerceDataDeserializer.java:76-77 | indexing the `split` result: succeeds exactly when the index is within the tokens, otherwise `NoSuchToken` with index and count |
| `WooCommerce.AmountOf` | src/main/java/data/WooCommerceDataDeserializer.java:97 | `Integer.parseInt` of the quantity: succeeds exactly when `ParseInt` accepts the text, with its value; otherwise `NotAnInt` |
| `WooCommerce.DateOf` | src/main/java/data/WooCommerceDataDeserializer.java:60 | `LocalDate.parse` with the export's pattern: succeeds exactly when the date parser accepts the text, with its date; otherwise `NotADate` |
| `WooCommerce.ReadEachStop` | src/main/java/data/WooCommerceDataDeserializer.java:48-53 | once a record fails, the records after it change nothing |
| `WooCommerce.ReadEachNext` | src/main/java/data/WooCommerceDataDeserializer.java:48-53 | a record that reads adds its value at the end |
| `WooCommerce.ReadEachFail` | src/main/java/data/WooCommerceDataDeserializer.java:48-53 | the first record that fails ends the reading with its error |
| `WooCommerce.ReadEachAllOk` | src/main/java/data/WooCommerceDataDeserializer.java:48-53 | reading succeeds exactly when every record reads, the values in order; a failure is the first failing record's error |
| `WooCommerce.ProductResults` | src/main/java/data/WooCommerceDataDeserializer.java:93-99 | one product result per listed item, in order |
| `WooCommerce.RecordResults` | src/main/java/data/WooCommerceDataDeserializer.java:49-51 | one order result per raw record |
| `WooCommerce.RecordResultsAt` | src/main/java/data/WooCommerceDataDeserializer.java:49-51 | result i reads record i |
| `WooCommerce.ReadEach` | src/main/java/data/WooCommerceDataDeserializer.java:48-53 | records read in order until the first failure; `ReadEachAllOk`, `ReadEachNext`, `ReadEachFail` and `ReadEachStop` state it |
| `WooCommerce.AddressOf` | src/main/java/data/WooCommerceDataDeserializer.java:74-82 | `deserializeAddress`: street and number from the first two tokens of the street line, then zip code, location and country; `AddressTokens`, `AddressNeedsTwoTokens`, `MultiWordStreet` and `OneWordStreet` state it |
| `WooCommerce.ContactOf` | src/main/java/data/WooCommerceDataDeserializer.java:84-88 | `deserializeContact`: e-mail, then phone; `PersonReads` reads it back |
| `WooCommerce.PersonOf` | src/main/java/data/WooCommerceDataDeserializer.java:64-67 | the person fields in the order `deserializeCustomer` reads them; `PersonReads` reads a person back |
| `WooCommerce.ProductOf` | src/main/java/data/WooCommerceDataDeserializer.java:94-98 | one listed product: name, price, and the amount parsed from a string; `ProductItemReads` reads a product back |
| `WooCommerce.ShippingOf` | src/main/java/data/WooCommerceDataDeserializer.java:104-107 | `deserializeShipping`: "Versand" at the shipping price with amount 1; `ProductsEndWithShipping` states it |
| `WooCommerce.ProductsOf` | src/main/java/data/WooCommerceDataDeserializer.java:90-102 | `deserializeProducts`: the listed products, then the shipping line; `ProductsEndWithShipping` and `ProductsRead` state it |
| `WooCommerce.OrderFieldsOf` | src/main/java/data/WooCommerceDataDeserializer.java:55-61 | `deserializeOrder`'s fields, read in the source's order with the date parsed last; `OrderRecordRoundTrip` reads an order back |
| `WooCommerce.ReadOrders` | src/main/java/data/WooCommerceDataDeserializer.java:48-53 | what `deserialize` reads from the raw array; `Deserialize` is proved to follow it |
| `WooCommerce.ProductsEndWithShipping` | src/main/java/data/WooCommerceDataDeserializer.java:90-107 | the products are the listed items in order, followed by the shipping line: "Versand", the shipping price, amount 1 |
| `WooCommerce.AddressTokens` | src/main/java/data/WooCommerceDataDeserializer.java:74-82 | street and number are the first two space-separated tokens of the street line, spaceless and in the line's order |
| `WooCommerce.AddressNeedsTwoTokens` | src/main/java/data/WooCommerceDataDeserializer.java:76-77 | a street line with fewer than two tokens fails at the index that is out of bounds |
| `WooCommerce.ProductItemReads` | src/main/java/data/WooCommerceDataDeserializer.java:94-98 | a product written as an item reads back as itself |
| `WooCommerce.ProductItems` | src/main/java/data/WooCommerceDataDeserializer.java:93-99 | one item per product, in order |
| `WooCommerce.ListedItemsRead` | src/main/java/data/WooCommerceDataDeserializer.java:93-99 | a list of products written as items reads back as that list |
| `WooCommerce.PersonReads` | src/main/java/data/WooCommerceDataDeserializer.java:63-88 | a record holding a person's fields, with a one-word street and number, reads back as that person |
| `WooCommerce.ProductsRead` | src/main/java/data/WooCommerceDataDeserializer.java:90-107 | listed items plus a shipping price read back as the products ending in the shipping line |
| `WooCommerce.OrderRecordFields` | src/main/java/data/WooCommerceDataDeserializer.java:16-36 | an order written under the export's keys has each field under its key |
| `WooCommerce.OrderRecordRoundTrip` | src/main/java/data/WooCommerceDataDeserializer.java:55-61 | an order written as a record and read back is the same order |
| `WooCommerce.MultiWordStreet` | src/main/java/data/WooCommerceDataDeserializer.java:74-82 | with a two-word street name, the street becomes the first word and the number the second word |
| `WooCommerce.OneWordStreet` | src/main/java/data/WooCommerceDataDeserializer.java:76-77 | a street line without a space fails at index 1 |
| `WooCommerce.LoadedAppend` | src/main/java/data/WooCommerceDataDeserializer.java:51 | appending an order that denotes the next record keeps the loaded list in step with the records |
| `WooCommerce.Loaded` | src/main/java/data/WooCommerceDataDeserializer.java:48-53 | the order list is the earlier list followed by one order per record read, each with the record's fields and a customer identifier equal to its name hash |
| `WooCommerce.WooCommerceDataDeserializer.constructor` | src/main/java/data/WooCommerceDataDeserializer.java:42-46 | keeps the path and the parsed array; the order list is empty |
| `WooCommerce.WooCommerceDataDeserializer.Deserialize` | src/main/java/data/WooCommerceDataDeserializer.java:48-53 | appends one fresh order per record read, in order, and stops at the first record that fails, with its error |
| `WooCommerce.WooCommerceDataDeserializer.AddOrder` | src/main/java/data/WooCommerceDataDeserializer.java:50-51 | reads record i and appends its order, or leaves the list unchanged and reports the error |
| `WooCommerce.WooCommerceDataDeserializer.DeserializeOrder` | src/main/java/data/WooCommerceDataDeserializer.java:55-61 | yields an order with a fresh customer exactly when the record reads, with the same fields |
| `WooCommerce.WooCommerceDataDeserializer.DeserializeCustomer` | src/main/java/data/WooCommerceDataDeserializer.java:63-72 | a fresh customer with the record's person fields whose identifier is its own name hash; fails exactly when the person fails |
| `WooCommerce.WooCommerceDataDeserializer.DeserializeProducts` | src/main/java/data/WooCommerceDataDeserializer.java:90-102 | the loop reads exactly the products `ProductsOf` describes, shipping last |
| `WooCommerce.WooCommerceDataDeserializer.GetFilePath` | src/main/java/data/WooCommerceDataDeserializer.java:109-111 | returns the path |
| `WooCommerce.WooCommerceDataDeserializer.SetFilePath` | src/main/java/data/WooCommerceDataDeserializer.java:113-115 | replaces the path |
| `WooCommerce.WooCommerceDataDeserializer.GetRawData` | src/main/java/data/WooCommerceDataDeserializer.java:117-119 | returns the parsed array |
| `WooCommerce.WooCommerceDataDeserializer.SetRawData` | src/main/java/data/WooCommerceDataDeserializer.java:121-123 | replaces the parsed array |
| `WooCommerce.WooCommerceDataDeserializer.GetData` | src/main/java/data/WooCommerceDataDeserializer.java:125-128 | fails exactly when no order is loaded, with "Call the method deserialize() first."; otherwise it returns the orders |
| `WooCommerce.WooCommerceDataDeserializer.SetData` | src/main/java/data/WooCommerceDataDeserializer.java:130-132 | replaces the orders |
| `WooCommerce.EmptyExportNotDeserialized` | src/main/java/data/WooCommerceDataDeserializer.java:125-128 | an empty export deserializes without error, yet `getData` still reports that nothing was deserialized |
| `Notification.EmailService.constructor` | src/main/java/notification/EmailService.java:23-48 | keeps the sender and the configured texts |
| `Notification.EmailService.Subject` | src/main/java/notification/EmailService.java:56-57 | the configured subject followed by the identifier |
| `Notification.EmailService.Body` | src/main/java/notification/EmailService.java:59-60 | the body is the salutation, then the last name, then the closing, each at its stated slice |
| `Notification.EmailService.Closing` | src/main/java/notification/EmailService.java:60 | the comma, the message between double line breaks, greetings and signature on separate lines |
| `Notification.EmailService.Message` | src/main/java/notification/EmailService.java:50-72 | `sendAttachedMimeMessage` up to sending: sender, recipients, subject, and the two parts; `MessageCarriesInvoice` states it |
| `Notification.EmailService.SubjectRoundTrip` | src/main/java/notification/EmailService.java:56-57 | the identifier is read back from the subject |
| `Notification.EmailService.BodyRoundTrip` | src/main/java/notification/EmailService.java:59-60 | the last name is read back from the body |
| `Notification.EmailService.SubjectAndBodyInjective` | src/main/java/notification/EmailService.java:56-60 | two subjects are equal exactly when the identifiers are, and two bodies exactly when the last names are |
| `Notification.EmailService.MessageCarriesInvoice` | src/main/java/notification/EmailService.java:50-72 | the message has the sender, the recipients, the HTML body first and the invoice attachment second; subject and body give back identifier and last name |

## Left out

- Rendering: iText's `Document`, `PdfWriter`, fonts, images, line separators, paddings, spacing, width percentages and page layout are opaque values. A document is the sequence of blocks added to it.
- File access: which files can be read or written is a parameter (`Environment`), not the file system.
- `DecimalFormat` and `DateTimeFormatter`: the formatters are parameters (`Formats`). Lemmas state which value each cell formats, not the characters printed.
- `Invoice.ComposeFollowsRequirements`: formatting is taken to be total, so the nine requirements omit formatter failures. In Java, `DateTimeFormatter.ofPattern` and `new DecimalFormat` reject a malformed pattern in the constructor (src/main/java/document/InvoiceGenerator.java:63-67), and line 68 formats the order date with `dateFormat`. `invoiceDate.format(dateFormatReadable)` throws `UnsupportedTemporalTypeException` when the readable pattern holds a time field (lines 185-186). That happens after the shareholder checks, so the Java run fails with two blocks added where the model reports `Done`. The attribution line (line 92) formats the same way.
- Floating point: prices and sums are exact reals. `double` rounding in `price * amount` and in the running sum is not modelled.
- `Invoice.TimesIsProduct`: the line total is repeated addition, proved equal to the product. This does not capture rounding of the `double` product.
- JSON text: reading the file and parsing JSON text are not modelled. The constructor takes the parsed array.
- `WooCommerce.GetDouble`: it takes a JSON number as is, and reads a string only in plain decimal form. Exponents, surrounding whitespace, the type suffixes `d`, `D`, `f` and `F` ("1.5d"), hexadecimal, `NaN` and `Infinity` are not accepted.
- `Jdk.ParseInt`: only ASCII digits are accepted. `Integer.parseInt` also takes other Unicode decimal digits.
- `LocalDate.parse` with the WooCommerce date pattern is the parameter `parseDate`.
- Exceptions: `ClassCastException`, `JSONException`, `NumberFormatException`, `ArrayIndexOutOfBoundsException` and `DateTimeParseException` are error values, and the first one stops `deserialize`. Orders added before it stay, as in Java.
- `WooCommerce.WooCommerceDataDeserializer.AddOrder` is the body of the `deserialize` loop, split out as its own method.
- The other deserializers of the `data` package, the configuration readers and `Main` are not part of this model.
- E-mail sending: SMTP properties, `Session`, `Authenticator`, `InternetAddress.parse`, attaching the file's bytes and `Transport.send` are not modelled. The recipients are kept as the given string.
- `Notification.EmailService.constructor` takes only the sender and the texts. The host, port, user and password parameters only configure the session.
- Concurrency: it is not modelled. Each generation works on its own state.
