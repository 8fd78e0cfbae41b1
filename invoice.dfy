/**
 * What `InvoiceGenerator` puts into an invoice, as functions of its inputs:
 * the invoice identifier and file name, every table and paragraph, and the
 * sequence of blocks one generation adds to the document before it ends,
 * successfully or at the first failure.
 */
module Invoice {
  import opened Results
  import opened Jdk
  import opened Model
  import opened Layout

  const FILE_TYPE := ".pdf"

  /** The text of the blank cells that pad the data and product tables. */
  const EMPTY_TEXT := " "

  /** The invoice layout configuration, one component per record component. */
  datatype InvoiceConfiguration = InvoiceConfiguration(
    outputPath: string,
    logoPath: string,
    letteringPath: string,
    signaturePath: string,
    logoScalePercent: int,
    letteringScalePercent: int,
    signatureScalePercent: int,
    dateFormatReadable: string,
    dateFormat: string,
    currencyFormat: string,
    quantityFormat: string,
    headerFontSize: int,
    headingFontSize: int,
    paragraphFontSize: int,
    footerFontSize: int,
    contentWidth: int,
    defaultSpacing: int,
    lineSeparatorWidth: int,
    lineSeparatorOffset: int,
    headerTableProportions: seq<int>,
    dataTableProportions: seq<int>,
    innerDataTableProportions: seq<int>,
    header: string,
    heading: string,
    phoneLabel: string,
    emailLabel: string,
    invoiceNumberLabel: string,
    customerIdLabel: string,
    invoiceDateLabel: string,
    performanceDateLabel: string,
    productDeclarationLabel: string,
    productQuantityLabel: string,
    productSinglePriceLabel: string,
    productSumPriceLabel: string,
    productsSumPriceLabel: string,
    ibanLabel: string,
    bicLabel: string,
    bankLabel: string,
    taxNumberLabel: string,
    paragraph1: string,
    paragraph2: string,
    paragraph3: string)

  /** The pattern-driven formatters (`DateTimeFormatter.ofPattern`,
      `DecimalFormat`): a date or a number and a pattern give a text. */
  datatype Formats = Formats(formatDate: (Date, string) -> string, formatNumber: (real, string) -> string)

  /** What the file system allows: image files that can be read and output
      files that can be created. */
  datatype Environment = Environment(readable: set<string>, writable: set<string>)

  datatype Failure =
    | OutputNotWritable(path: string)                    // the output stream cannot be opened
    | ImageNotReadable(path: string)                     // an image cannot be loaded
    | WrongColumnCount(columns: nat, proportions: nat)   // setWidths with the wrong number of proportions
    | MissingShareholder(index: nat)                     // shareholders.get(index) out of bounds

  datatype Status = Done | Failed(failure: Failure)

  /** The blocks one generation added to the document, and how it ended. */
  datatype Run = Run(added: seq<Block>, status: Status)

  // ---------------------------------------------------------------------------
  // Identity

  /** The formatted order date, a dash and the order number. */
  function InvoiceId(formats: Formats, config: InvoiceConfiguration, order: Order): string {
    formats.formatDate(order.orderDate, config.dateFormat) + "-" + order.orderNumber
  }

  function OutputFileName(config: InvoiceConfiguration, id: string): string {
    config.outputPath + id + FILE_TYPE
  }

  /** The identifier splits back into the formatted date, a dash and the
      order number verbatim; the file name into the output path, the
      identifier and ".pdf". */
  lemma IdentityLayout(formats: Formats, config: InvoiceConfiguration, order: Order)
    ensures var date := formats.formatDate(order.orderDate, config.dateFormat);
      var id := InvoiceId(formats, config, order);
      var file := OutputFileName(config, id);
      && |id| == |date| + 1 + |order.orderNumber|
      && id[..|date|] == date && id[|date|] == '-' && id[|date| + 1..] == order.orderNumber
      && |file| == |config.outputPath| + |id| + 4
      && file[..|config.outputPath|] == config.outputPath
      && file[|config.outputPath|..|file| - 4] == id
      && file[|file| - 4..] == ".pdf"
  {
    var id := InvoiceId(formats, config, order);
    var file := OutputFileName(config, id);
    assert file[|config.outputPath|..|file| - 4] == id;
  }

  /** Invoices whose order dates format alike are told apart by their order
      numbers: different numbers give different identifiers and files. */
  lemma DistinctOrdersDistinctFiles(formats: Formats, config: InvoiceConfiguration, a: Order, b: Order)
    requires formats.formatDate(a.orderDate, config.dateFormat) == formats.formatDate(b.orderDate, config.dateFormat)
    requires a.orderNumber != b.orderNumber
    ensures InvoiceId(formats, config, a) != InvoiceId(formats, config, b)
    ensures OutputFileName(config, InvoiceId(formats, config, a)) != OutputFileName(config, InvoiceId(formats, config, b))
  {
    IdentityLayout(formats, config, a);
    IdentityLayout(formats, config, b);
  }

  // ---------------------------------------------------------------------------
  // Fonts, rules, images, tables with proportions

  function HeaderFont(config: InvoiceConfiguration): Font {
    Font(HELVETICA, config.headerFontSize, Black)
  }

  function HeadingFont(config: InvoiceConfiguration): Font {
    Font(HELVETICA, config.headingFontSize, Black)
  }

  function ParagraphFont(config: InvoiceConfiguration): Font {
    Font(HELVETICA, config.paragraphFontSize, Black)
  }

  function FooterFont(config: InvoiceConfiguration): Font {
    Font(HELVETICA, config.footerFontSize, Gray)
  }

  function SeparatorOf(config: InvoiceConfiguration): LineSeparator {
    LineSeparator(config.lineSeparatorWidth, config.contentWidth, Black, AlignBottom, config.lineSeparatorOffset)
  }

  /** Loading an image and scaling it; fails when the file cannot be read. */
  function LoadImage(env: Environment, path: string, scalePercent: int): (r: Result<Image, Failure>)
    ensures r.Ok? <==> path in env.readable
    ensures r.Ok? ==> r.value == Image(path, scalePercent)
    ensures r.Err? ==> r.error == ImageNotReadable(path)
  {
    if path in env.readable then Ok(Image(path, scalePercent)) else Err(ImageNotReadable(path))
  }

  /** A new table given explicit proportions; refused unless there is one
      proportion per column. */
  function SizedTable(columns: nat, proportions: seq<int>): (r: Result<TableValue, Failure>)
    requires columns > 0
    ensures r.Ok? <==> |proportions| == columns
    ensures r.Ok? ==> (WellFormed(r.value) && r.value.numColumns == columns && r.value.widths == proportions
                       && r.value.cells == [] && r.value.headerRows == 0)
    ensures r.Err? ==> r.error == WrongColumnCount(columns, |proportions|)
  {
    match WithWidths(EmptyTable(columns), proportions)
    case Some(t) => Ok(t)
    case None => Err(WrongColumnCount(columns, |proportions|))
  }

  /** A new boxed, top-left paragraph cell in the given font. */
  predicate PlainText(c: Cell, font: Font) {
    c.content.Text? && c == TextCell(c.content.text, font)
  }

  // ---------------------------------------------------------------------------
  // Header

  /** The two-column header: the configured header text, then a nested
      two-column table with the lettering and the logo; every cell borderless. */
  function HeaderTable(config: InvoiceConfiguration, env: Environment): Result<TableValue, Failure> {
    var title := Cell(Text(config.header, HeaderFont(config)), NO_BORDER, AlignLeft, AlignMiddle);
    var lettering :- LoadImage(env, config.letteringPath, config.letteringScalePercent);
    var logo :- LoadImage(env, config.logoPath, config.logoScalePercent);
    var inner :- SizedTable(2, config.headerTableProportions);
    var pictures := [Cell(Picture(lettering), NO_BORDER, AlignCenter, AlignMiddle), Cell(Picture(logo), NO_BORDER, AlignCenter, AlignMiddle)];
    var innerCell := TableCell(Appended(inner, pictures)).(border := NO_BORDER);
    Ok(Appended(EmptyTable(2), [title, innerCell]))
  }

  /** The header needs the lettering image, then the logo image, then two
      proportions, and reports the first of them that is missing. */
  lemma HeaderOutcome(config: InvoiceConfiguration, env: Environment)
    ensures var r := HeaderTable(config, env);
      && (r.Ok? <==> config.letteringPath in env.readable && config.logoPath in env.readable
                     && |config.headerTableProportions| == 2)
      && (config.letteringPath !in env.readable ==> r == Err(ImageNotReadable(config.letteringPath)))
      && (config.letteringPath in env.readable && config.logoPath !in env.readable ==>
            r == Err(ImageNotReadable(config.logoPath)))
      && (config.letteringPath in env.readable && config.logoPath in env.readable && |config.headerTableProportions| != 2 ==>
            r == Err(WrongColumnCount(2, |config.headerTableProportions|)))
  {
  }

  /** The header: the header text beside a nested table with the lettering
      and the logo, every cell borderless. */
  lemma HeaderLayout(config: InvoiceConfiguration, env: Environment)
    ensures var r := HeaderTable(config, env);
      r.Ok? ==>
        var t := r.value;
        && WellFormed(t) && t.numColumns == 2 && |t.cells| == 2
        && t.cells[0] == Cell(Text(config.header, HeaderFont(config)), NO_BORDER, AlignLeft, AlignMiddle)
        && t.cells[1].border == NO_BORDER && t.cells[1].content.Nested?
        && var inner := t.cells[1].content.table;
        && inner.widths == config.headerTableProportions
        && |inner.cells| == 2
        && inner.cells[0] == Cell(Picture(Image(config.letteringPath, config.letteringScalePercent)), NO_BORDER, AlignCenter, AlignMiddle)
        && inner.cells[1] == Cell(Picture(Image(config.logoPath, config.logoScalePercent)), NO_BORDER, AlignCenter, AlignMiddle)
  {
    var r := HeaderTable(config, env);
    if r.Ok? {
      var t := r.value;
      var inner := t.cells[1].content.table;
      assert WellFormed(inner);
      assert forall i :: 0 <= i < |t.cells| && t.cells[i].content.Nested? ==> i == 1;
    }
  }

  // ---------------------------------------------------------------------------
  // Data table

  /** Company name, declaration, street, zip and location, country. */
  function CompanyInformation(company: Company, font: Font): (cells: seq<Cell>)
    ensures |cells| == 5
    ensures forall i :: 0 <= i < 5 ==> cells[i].border == BOX && cells[i].content.Text? && cells[i].content.font == font
  {
    [ TextCell(company.name, font),
      TextCell(company.declaration, font),
      TextCell(company.address.street + " " + company.address.streetNumber, font),
      TextCell(company.address.zipCode + " " + company.address.location, font),
      TextCell(company.address.country, font) ]
  }

  /** Customer full name, street, zip and location, country. */
  function CustomerInformation(customer: Person, font: Font): (cells: seq<Cell>)
    ensures |cells| == 4
    ensures forall i :: 0 <= i < 4 ==> cells[i].border == BOX && cells[i].content.Text? && cells[i].content.font == font
  {
    [ TextCell(customer.firstName + " " + customer.lastName, font),
      TextCell(customer.address.street + " " + customer.address.streetNumber, font),
      TextCell(customer.address.zipCode + " " + customer.address.location, font),
      TextCell(customer.address.country, font) ]
  }

  /** The fourteen cells of the data table, two per row: the customer's four
      cells in the left column beside the company's first four; then
      (blank, country), (blank, blank), (blank, inner table). */
  function DataCells(customer: seq<Cell>, company: seq<Cell>, blank: Cell, inner: Cell): (cells: seq<Cell>)
    requires |customer| == 4 && |company| == 5
    ensures |cells| == 14
    ensures forall k :: 0 <= k < 4 ==> cells[2 * k] == customer[k] && cells[2 * k + 1] == company[k]
    ensures cells[8] == blank && cells[9] == company[4]
    ensures cells[10] == blank && cells[11] == blank
    ensures cells[12] == blank && cells[13] == inner
  {
    [ customer[0], company[0],
      customer[1], company[1],
      customer[2], company[2],
      customer[3], company[3],
      blank, company[4],
      blank, blank,
      blank, inner ]
  }

  /** The fourteen cells of the inner data table: seven label/value pairs,
      every label ending in a colon. */
  function InnerDataCells(config: InvoiceConfiguration, formats: Formats, a: Person, b: Person, id: string,
                          customerId: Int32, invoiceDate: Date, performanceDate: Date): (cells: seq<Cell>)
    ensures |cells| == 14
    ensures forall i :: 0 <= i < 14 ==> PlainText(cells[i], ParagraphFont(config))
    ensures forall k :: 0 <= k < 7 ==> (cells[2 * k].content.Text? && cells[2 * k].content.text != []
                                        && cells[2 * k].content.text[|cells[2 * k].content.text| - 1] == ':')
  {
    var font := ParagraphFont(config);
    [ TextCell(config.phoneLabel + " (" + a.lastName + "):", font), TextCell(a.contact.phoneNumber, font),
      TextCell(config.phoneLabel + " (" + b.lastName + "):", font), TextCell(b.contact.phoneNumber, font),
      TextCell(config.emailLabel + ":", font), TextCell(b.contact.email, font),
      TextCell(config.invoiceNumberLabel + ":", font), TextCell(id, font),
      TextCell(config.customerIdLabel + ":", font), TextCell(IntToString(customerId), font),
      TextCell(config.invoiceDateLabel + ":", font), TextCell(formats.formatDate(invoiceDate, config.dateFormatReadable), font),
      TextCell(config.performanceDateLabel + ":", font), TextCell(formats.formatDate(performanceDate, config.dateFormatReadable), font) ]
  }

  /** The inner data table wrapped in a cell. It needs two shareholders: the
      phone numbers of shareholders 0 and 1 and the e-mail of shareholder 1. */
  function InnerDataCell(config: InvoiceConfiguration, formats: Formats, company: Company, customerId: Int32,
                         id: string, invoiceDate: Date, performanceDate: Date): Result<Cell, Failure>
  {
    var table :- SizedTable(2, config.innerDataTableProportions);
    if |company.shareholders| < 1 then Err(MissingShareholder(0))
    else if |company.shareholders| < 2 then Err(MissingShareholder(1))
    else
      var cells := InnerDataCells(config, formats, company.shareholders[0], company.shareholders[1], id,
                                  customerId, invoiceDate, performanceDate);
      Ok(TableCell(WithBorders(Appended(table, cells), NO_BORDER)))
  }

  function DataTable(config: InvoiceConfiguration, formats: Formats, company: Company, customer: Person,
                     customerId: Int32, id: string, invoiceDate: Date, performanceDate: Date): Result<TableValue, Failure>
  {
    var table :- SizedTable(2, config.dataTableProportions);
    var font := ParagraphFont(config);
    var inner :- InnerDataCell(config, formats, company, customerId, id, invoiceDate, performanceDate);
    var cells := DataCells(CustomerInformation(customer, font), CompanyInformation(company, font), TextCell(EMPTY_TEXT, font), inner);
    Ok(WithBorders(Appended(table, cells), NO_BORDER))
  }

  /** The inner data table needs two proportions and two shareholders; it
      reports the proportions first, then the first missing shareholder. */
  lemma InnerDataOutcome(config: InvoiceConfiguration, formats: Formats, company: Company, customerId: Int32,
                         id: string, invoiceDate: Date, performanceDate: Date)
    ensures var r := InnerDataCell(config, formats, company, customerId, id, invoiceDate, performanceDate);
      && (r.Ok? <==> |config.innerDataTableProportions| == 2 && |company.shareholders| >= 2)
      && (|config.innerDataTableProportions| != 2 ==> r == Err(WrongColumnCount(2, |config.innerDataTableProportions|)))
      && (r.Err? && |config.innerDataTableProportions| == 2 ==> r.error == MissingShareholder(|company.shareholders|))
  {
  }

  /** The cells of the inner data table are the fourteen label and value
      cells, in order, with their borders removed. */
  lemma InnerDataTableCells(config: InvoiceConfiguration, formats: Formats, company: Company, customerId: Int32,
                            id: string, invoiceDate: Date, performanceDate: Date)
    requires |config.innerDataTableProportions| == 2 && |company.shareholders| >= 2
    ensures var r := InnerDataCell(config, formats, company, customerId, id, invoiceDate, performanceDate);
      var cells := InnerDataCells(config, formats, company.shareholders[0], company.shareholders[1], id,
                                  customerId, invoiceDate, performanceDate);
      && r.Ok? && r.value.content.Nested?
      && |r.value.content.table.cells| == 14
      && forall i :: 0 <= i < 14 ==> r.value.content.table.cells[i] == cells[i].(border := NO_BORDER)
  {
    var table := SizedTable(2, config.innerDataTableProportions).value;
    var cells := InnerDataCells(config, formats, company.shareholders[0], company.shareholders[1], id,
                                customerId, invoiceDate, performanceDate);
    FullRowsAllBordered(Appended(table, cells), NO_BORDER);
  }

  /** The inner data table: its proportions, fourteen borderless paragraph cells. */
  lemma InnerDataShape(config: InvoiceConfiguration, formats: Formats, company: Company, customerId: Int32,
                       id: string, invoiceDate: Date, performanceDate: Date)
    requires |config.innerDataTableProportions| == 2 && |company.shareholders| >= 2
    ensures var r := InnerDataCell(config, formats, company, customerId, id, invoiceDate, performanceDate);
      && r.Ok? && r.value.content.Nested?
      && var t := r.value.content.table;
      && WellFormed(t) && t.numColumns == 2 && t.widths == config.innerDataTableProportions && |t.cells| == 14
      && (forall i :: 0 <= i < 14 ==> t.cells[i].border == NO_BORDER && t.cells[i].content.Text?)
  {
    var table := SizedTable(2, config.innerDataTableProportions).value;
    var cells := InnerDataCells(config, formats, company.shareholders[0], company.shareholders[1], id,
                                customerId, invoiceDate, performanceDate);
    var t := WithBorders(Appended(table, cells), NO_BORDER);
    FullRowsAllBordered(Appended(table, cells), NO_BORDER);
    assert forall i :: 0 <= i < |t.cells| ==> !t.cells[i].content.Nested?;
  }

  /** The values of the inner data table, in order: the phone numbers of
      shareholders 0 and 1, the e-mail of shareholder 1, the invoice
      identifier, the customer identifier, and the invoice and performance
      dates. */
  lemma InnerDataValues(config: InvoiceConfiguration, formats: Formats, company: Company, customerId: Int32,
                        id: string, invoiceDate: Date, performanceDate: Date)
    requires |config.innerDataTableProportions| == 2 && |company.shareholders| >= 2
    ensures var r := InnerDataCell(config, formats, company, customerId, id, invoiceDate, performanceDate);
      var a := company.shareholders[0];
      var b := company.shareholders[1];
      && r.Ok? && r.value.content.Nested?
      && var t := r.value.content.table;
      && |t.cells| == 14
      && (forall i :: 0 <= i < 14 ==> t.cells[i].content.Text?)
      && t.cells[1].content.text == a.contact.phoneNumber
      && t.cells[3].content.text == b.contact.phoneNumber
      && t.cells[5].content.text == b.contact.email
      && t.cells[7].content.text == id
      && t.cells[9].content.text == IntToString(customerId)
      && t.cells[11].content.text == formats.formatDate(invoiceDate, config.dateFormatReadable)
      && t.cells[13].content.text == formats.formatDate(performanceDate, config.dateFormatReadable)
  {
    InnerDataTableCells(config, formats, company, customerId, id, invoiceDate, performanceDate);
  }

  /** Only the last value cell of the inner table depends on the performance
      date: two dates give the same outcome and the same cells elsewhere. */
  lemma PerformanceDateOnlyInLastCell(config: InvoiceConfiguration, formats: Formats, company: Company,
                                      customerId: Int32, id: string, invoiceDate: Date, p1: Date, p2: Date)
    ensures var r1 := InnerDataCell(config, formats, company, customerId, id, invoiceDate, p1);
      var r2 := InnerDataCell(config, formats, company, customerId, id, invoiceDate, p2);
      && r1.Ok? == r2.Ok?
      && (r1.Err? ==> r1 == r2)
      && (r1.Ok? ==>
        && r1.value.content.Nested? && r2.value.content.Nested?
        && var t1 := r1.value.content.table;
        && var t2 := r2.value.content.table;
        && t1.(cells := []) == t2.(cells := [])
        && |t1.cells| == |t2.cells| == 14
        && forall i :: 0 <= i < 13 ==> t1.cells[i] == t2.cells[i])
  {
  }

  /** The data table needs its two proportions first, then what the inner
      data table needs, and reports the first of them that is missing. */
  lemma DataTableOutcome(config: InvoiceConfiguration, formats: Formats, company: Company, customer: Person,
                         customerId: Int32, id: string, invoiceDate: Date, performanceDate: Date)
    ensures var r := DataTable(config, formats, company, customer, customerId, id, invoiceDate, performanceDate);
      var inner := InnerDataCell(config, formats, company, customerId, id, invoiceDate, performanceDate);
      && (r.Ok? <==> |config.dataTableProportions| == 2 && inner.Ok?)
      && (|config.dataTableProportions| != 2 ==> r == Err(WrongColumnCount(2, |config.dataTableProportions|)))
      && (|config.dataTableProportions| == 2 && inner.Err? ==> r == Err(inner.error))
  {
  }

  /** The data table: its proportions, fourteen borderless cells in seven
      rows, customer beside company for four rows, the country, a blank row
      and the inner table last. */
  lemma DataTableLayout(config: InvoiceConfiguration, formats: Formats, company: Company, customer: Person,
                        customerId: Int32, id: string, invoiceDate: Date, performanceDate: Date)
    ensures var r := DataTable(config, formats, company, customer, customerId, id, invoiceDate, performanceDate);
      var inner := InnerDataCell(config, formats, company, customerId, id, invoiceDate, performanceDate);
      var font := ParagraphFont(config);
      var customerCells := CustomerInformation(customer, font);
      var companyCells := CompanyInformation(company, font);
      var blank := TextCell(EMPTY_TEXT, font).(border := NO_BORDER);
      r.Ok? ==>
        var t := r.value;
        && WellFormed(t) && t.numColumns == 2 && t.widths == config.dataTableProportions
        && |t.cells| == 14 && RowCount(t) == 7
        && (forall i :: 0 <= i < 14 ==> t.cells[i].border == NO_BORDER)
        && (forall k :: 0 <= k < 4 ==> Row(t, k) == [customerCells[k].(border := NO_BORDER), companyCells[k].(border := NO_BORDER)])
        && Row(t, 4) == [blank, companyCells[4].(border := NO_BORDER)]
        && Row(t, 5) == [blank, blank]
        && inner.Ok? && Row(t, 6) == [blank, inner.value.(border := NO_BORDER)]
  {
    var r := DataTable(config, formats, company, customer, customerId, id, invoiceDate, performanceDate);
    if r.Ok? {
      DataTableOutcome(config, formats, company, customer, customerId, id, invoiceDate, performanceDate);
      var font := ParagraphFont(config);
      var inner := InnerDataCell(config, formats, company, customerId, id, invoiceDate, performanceDate);
      var table := SizedTable(2, config.dataTableProportions).value;
      var cells := DataCells(CustomerInformation(customer, font), CompanyInformation(company, font), TextCell(EMPTY_TEXT, font), inner.value);
      var t := r.value;
      assert t == WithBorders(Appended(table, cells), NO_BORDER);
      FullRowsAllBordered(Appended(table, cells), NO_BORDER);
      InnerDataOutcome(config, formats, company, customerId, id, invoiceDate, performanceDate);
      InnerDataShape(config, formats, company, customerId, id, invoiceDate, performanceDate);
      forall i | 0 <= i < |t.cells| && t.cells[i].content.Nested?
        ensures WellFormed(t.cells[i].content.table)
      {
        assert i == 13;
      }
      forall k | 0 <= k < 7
        ensures Row(t, k) == [t.cells[2 * k], t.cells[2 * k + 1]]
      {
        RowAt(t, k, 0);
        RowAt(t, k, 1);
      }
    }
  }

  // ---------------------------------------------------------------------------
  // Heading, salutation, attribution, signature

  function Heading(config: InvoiceConfiguration, id: string): Block {
    Paragraph(config.heading + " " + id, HeadingFont(config))
  }

  function Salutation(config: InvoiceConfiguration, lastName: string): Block {
    Paragraph(config.paragraph1 + " " + lastName + ",", ParagraphFont(config))
  }

  function Signature(config: InvoiceConfiguration, env: Environment): Result<Block, Failure> {
    var image :- LoadImage(env, config.signaturePath, config.signatureScalePercent);
    Ok(Figure(image))
  }

  /** The first shareholder's full name, the company's location and the
      readable invoice date. */
  function Attribution(config: InvoiceConfiguration, formats: Formats, company: Company, invoiceDate: Date): Result<Block, Failure> {
    if |company.shareholders| == 0 then Err(MissingShareholder(0))
    else
      var first := company.shareholders[0];
      Ok(Paragraph(first.firstName + " " + first.lastName + " (" + company.address.location + ", "
                   + formats.formatDate(invoiceDate, config.dateFormatReadable) + ")", ParagraphFont(config)))
  }

  // ---------------------------------------------------------------------------
  // Product table

  /** `x` taken `n` times (negated for negative `n`): the product `x * n`,
      spelled as a sum so that the line totals stay linear arithmetic. */
  function Times(x: real, n: int): real
    decreases if n < 0 then -n else n
  {
    if n == 0 then 0.0 else if n > 0 then Times(x, n - 1) + x else Times(x, n + 1) - x
  }

  lemma {:induction false} TimesIsProduct(x: real, n: int)
    ensures Times(x, n) == x * n as real
    decreases if n < 0 then -n else n
  {
    if n > 0 {
      TimesIsProduct(x, n - 1);
    } else if n < 0 {
      TimesIsProduct(x, n + 1);
    }
  }

  /** Unit price times amount. */
  function LineTotal(p: Product): real {
    Times(p.price, p.amount)
  }

  /** The grand total as the generator accumulates it: line by line, in list order. */
  function Total(products: seq<Product>): real {
    if products == [] then 0.0 else Total(products[..|products| - 1]) + LineTotal(products[|products| - 1])
  }

  /** The sum of the line totals, read from the first product on. */
  function SumOfLineTotals(products: seq<Product>): real {
    if products == [] then 0.0 else LineTotal(products[0]) + SumOfLineTotals(products[1..])
  }

  lemma {:induction false} SumOfLineTotalsSnoc(products: seq<Product>, p: Product)
    ensures SumOfLineTotals(products + [p]) == SumOfLineTotals(products) + LineTotal(p)
  {
    if products != [] {
      assert (products + [p])[1..] == products[1..] + [p];
      SumOfLineTotalsSnoc(products[1..], p);
    }
  }

  /** The accumulated grand total is the sum of the line totals. */
  lemma {:induction false} TotalIsSumOfLineTotals(products: seq<Product>)
    ensures Total(products) == SumOfLineTotals(products)
  {
    if products != [] {
      var front := products[..|products| - 1];
      var last := products[|products| - 1];
      TotalIsSumOfLineTotals(front);
      SumOfLineTotalsSnoc(front, last);
      assert front + [last] == products;
    }
  }

  /** The total of two lists one after the other is the sum of their totals;
      so the shipping line adds exactly its own price times its amount. */
  lemma {:induction false} TotalAppend(a: seq<Product>, b: seq<Product>)
    ensures Total(a + b) == Total(a) + Total(b)
    decreases |b|
  {
    if b == [] {
      assert a + b == a;
    } else {
      var b' := b[..|b| - 1];
      assert (a + b)[..|a + b| - 1] == a + b';
      assert (a + b)[|a + b| - 1] == b[|b| - 1];
      TotalAppend(a, b');
    }
  }

  /** The worked example: 3 at 9.99 and shipping 4.50 make 34.47. */
  lemma TotalExample()
    ensures Total([Product("Widget", 9.99, 3), Product("Versand", 4.50, 1)]) == 34.47
  {
    var widget := Product("Widget", 9.99, 3);
    var shipping := Product("Versand", 4.50, 1);
    assert [widget, shipping][..1] == [widget];
    assert [widget][..0] == [];
    assert Total([widget]) == 29.97;
  }

  /** The four cells of one product: name, amount, unit price, line total. */
  function ProductRow(config: InvoiceConfiguration, formats: Formats, p: Product): (row: seq<Cell>)
    ensures |row| == 4
    ensures forall i :: 0 <= i < 4 ==> PlainText(row[i], ParagraphFont(config))
  {
    var font := ParagraphFont(config);
    [ TextCell(p.name, font),
      TextCell(formats.formatNumber(p.amount as real, config.quantityFormat), font),
      TextCell(formats.formatNumber(p.price, config.currencyFormat), font),
      TextCell(formats.formatNumber(LineTotal(p), config.currencyFormat), font) ]
  }

  /** The rows of all products, in list order, as the loop appends them. */
  function ProductRows(config: InvoiceConfiguration, formats: Formats, products: seq<Product>): (cells: seq<Cell>)
    ensures |cells| == 4 * |products|
  {
    if products == [] then []
    else ProductRows(config, formats, products[..|products| - 1]) + ProductRow(config, formats, products[|products| - 1])
  }

  /** Every cell of the product rows is a boxed paragraph in the paragraph font. */
  lemma {:induction false} ProductRowsPlain(config: InvoiceConfiguration, formats: Formats, products: seq<Product>)
    ensures forall i :: 0 <= i < 4 * |products| ==> PlainText(ProductRows(config, formats, products)[i], ParagraphFont(config))
  {
    if products != [] {
      var front := products[..|products| - 1];
      ProductRowsPlain(config, formats, front);
      var rows := ProductRows(config, formats, products);
      var row := ProductRow(config, formats, products[|products| - 1]);
      assert rows == ProductRows(config, formats, front) + row;
      forall i | 0 <= i < 4 * |products|
        ensures PlainText(rows[i], ParagraphFont(config))
      {
        if i >= 4 * |front| {
          assert rows[i] == row[i - 4 * |front|];
        }
      }
    }
  }

  lemma {:induction false} ProductRowsAt(config: InvoiceConfiguration, formats: Formats, products: seq<Product>, k: nat)
    requires k < |products|
    ensures ProductRows(config, formats, products)[4 * k..4 * k + 4] == ProductRow(config, formats, products[k])
  {
    var front := products[..|products| - 1];
    if k < |front| {
      ProductRowsAt(config, formats, front, k);
      assert products[k] == front[k];
    }
  }

  function ProductHeaderRow(config: InvoiceConfiguration): seq<Cell> {
    var font := ParagraphFont(config);
    [ TextCell(config.productDeclarationLabel, font), TextCell(config.productQuantityLabel, font),
      TextCell(config.productSinglePriceLabel, font), TextCell(config.productSumPriceLabel, font) ]
  }

  function SumRow(config: InvoiceConfiguration, formats: Formats, sum: real): seq<Cell> {
    var font := ParagraphFont(config);
    [ TextCell(EMPTY_TEXT, font), TextCell(EMPTY_TEXT, font),
      TextCell(config.productsSumPriceLabel + ":", font), TextCell(formats.formatNumber(sum, config.currencyFormat), font) ]
  }

  function ProductTable(config: InvoiceConfiguration, formats: Formats, products: seq<Product>): TableValue {
    var cells := ProductHeaderRow(config) + ProductRows(config, formats, products) + SumRow(config, formats, Total(products));
    Appended(EmptyTable(4), cells).(headerRows := 1)
  }

  /** A four-column table of `4 * m` cells has `m` rows, each four consecutive cells. */
  lemma RowsOfFour(t: TableValue, m: nat)
    requires t.numColumns == 4 && |t.cells| == 4 * m
    ensures RowCount(t) == m
    ensures forall r :: 0 <= r < m ==> Row(t, r) == t.cells[4 * r..4 * r + 4]
  {
  }

  /** The product table has four columns, one declared header row and
      `|products| + 2` complete rows of boxed paragraph cells. */
  lemma ProductTableShape(config: InvoiceConfiguration, formats: Formats, products: seq<Product>)
    ensures var t := ProductTable(config, formats, products);
      && WellFormed(t) && t.numColumns == 4 && t.headerRows == 1
      && |t.cells| == 4 * (|products| + 2) && RowCount(t) == |products| + 2
      && (forall i :: 0 <= i < |t.cells| ==> PlainText(t.cells[i], ParagraphFont(config)))
  {
    var t := ProductTable(config, formats, products);
    var rows := ProductRows(config, formats, products);
    var n := |products|;
    var header := ProductHeaderRow(config);
    var sum := SumRow(config, formats, Total(products));
    assert t.cells == header + rows + sum;
    RowsOfFour(t, n + 2);
    ProductRowsPlain(config, formats, products);
    assert forall i :: 0 <= i < 4 ==> PlainText(header[i], ParagraphFont(config));
    assert forall i :: 0 <= i < 4 ==> PlainText(sum[i], ParagraphFont(config));
    forall i | 0 <= i < |t.cells|
      ensures PlainText(t.cells[i], ParagraphFont(config))
    {
      if i < 4 {
        assert t.cells[i] == header[i];
      } else if i < 4 * n + 4 {
        assert t.cells[i] == rows[i - 4];
      } else {
        assert t.cells[i] == sum[i - 4 * n - 4];
      }
    }
  }

  /** The first row of the product table holds the four column labels. */
  lemma ProductTableHeader(config: InvoiceConfiguration, formats: Formats, products: seq<Product>)
    ensures var t := ProductTable(config, formats, products);
      RowCount(t) == |products| + 2 && Row(t, 0) == ProductHeaderRow(config)
  {
    var t := ProductTable(config, formats, products);
    var header := ProductHeaderRow(config);
    var rest := ProductRows(config, formats, products) + SumRow(config, formats, Total(products));
    assert t.cells == header + rest;
    RowsOfFour(t, |products| + 2);
  }

  /** Row `k + 1` of the product table is the row of product `k`: the
      products appear in list order. */
  lemma ProductTableProducts(config: InvoiceConfiguration, formats: Formats, products: seq<Product>)
    ensures var t := ProductTable(config, formats, products);
      && RowCount(t) == |products| + 2
      && forall k :: 0 <= k < |products| ==> Row(t, k + 1) == ProductRow(config, formats, products[k])
  {
    var t := ProductTable(config, formats, products);
    var header := ProductHeaderRow(config);
    var rows := ProductRows(config, formats, products);
    var sum := SumRow(config, formats, Total(products));
    assert t.cells == header + rows + sum;
    RowsOfFour(t, |products| + 2);
    forall k | 0 <= k < |products|
      ensures Row(t, k + 1) == ProductRow(config, formats, products[k])
    {
      ProductRowsAt(config, formats, products, k);
      assert t.cells[4 * k + 4..4 * k + 8] == rows[4 * k..4 * k + 4];
    }
  }

  /** A four-column table whose cells end with four given cells has those
      four as its last row. */
  lemma LastRowOfFour(t: TableValue, front: seq<Cell>, last: seq<Cell>, m: nat)
    requires t.numColumns == 4 && t.cells == front + last && |front| == 4 * m && |last| == 4
    ensures RowCount(t) == m + 1 && Row(t, m) == last
  {
    RowsOfFour(t, m + 1);
    assert t.cells[4 * m..4 * m + 4] == last;
  }

  /** The cells of the product table: everything before the sum row, then
      the sum row. */
  lemma ProductTableCells(config: InvoiceConfiguration, formats: Formats, products: seq<Product>)
    ensures var t := ProductTable(config, formats, products);
      var front := ProductHeaderRow(config) + ProductRows(config, formats, products);
      && t.numColumns == 4
      && t.cells == front + SumRow(config, formats, Total(products))
      && |front| == 4 * (|products| + 1)
  {
  }

  /** The last row of the product table shows the sum of the line totals. */
  lemma ProductTableSum(config: InvoiceConfiguration, formats: Formats, products: seq<Product>)
    ensures var t := ProductTable(config, formats, products);
      && RowCount(t) == |products| + 2
      && Row(t, |products| + 1) == SumRow(config, formats, SumOfLineTotals(products))
  {
    ProductTableCells(config, formats, products);
    LastRowOfFour(ProductTable(config, formats, products), ProductHeaderRow(config) + ProductRows(config, formats, products),
                  SumRow(config, formats, Total(products)), |products| + 1);
    TotalIsSumOfLineTotals(products);
  }

  // ---------------------------------------------------------------------------
  // Footer

  /** IBAN, BIC, bank name and tax number, each as "label: value". */
  function FinancialInformation(config: InvoiceConfiguration, company: Company, font: Font): (cells: seq<Cell>)
    ensures |cells| == 4
  {
    [ TextCell(config.ibanLabel + ": " + company.bankAccount.iban, font),
      TextCell(config.bicLabel + ": " + company.bankAccount.bic, font),
      TextCell(config.bankLabel + ": " + company.bankAccount.bankName, font),
      TextCell(config.taxNumberLabel + ": " + company.taxNumber, font) ]
  }

  /** The same cells, right-aligned. */
  function RightAligned(cells: seq<Cell>): (aligned: seq<Cell>)
    ensures |aligned| == |cells|
  {
    seq(|cells|, i requires 0 <= i < |cells| => cells[i].(hAlign := AlignRight))
  }

  /** Company information in the left column beside financial information in the right. */
  function FooterCells(company: seq<Cell>, financial: seq<Cell>): (cells: seq<Cell>)
    requires |company| >= 4 && |financial| == 4
    ensures |cells| == 8
    ensures forall k :: 0 <= k < 4 ==> cells[2 * k] == company[k] && cells[2 * k + 1] == financial[k]
  {
    [ company[0], financial[0],
      company[1], financial[1],
      company[2], financial[2],
      company[3], financial[3] ]
  }

  function Footer(config: InvoiceConfiguration, company: Company): TableValue {
    var font := FooterFont(config);
    var cells := FooterCells(CompanyInformation(company, font), RightAligned(FinancialInformation(config, company, font)));
    WithBorders(Appended(EmptyTable(2), cells), NO_BORDER)
  }

  /** The footer: two columns by four rows, borderless, in the footer font;
      left the company's name, declaration, street and location (no
      country), right "label: value" for IBAN, BIC, bank and tax number,
      right-aligned. */
  lemma FooterLayout(config: InvoiceConfiguration, company: Company)
    ensures var t := Footer(config, company);
      var font := FooterFont(config);
      var info := CompanyInformation(company, font);
      && WellFormed(t) && t.numColumns == 2 && |t.cells| == 8 && RowCount(t) == 4
      && (forall i :: 0 <= i < 8 ==> t.cells[i].border == NO_BORDER && t.cells[i].content.Text? && t.cells[i].content.font == font)
      && (forall k :: 0 <= k < 4 ==> Row(t, k)[0] == info[k].(border := NO_BORDER))
      && (forall k :: 0 <= k < 4 ==> Row(t, k)[1].hAlign == AlignRight)
      && Row(t, 0)[1].content.text == config.ibanLabel + ": " + company.bankAccount.iban
      && Row(t, 1)[1].content.text == config.bicLabel + ": " + company.bankAccount.bic
      && Row(t, 2)[1].content.text == config.bankLabel + ": " + company.bankAccount.bankName
      && Row(t, 3)[1].content.text == config.taxNumberLabel + ": " + company.taxNumber
  {
    var font := FooterFont(config);
    var cells := FooterCells(CompanyInformation(company, font), RightAligned(FinancialInformation(config, company, font)));
    var t := Footer(config, company);
    FullRowsAllBordered(Appended(EmptyTable(2), cells), NO_BORDER);
    assert forall i :: 0 <= i < |t.cells| ==> !t.cells[i].content.Nested?;
    forall k | 0 <= k < 4
      ensures Row(t, k) == [t.cells[2 * k], t.cells[2 * k + 1]]
    {
      RowAt(t, k, 0);
      RowAt(t, k, 1);
    }
  }

  // ---------------------------------------------------------------------------
  // The whole document

  /** The blocks between the data table's rule and the signature: heading,
      blank line, salutation, blank line, paragraph 2, product table and
      paragraph 3. */
  function Middle(config: InvoiceConfiguration, formats: Formats, lastName: string, products: seq<Product>,
                  id: string): (blocks: seq<Block>)
    ensures |blocks| == 7
  {
    var font := ParagraphFont(config);
    [ Heading(config, id), NewLine,
      Salutation(config, lastName), NewLine,
      Paragraph(config.paragraph2, font),
      TableBlock(ProductTable(config, formats, products)),
      Paragraph(config.paragraph3, font) ]
  }

  /** A generation from its parts: the output file is opened, then each part
      is added as soon as it is made, and the first part that cannot be made
      ends the generation with the blocks added so far. */
  function Assemble(config: InvoiceConfiguration, writable: bool, fileName: string,
                    header: Result<TableValue, Failure>, data: Result<TableValue, Failure>, middle: seq<Block>,
                    signature: Result<Block, Failure>, attribution: Result<Block, Failure>, footer: TableValue): Run
  {
    if !writable then Run([], Failed(OutputNotWritable(fileName)))
    else
      var start := Start(config, header, data);
      if start.status.Failed? then start
      else Finish(start.added + middle, signature, attribution, footer)
  }

  /** The beginning of a generation in an opened document: the header and a
      rule, then the data table and a rule, each added as soon as it is made. */
  function Start(config: InvoiceConfiguration, header: Result<TableValue, Failure>, data: Result<TableValue, Failure>): Run
  {
    if header.Err? then Run([], Failed(header.error))
    else
      var opening := [TableBlock(header.value), Rule(SeparatorOf(config))];
      if data.Err? then Run(opening, Failed(data.error))
      else Run(opening + [TableBlock(data.value), Rule(SeparatorOf(config))], Done)
  }

  /** The end of a generation, after `body` is in the document: the
      signature, the attribution line and the footer, each added as soon as
      it is made. */
  function Finish(body: seq<Block>, signature: Result<Block, Failure>, attribution: Result<Block, Failure>,
                  footer: TableValue): Run
  {
    if signature.Err? then Run(body, Failed(signature.error))
    else if attribution.Err? then Run(body + [signature.value], Failed(attribution.error))
    else Run(body + [signature.value, attribution.value, TableBlock(footer)], Done)
  }

  /** A generation ends successfully exactly when every part could be made;
      otherwise it reports the first part that failed, and the blocks it
      leaves are those of the parts before it. */
  lemma AssembleOutcome(config: InvoiceConfiguration, writable: bool, fileName: string,
                        header: Result<TableValue, Failure>, data: Result<TableValue, Failure>, middle: seq<Block>,
                        signature: Result<Block, Failure>, attribution: Result<Block, Failure>, footer: TableValue)
    ensures var run := Assemble(config, writable, fileName, header, data, middle, signature, attribution, footer);
      var rule := Rule(SeparatorOf(config));
      && (run.status == Done <==> writable && header.Ok? && data.Ok? && signature.Ok? && attribution.Ok?)
      && (!writable ==> run == Run([], Failed(OutputNotWritable(fileName))))
      && (writable && header.Err? ==> run == Run([], Failed(header.error)))
      && (writable && header.Ok? && data.Err? ==> run == Run([TableBlock(header.value), rule], Failed(data.error)))
      && (writable && header.Ok? && data.Ok? && signature.Err? ==>
            run.status == Failed(signature.error) && |run.added| == 4 + |middle|)
      && (writable && header.Ok? && data.Ok? && signature.Ok? && attribution.Err? ==>
            run.status == Failed(attribution.error) && |run.added| == 5 + |middle|)
      && (run.status == Done ==>
            run.added == [TableBlock(header.value), rule, TableBlock(data.value), rule] + middle
                         + [signature.value, attribution.value, TableBlock(footer)])
  {
  }

  /** Where each part lands in a complete generation whose middle has seven
      blocks: header, rule, data table, rule, the middle, then signature,
      attribution and footer. */
  lemma AssembleDonePositions(config: InvoiceConfiguration, fileName: string,
                              header: Result<TableValue, Failure>, data: Result<TableValue, Failure>, middle: seq<Block>,
                              signature: Result<Block, Failure>, attribution: Result<Block, Failure>, footer: TableValue)
    requires |middle| == 7
    ensures var run := Assemble(config, true, fileName, header, data, middle, signature, attribution, footer);
      var rule := Rule(SeparatorOf(config));
      run.status == Done ==>
        && header.Ok? && data.Ok? && signature.Ok? && attribution.Ok?
        && |run.added| == 14
        && run.added[0] == TableBlock(header.value) && run.added[1] == rule
        && run.added[2] == TableBlock(data.value) && run.added[3] == rule
        && (forall k :: 0 <= k < 7 ==> run.added[4 + k] == middle[k])
        && run.added[11] == signature.value && run.added[12] == attribution.value
        && run.added[13] == TableBlock(footer)
  {
    AssembleOutcome(config, true, fileName, header, data, middle, signature, attribution, footer);
  }

  /** In a complete generation the blocks after the data table's rule are
      the heading, a blank line, the salutation, a blank line, paragraph 2,
      the product table and paragraph 3. */
  lemma AssembleMiddle(config: InvoiceConfiguration, formats: Formats, fileName: string,
                       header: Result<TableValue, Failure>, data: Result<TableValue, Failure>,
                       lastName: string, products: seq<Product>, id: string,
                       signature: Result<Block, Failure>, attribution: Result<Block, Failure>, footer: TableValue)
    ensures var run := Assemble(config, true, fileName, header, data, Middle(config, formats, lastName, products, id),
                                signature, attribution, footer);
      var font := ParagraphFont(config);
      run.status == Done ==>
        && |run.added| == 14
        && run.added[4] == Paragraph(config.heading + " " + id, HeadingFont(config))
        && run.added[5] == NewLine
        && run.added[6] == Paragraph(config.paragraph1 + " " + lastName + ",", font)
        && run.added[7] == NewLine
        && run.added[8] == Paragraph(config.paragraph2, font)
        && run.added[9] == TableBlock(ProductTable(config, formats, products))
        && run.added[10] == Paragraph(config.paragraph3, font)
  {
    var middle := Middle(config, formats, lastName, products, id);
    AssembleDonePositions(config, fileName, header, data, middle, signature, attribution, footer);
  }

  /** A generation adds only well-formed tables when every part it may add
      is well-formed. */
  lemma AssembleTablesWellFormed(config: InvoiceConfiguration, writable: bool, fileName: string,
                                 header: Result<TableValue, Failure>, data: Result<TableValue, Failure>, middle: seq<Block>,
                                 signature: Result<Block, Failure>, attribution: Result<Block, Failure>, footer: TableValue)
    requires header.Ok? ==> WellFormed(header.value)
    requires data.Ok? ==> WellFormed(data.value)
    requires forall i :: 0 <= i < |middle| && middle[i].TableBlock? ==> WellFormed(middle[i].table)
    requires signature.Ok? && signature.value.TableBlock? ==> WellFormed(signature.value.table)
    requires attribution.Ok? && attribution.value.TableBlock? ==> WellFormed(attribution.value.table)
    requires WellFormed(footer)
    ensures var run := Assemble(config, writable, fileName, header, data, middle, signature, attribution, footer);
      forall i :: 0 <= i < |run.added| && run.added[i].TableBlock? ==> WellFormed(run.added[i].table)
  {
    var run := Assemble(config, writable, fileName, header, data, middle, signature, attribution, footer);
    var rule := Rule(SeparatorOf(config));
    if writable && header.Ok? && data.Ok? {
      var body := [TableBlock(header.value), rule] + [TableBlock(data.value), rule] + middle;
      assert forall i :: 0 <= i < |body| && body[i].TableBlock? ==> WellFormed(body[i].table) by {
        forall i | 0 <= i < |body| && body[i].TableBlock?
          ensures WellFormed(body[i].table)
        {
          if i >= 4 { assert body[i] == middle[i - 4]; }
        }
      }
    }
  }

  /** Two generations that differ only in the data table agree on their
      outcome and on every block but the data table, as long as their data
      tables succeed or fail alike. */
  lemma AssembleDataOnly(config: InvoiceConfiguration, writable: bool, fileName: string,
                         header: Result<TableValue, Failure>, d1: Result<TableValue, Failure>, d2: Result<TableValue, Failure>,
                         middle: seq<Block>, signature: Result<Block, Failure>, attribution: Result<Block, Failure>, footer: TableValue)
    requires d1.Ok? == d2.Ok? && (d1.Err? ==> d1 == d2)
    ensures var r1 := Assemble(config, writable, fileName, header, d1, middle, signature, attribution, footer);
      var r2 := Assemble(config, writable, fileName, header, d2, middle, signature, attribution, footer);
      && r1.status == r2.status && |r1.added| == |r2.added|
      && forall i :: 0 <= i < |r1.added| && i != 2 ==> r1.added[i] == r2.added[i]
  {
  }

  /** One generation: the invoice's parts made from the configuration, the
      company, the order and the performance date. */
  function Compose(config: InvoiceConfiguration, company: Company, order: Order, performanceDate: Date,
                   formats: Formats, env: Environment): Run
    reads order.customer
  {
    var id := InvoiceId(formats, config, order);
    var fileName := OutputFileName(config, id);
    Assemble(config, fileName in env.writable, fileName,
             HeaderTable(config, env),
             DataTable(config, formats, company, order.customer.AsPerson(), order.customer.customerId, id, order.orderDate, performanceDate),
             Middle(config, formats, order.customer.lastName, order.products, id),
             Signature(config, env),
             Attribution(config, formats, company, order.orderDate),
             Footer(config, company))
  }

  /** What a generation needs, in the order it finds out, each with the
      failure it reports when missing. */
  function Requirements(config: InvoiceConfiguration, company: Company, order: Order, formats: Formats,
                        env: Environment): seq<(bool, Failure)>
  {
    var fileName := OutputFileName(config, InvoiceId(formats, config, order));
    [ (fileName in env.writable, OutputNotWritable(fileName)),
      (config.letteringPath in env.readable, ImageNotReadable(config.letteringPath)),
      (config.logoPath in env.readable, ImageNotReadable(config.logoPath)),
      (|config.headerTableProportions| == 2, WrongColumnCount(2, |config.headerTableProportions|)),
      (|config.dataTableProportions| == 2, WrongColumnCount(2, |config.dataTableProportions|)),
      (|config.innerDataTableProportions| == 2, WrongColumnCount(2, |config.innerDataTableProportions|)),
      (|company.shareholders| >= 1, MissingShareholder(0)),
      (|company.shareholders| >= 2, MissingShareholder(1)),
      (config.signaturePath in env.readable, ImageNotReadable(config.signaturePath)) ]
  }

  /** How many blocks are in the document when the requirement at that
      position is the first one missing. */
  const BLOCKS_BEFORE: seq<nat> := [0, 0, 0, 0, 2, 2, 2, 2, 11]

  /** `r` succeeds exactly when the requirements `lo` to `hi - 1` hold, and
      otherwise fails with the first of them that is missing. */
  ghost predicate ReportsFirst<T>(r: Result<T, Failure>, reqs: seq<(bool, Failure)>, lo: nat, hi: nat)
    requires lo <= hi <= |reqs|
  {
    && (r.Ok? <==> forall j :: lo <= j < hi ==> reqs[j].0)
    && forall k :: lo <= k < hi && !reqs[k].0 && (forall j :: lo <= j < k ==> reqs[j].0) ==> r == Err(reqs[k].1)
  }

  /** A generation meets its requirements when it succeeds exactly when
      every requirement holds, adding fourteen blocks, and otherwise reports
      the first missing requirement, with the blocks added before it still
      in the document. */
  ghost predicate FollowsRequirements(run: Run, reqs: seq<(bool, Failure)>)
    requires |reqs| == |BLOCKS_BEFORE|
  {
    && (run.status == Done <==> forall k :: 0 <= k < |reqs| ==> reqs[k].0)
    && (run.status == Done ==> |run.added| == 14)
    && forall k :: 0 <= k < |reqs| && !reqs[k].0 && (forall j :: 0 <= j < k ==> reqs[j].0) ==>
         run.status == Failed(reqs[k].1) && |run.added| == BLOCKS_BEFORE[k]
  }

  /** A generation whose parts each report the first of their own
      requirements that is missing succeeds exactly when all nine hold, and
      otherwise reports the first missing one over all parts. */
  lemma AssembleFollows(config: InvoiceConfiguration, writable: bool, fileName: string,
                        header: Result<TableValue, Failure>, data: Result<TableValue, Failure>, middle: seq<Block>,
                        signature: Result<Block, Failure>, attribution: Result<Block, Failure>, footer: TableValue,
                        reqs: seq<(bool, Failure)>)
    requires |reqs| == 9 && |middle| == 7
    requires writable == reqs[0].0 && reqs[0].1 == OutputNotWritable(fileName)
    requires ReportsFirst(header, reqs, 1, 4)
    requires ReportsFirst(data, reqs, 4, 8)
    requires ReportsFirst(signature, reqs, 8, 9)
    requires reqs[6].0 ==> attribution.Ok?
    ensures FollowsRequirements(Assemble(config, writable, fileName, header, data, middle, signature, attribution, footer), reqs)
  {
    var run := Assemble(config, writable, fileName, header, data, middle, signature, attribution, footer);
    AssembleOutcome(config, writable, fileName, header, data, middle, signature, attribution, footer);
    assert (forall k :: 0 <= k < 9 ==> reqs[k].0) <==>
      reqs[0].0 && reqs[1].0 && reqs[2].0 && reqs[3].0 && reqs[4].0 && reqs[5].0 && reqs[6].0 && reqs[7].0 && reqs[8].0;
    forall k | 0 <= k < 9 && !reqs[k].0 && (forall j :: 0 <= j < k ==> reqs[j].0)
      ensures run.status == Failed(reqs[k].1) && |run.added| == BLOCKS_BEFORE[k]
    {
      if k == 0 {
      } else if k < 4 {
        assert reqs[0].0;
        assert !header.Ok? && header == Err(reqs[k].1);
      } else if k < 8 {
        assert reqs[0].0 && reqs[1].0 && reqs[2].0 && reqs[3].0;
        assert header.Ok? && data == Err(reqs[k].1);
      } else {
        assert reqs[0].0 && reqs[1].0 && reqs[2].0 && reqs[3].0;
        assert reqs[4].0 && reqs[5].0 && reqs[6].0 && reqs[7].0;
        assert header.Ok? && data.Ok? && signature == Err(reqs[8].1);
      }
    }
  }

  /** The header reports the first missing of: the lettering image, the
      logo image, two header proportions. */
  lemma HeaderReportsFirst(config: InvoiceConfiguration, env: Environment, reqs: seq<(bool, Failure)>)
    requires |reqs| >= 4
    requires reqs[1] == (config.letteringPath in env.readable, ImageNotReadable(config.letteringPath))
    requires reqs[2] == (config.logoPath in env.readable, ImageNotReadable(config.logoPath))
    requires reqs[3] == (|config.headerTableProportions| == 2, WrongColumnCount(2, |config.headerTableProportions|))
    ensures ReportsFirst(HeaderTable(config, env), reqs, 1, 4)
  {
    var header := HeaderTable(config, env);
    HeaderOutcome(config, env);
    assert (forall j :: 1 <= j < 4 ==> reqs[j].0) <==> reqs[1].0 && reqs[2].0 && reqs[3].0;
    forall k | 1 <= k < 4 && !reqs[k].0 && (forall j :: 1 <= j < k ==> reqs[j].0)
      ensures header == Err(reqs[k].1)
    {
      if k > 1 { assert reqs[1].0; }
      if k > 2 { assert reqs[2].0; }
    }
  }

  /** The data table reports the first missing of: two data proportions,
      two inner proportions, shareholder 0, shareholder 1. */
  lemma DataReportsFirst(config: InvoiceConfiguration, formats: Formats, company: Company, customer: Person,
                         customerId: Int32, id: string, invoiceDate: Date, performanceDate: Date,
                         reqs: seq<(bool, Failure)>)
    requires |reqs| >= 8
    requires reqs[4] == (|config.dataTableProportions| == 2, WrongColumnCount(2, |config.dataTableProportions|))
    requires reqs[5] == (|config.innerDataTableProportions| == 2, WrongColumnCount(2, |config.innerDataTableProportions|))
    requires reqs[6] == (|company.shareholders| >= 1, MissingShareholder(0))
    requires reqs[7] == (|company.shareholders| >= 2, MissingShareholder(1))
    ensures ReportsFirst(DataTable(config, formats, company, customer, customerId, id, invoiceDate, performanceDate), reqs, 4, 8)
  {
    var data := DataTable(config, formats, company, customer, customerId, id, invoiceDate, performanceDate);
    DataTableOutcome(config, formats, company, customer, customerId, id, invoiceDate, performanceDate);
    InnerDataOutcome(config, formats, company, customerId, id, invoiceDate, performanceDate);
    assert (forall j :: 4 <= j < 8 ==> reqs[j].0) <==> reqs[4].0 && reqs[5].0 && reqs[6].0 && reqs[7].0;
    forall k | 4 <= k < 8 && !reqs[k].0 && (forall j :: 4 <= j < k ==> reqs[j].0)
      ensures data == Err(reqs[k].1)
    {
      if k > 4 { assert reqs[4].0; }
      if k > 5 { assert reqs[5].0; }
      if k > 6 { assert reqs[6].0; }
    }
  }

  /** Each part of a generation reports the first of its own requirements
      that is missing: the output file, then the header's three, the data
      table's four and the signature image; the attribution needs only the
      first shareholder. */
  lemma PartsReportFirst(config: InvoiceConfiguration, company: Company, order: Order,
                         performanceDate: Date, formats: Formats, env: Environment)
    ensures var reqs := Requirements(config, company, order, formats, env);
      var id := InvoiceId(formats, config, order);
      var fileName := OutputFileName(config, id);
      && |reqs| == 9
      && (fileName in env.writable) == reqs[0].0 && reqs[0].1 == OutputNotWritable(fileName)
      && ReportsFirst(HeaderTable(config, env), reqs, 1, 4)
      && ReportsFirst(DataTable(config, formats, company, order.customer.AsPerson(), order.customer.customerId, id,
                                order.orderDate, performanceDate), reqs, 4, 8)
      && ReportsFirst(Signature(config, env), reqs, 8, 9)
      && (reqs[6].0 ==> Attribution(config, formats, company, order.orderDate).Ok?)
  {
    var reqs := Requirements(config, company, order, formats, env);
    var id := InvoiceId(formats, config, order);
    HeaderReportsFirst(config, env, reqs);
    DataReportsFirst(config, formats, company, order.customer.AsPerson(), order.customer.customerId, id,
                     order.orderDate, performanceDate, reqs);
    assert (forall j :: 8 <= j < 9 ==> reqs[j].0) <==> reqs[8].0;
  }

  /** A generation succeeds exactly when every requirement holds, and then
      adds fourteen blocks; otherwise it reports the first missing
      requirement, with the blocks added before it still in the document. */
  lemma ComposeFollowsRequirements(config: InvoiceConfiguration, company: Company, order: Order,
                                   performanceDate: Date, formats: Formats, env: Environment)
    ensures |Requirements(config, company, order, formats, env)| == |BLOCKS_BEFORE|
    ensures FollowsRequirements(Compose(config, company, order, performanceDate, formats, env),
                                Requirements(config, company, order, formats, env))
  {
    var id := InvoiceId(formats, config, order);
    var fileName := OutputFileName(config, id);
    PartsReportFirst(config, company, order, performanceDate, formats, env);
    AssembleFollows(config, fileName in env.writable, fileName, HeaderTable(config, env),
                    DataTable(config, formats, company, order.customer.AsPerson(), order.customer.customerId, id, order.orderDate, performanceDate),
                    Middle(config, formats, order.customer.lastName, order.products, id), Signature(config, env),
                    Attribution(config, formats, company, order.orderDate), Footer(config, company),
                    Requirements(config, company, order, formats, env));
  }

  /** On success the document holds fourteen blocks, beginning with the
      header, a rule, the data table and a rule. */
  lemma ComposedOpening(config: InvoiceConfiguration, company: Company, order: Order,
                       performanceDate: Date, formats: Formats, env: Environment)
    ensures var run := Compose(config, company, order, performanceDate, formats, env);
      var id := InvoiceId(formats, config, order);
      run.status == Done ==>
        && |run.added| == 14
        && run.added[0] == TableBlock(HeaderTable(config, env).value)
        && run.added[1] == Rule(SeparatorOf(config))
        && run.added[2] == TableBlock(DataTable(config, formats, company, order.customer.AsPerson(), order.customer.customerId,
                                                id, order.orderDate, performanceDate).value)
        && run.added[3] == Rule(SeparatorOf(config))
  {
    var id := InvoiceId(formats, config, order);
    var fileName := OutputFileName(config, id);
    var header := HeaderTable(config, env);
    var data := DataTable(config, formats, company, order.customer.AsPerson(), order.customer.customerId, id, order.orderDate, performanceDate);
    var middle := Middle(config, formats, order.customer.lastName, order.products, id);
    var signature := Signature(config, env);
    var attribution := Attribution(config, formats, company, order.orderDate);
    if fileName in env.writable {
      AssembleDonePositions(config, fileName, header, data, middle, signature, attribution, Footer(config, company));
    }
  }

  /** On success the middle of the document is: heading "heading id", blank
      line, salutation "paragraph1 lastName,", blank line, paragraph 2, the
      product table and paragraph 3. */
  lemma ComposedMiddle(config: InvoiceConfiguration, company: Company, order: Order,
                       performanceDate: Date, formats: Formats, env: Environment)
    ensures var run := Compose(config, company, order, performanceDate, formats, env);
      var id := InvoiceId(formats, config, order);
      var font := ParagraphFont(config);
      run.status == Done ==>
        && |run.added| == 14
        && run.added[4] == Paragraph(config.heading + " " + id, HeadingFont(config))
        && run.added[5] == NewLine
        && run.added[6] == Paragraph(config.paragraph1 + " " + order.customer.lastName + ",", font)
        && run.added[7] == NewLine
        && run.added[8] == Paragraph(config.paragraph2, font)
        && run.added[9] == TableBlock(ProductTable(config, formats, order.products))
        && run.added[10] == Paragraph(config.paragraph3, font)
  {
    var id := InvoiceId(formats, config, order);
    var fileName := OutputFileName(config, id);
    if fileName in env.writable {
      AssembleMiddle(config, formats, fileName, HeaderTable(config, env),
                     DataTable(config, formats, company, order.customer.AsPerson(), order.customer.customerId, id, order.orderDate, performanceDate),
                     order.customer.lastName, order.products, id, Signature(config, env),
                     Attribution(config, formats, company, order.orderDate), Footer(config, company));
    }
  }

  /** On success the document ends with the signature image, the line
      "first last (location, date)" naming the first shareholder, and the
      footer. */
  lemma ComposedClosing(config: InvoiceConfiguration, company: Company, order: Order,
                       performanceDate: Date, formats: Formats, env: Environment)
    ensures var run := Compose(config, company, order, performanceDate, formats, env);
      var font := ParagraphFont(config);
      run.status == Done ==>
        && |run.added| == 14 && |company.shareholders| > 0
        && run.added[11] == Figure(Image(config.signaturePath, config.signatureScalePercent))
        && run.added[12] == Paragraph(company.shareholders[0].firstName + " " + company.shareholders[0].lastName
                                      + " (" + company.address.location + ", "
                                      + formats.formatDate(order.orderDate, config.dateFormatReadable) + ")", font)
        && run.added[13] == TableBlock(Footer(config, company))
  {
    var id := InvoiceId(formats, config, order);
    var fileName := OutputFileName(config, id);
    var header := HeaderTable(config, env);
    var data := DataTable(config, formats, company, order.customer.AsPerson(), order.customer.customerId, id, order.orderDate, performanceDate);
    var middle := Middle(config, formats, order.customer.lastName, order.products, id);
    var signature := Signature(config, env);
    var attribution := Attribution(config, formats, company, order.orderDate);
    if fileName in env.writable {
      AssembleDonePositions(config, fileName, header, data, middle, signature, attribution, Footer(config, company));
    }
  }


  /** With fewer than two shareholders (and everything before them in order)
      a generation fails naming the missing index, after the output file was
      opened and the header and first rule were added. */
  lemma TooFewShareholders(config: InvoiceConfiguration, company: Company, order: Order,
                           performanceDate: Date, formats: Formats, env: Environment)
    requires |company.shareholders| < 2
    requires forall k :: 0 <= k < 6 ==> Requirements(config, company, order, formats, env)[k].0
    ensures var run := Compose(config, company, order, performanceDate, formats, env);
      && run.status == Failed(MissingShareholder(|company.shareholders|))
      && |run.added| == 2 && run.added[1] == Rule(SeparatorOf(config))
  {
    ComposeFollowsRequirements(config, company, order, performanceDate, formats, env);
    var reqs := Requirements(config, company, order, formats, env);
    if |company.shareholders| == 0 {
      assert !reqs[6].0;
    } else {
      assert reqs[6].0 && !reqs[7].0;
    }
  }

  /** The performance date reaches only the data table: two performance
      dates give the same outcome and the same blocks everywhere else. */
  lemma PerformanceDateOnlyInDataTable(config: InvoiceConfiguration, company: Company, order: Order,
                                       p1: Date, p2: Date, formats: Formats, env: Environment)
    ensures var r1 := Compose(config, company, order, p1, formats, env);
      var r2 := Compose(config, company, order, p2, formats, env);
      && r1.status == r2.status && |r1.added| == |r2.added|
      && forall i :: 0 <= i < |r1.added| && i != 2 ==> r1.added[i] == r2.added[i]
  {
    var id := InvoiceId(formats, config, order);
    var fileName := OutputFileName(config, id);
    var d1 := DataTable(config, formats, company, order.customer.AsPerson(), order.customer.customerId, id, order.orderDate, p1);
    var d2 := DataTable(config, formats, company, order.customer.AsPerson(), order.customer.customerId, id, order.orderDate, p2);
    PerformanceDateOnlyInLastCell(config, formats, company, order.customer.customerId, id, order.orderDate, p1, p2);
    assert d1.Ok? == d2.Ok? && (d1.Err? ==> d1 == d2);
    AssembleDataOnly(config, fileName in env.writable, fileName, HeaderTable(config, env), d1, d2,
                     Middle(config, formats, order.customer.lastName, order.products, id), Signature(config, env),
                     Attribution(config, formats, company, order.orderDate), Footer(config, company));
  }

  /** Every table a generation adds, nested ones included, has one
      proportion per column and only complete rows. */
  lemma ComposedTablesWellFormed(config: InvoiceConfiguration, company: Company, order: Order,
                                 performanceDate: Date, formats: Formats, env: Environment)
    ensures var run := Compose(config, company, order, performanceDate, formats, env);
      forall i :: 0 <= i < |run.added| && run.added[i].TableBlock? ==> WellFormed(run.added[i].table)
  {
    var id := InvoiceId(formats, config, order);
    var fileName := OutputFileName(config, id);
    var header := HeaderTable(config, env);
    var data := DataTable(config, formats, company, order.customer.AsPerson(), order.customer.customerId, id, order.orderDate, performanceDate);
    var middle := Middle(config, formats, order.customer.lastName, order.products, id);
    HeaderLayout(config, env);
    DataTableLayout(config, formats, company, order.customer.AsPerson(), order.customer.customerId, id, order.orderDate, performanceDate);
    ProductTableShape(config, formats, order.products);
    FooterLayout(config, company);
    assert forall i :: 0 <= i < |middle| && middle[i].TableBlock? ==> i == 5;
    AssembleTablesWellFormed(config, fileName in env.writable, fileName, header, data, middle, Signature(config, env),
                             Attribution(config, formats, company, order.orderDate), Footer(config, company));
  }
}
