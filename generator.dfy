/**
 * `document.InvoiceGenerator` as the program runs it: the constructor fixes
 * fonts, separator, identifier and file name; each `generate` method builds
 * its table with `Table` objects; `Generate` opens a document and adds the
 * parts one after another. Every method is proved to produce exactly what
 * the functions of module `Invoice` describe.
 */
module Generation {
  import opened Results
  import opened Jdk
  import opened Model
  import opened Layout
  import opened Tables
  import opened Invoice

  datatype DocumentState = Fresh | Opened | Closed

  /** The PDF document being written: the file it is bound to, whether it
      has been opened or closed, and the blocks added so far. */
  class Document {
    var output: Option<string>
    var state: DocumentState
    var blocks: seq<Block>

    constructor ()
      ensures output == None && state == Fresh && blocks == []
    {
      output := None;
      state := Fresh;
      blocks := [];
    }

    /** Binds the document to the output file (`PdfWriter.getInstance`). */
    method Attach(fileName: string)
      modifies this`output
      ensures output == Some(fileName)
    {
      output := Some(fileName);
    }

    method Open()
      requires state == Fresh
      modifies this`state
      ensures state == Opened
    {
      state := Opened;
    }

    /** Elements can be added only to an open document; each goes at the end. */
    method Add(block: Block)
      requires state == Opened
      modifies this`blocks
      ensures blocks == old(blocks) + [block]
    {
      blocks := blocks + [block];
    }

    method Close()
      requires state == Opened
      modifies this`state
      ensures state == Closed
    {
      state := Closed;
    }
  }

  class InvoiceGenerator {
    const config: InvoiceConfiguration
    const company: Company
    const order: Order
    const invoiceDate: Date
    const performanceDate: Date
    const products: seq<Product>
    const headerFont: Font
    const headingFont: Font
    const paragraphFont: Font
    const footerFont: Font
    const lineSeparator: LineSeparator
    const formats: Formats
    const id: string
    const fileName: string

    /** What the constructor establishes: the invoice date is the order date,
        the fonts and the separator follow the configuration, and identifier
        and file name are derived from the order. */
    ghost predicate Valid() {
      && invoiceDate == order.orderDate
      && products == order.products
      && headerFont == HeaderFont(config)
      && headingFont == HeadingFont(config)
      && paragraphFont == ParagraphFont(config)
      && footerFont == FooterFont(config)
      && lineSeparator == SeparatorOf(config)
      && id == InvoiceId(formats, config, order)
      && fileName == OutputFileName(config, id)
    }

    constructor (config: InvoiceConfiguration, company: Company, order: Order, performanceDate: Date, formats: Formats)
      ensures Valid()
      ensures this.config == config && this.company == company && this.order == order
      ensures this.performanceDate == performanceDate && this.formats == formats
    {
      this.config := config;
      this.company := company;
      this.order := order;
      this.invoiceDate := order.orderDate;
      this.performanceDate := performanceDate;
      this.products := order.products;
      this.formats := formats;
      this.headerFont := Font(HELVETICA, config.headerFontSize, Black);
      this.headingFont := Font(HELVETICA, config.headingFontSize, Black);
      this.paragraphFont := Font(HELVETICA, config.paragraphFontSize, Black);
      this.footerFont := Font(HELVETICA, config.footerFontSize, Gray);
      this.lineSeparator := LineSeparator(config.lineSeparatorWidth, config.contentWidth, Black, AlignBottom, config.lineSeparatorOffset);
      var id := formats.formatDate(order.orderDate, config.dateFormat) + "-" + order.orderNumber;
      this.id := id;
      this.fileName := config.outputPath + id + FILE_TYPE;
    }

    method GetId() returns (r: string)
      requires Valid()
      ensures r == InvoiceId(formats, config, order)
    {
      r := id;
    }

    method GetFileName() returns (r: string)
      requires Valid()
      ensures r == OutputFileName(config, InvoiceId(formats, config, order))
    {
      r := fileName;
    }

    method GenerateHeader(env: Environment) returns (r: Result<TableValue, Failure>)
      requires Valid()
      ensures r == HeaderTable(config, env)
    {
      var headingCell := Cell(Text(config.header, headerFont), NO_BORDER, AlignLeft, AlignMiddle);
      if config.letteringPath !in env.readable {
        return Err(ImageNotReadable(config.letteringPath));
      }
      var lettering := Image(config.letteringPath, config.letteringScalePercent);
      var letteringCell := Cell(Picture(lettering), NO_BORDER, AlignCenter, AlignMiddle);
      if config.logoPath !in env.readable {
        return Err(ImageNotReadable(config.logoPath));
      }
      var logo := Image(config.logoPath, config.logoScalePercent);
      var logoCell := Cell(Picture(logo), NO_BORDER, AlignCenter, AlignMiddle);
      var innerHeader := new Table(2);
      var ok := innerHeader.SetWidths(config.headerTableProportions);
      if !ok {
        return Err(WrongColumnCount(2, |config.headerTableProportions|));
      }
      assert innerHeader.Value() == SizedTable(2, config.headerTableProportions).value;
      innerHeader.AddCell(letteringCell);
      innerHeader.AddCell(logoCell);
      assert innerHeader.Value() == Appended(SizedTable(2, config.headerTableProportions).value, [letteringCell, logoCell]);
      var innerHeaderCell := TableCell(innerHeader.Value()).(border := NO_BORDER);
      var header := new Table(2);
      header.AddCell(headingCell);
      header.AddCell(innerHeaderCell);
      assert header.Value() == Appended(EmptyTable(2), [headingCell, innerHeaderCell]);
      r := Ok(header.Value());
    }

    method GenerateInnerDataTable() returns (r: Result<Cell, Failure>)
      requires Valid()
      ensures r == InnerDataCell(config, formats, company, order.customer.customerId, id, invoiceDate, performanceDate)
    {
      var table := new Table(2);
      var ok := table.SetWidths(config.innerDataTableProportions);
      if !ok {
        return Err(WrongColumnCount(2, |config.innerDataTableProportions|));
      }
      if |company.shareholders| < 1 {
        return Err(MissingShareholder(0));
      }
      if |company.shareholders| < 2 {
        return Err(MissingShareholder(1));
      }
      var customerId := order.customer.GetCustomerId();
      var cells := InnerDataCells(config, formats, company.shareholders[0], company.shareholders[1], id,
                                  customerId, invoiceDate, performanceDate);
      table.AddAll(cells);
      table.SetBorders(NO_BORDER);
      r := Ok(TableCell(table.Value()));
    }

    method GenerateDataTable() returns (r: Result<TableValue, Failure>)
      requires Valid()
      ensures r == DataTable(config, formats, company, order.customer.AsPerson(), order.customer.customerId, id, invoiceDate, performanceDate)
    {
      var table := new Table(2);
      var ok := table.SetWidths(config.dataTableProportions);
      if !ok {
        return Err(WrongColumnCount(2, |config.dataTableProportions|));
      }
      var customerInformation := CustomerInformation(order.customer.AsPerson(), paragraphFont);
      var companyInformation := CompanyInformation(company, paragraphFont);
      var emptyCell := TextCell(EMPTY_TEXT, paragraphFont);
      var inner := GenerateInnerDataTable();
      if inner.Err? {
        return Err(inner.error);
      }
      table.AddAll(DataCells(customerInformation, companyInformation, emptyCell, inner.value));
      table.SetBorders(NO_BORDER);
      r := Ok(table.Value());
    }

    /** Label row, one row per product with its line total, and the sum of
        the line totals accumulated in the loop. */
    method GenerateProductTable() returns (t: TableValue)
      requires Valid()
      ensures t == ProductTable(config, formats, products)
    {
      var table := new Table(4);
      var emptyCell := TextCell(EMPTY_TEXT, paragraphFont);
      var cells := [ TextCell(config.productDeclarationLabel, paragraphFont), TextCell(config.productQuantityLabel, paragraphFont),
                     TextCell(config.productSinglePriceLabel, paragraphFont), TextCell(config.productSumPriceLabel, paragraphFont) ];
      var sum := 0.0;
      for i := 0 to |products|
        invariant table.Valid() && table.Value() == EmptyTable(4)
        invariant cells == ProductHeaderRow(config) + ProductRows(config, formats, products[..i])
        invariant sum == Total(products[..i])
      {
        var product := products[i];
        var lineTotal := product.price * product.amount as real;
        TimesIsProduct(product.price, product.amount);
        assert LineTotal(product) == lineTotal;
        var row := [ TextCell(product.name, paragraphFont),
                     TextCell(formats.formatNumber(product.amount as real, config.quantityFormat), paragraphFont),
                     TextCell(formats.formatNumber(product.price, config.currencyFormat), paragraphFont),
                     TextCell(formats.formatNumber(lineTotal, config.currencyFormat), paragraphFont) ];
        assert row == ProductRow(config, formats, product);
        assert products[..i + 1][..i] == products[..i];
        assert ProductRows(config, formats, products[..i + 1]) == ProductRows(config, formats, products[..i]) + row;
        cells := cells + row;
        sum := sum + lineTotal;
      }
      assert products[..|products|] == products;
      cells := cells + [ emptyCell, emptyCell,
                         TextCell(config.productsSumPriceLabel + ":", paragraphFont),
                         TextCell(formats.formatNumber(sum, config.currencyFormat), paragraphFont) ];
      table.AddAll(cells);
      table.SetHeaderRows(1);
      t := table.Value();
    }

    method GenerateSignature(env: Environment) returns (r: Result<Block, Failure>)
      requires Valid()
      ensures r == Signature(config, env)
    {
      if config.signaturePath !in env.readable {
        return Err(ImageNotReadable(config.signaturePath));
      }
      r := Ok(Figure(Image(config.signaturePath, config.signatureScalePercent)));
    }

    /** Company information beside the right-aligned financial information,
        borderless. */
    method GenerateFooter() returns (t: TableValue)
      requires Valid()
      ensures t == Footer(config, company)
    {
      var table := new Table(2);
      var companyInformation := CompanyInformation(company, footerFont);
      var financialInformation := FinancialInformation(config, company, footerFont);
      ghost var plain := financialInformation;
      for i := 0 to |financialInformation|
        invariant table.Valid() && table.Value() == EmptyTable(2)
        invariant |financialInformation| == |plain|
        invariant forall j :: 0 <= j < |plain| ==>
          financialInformation[j] == if j < i then plain[j].(hAlign := AlignRight) else plain[j]
      {
        financialInformation := financialInformation[i := financialInformation[i].(hAlign := AlignRight)];
      }
      assert financialInformation == RightAligned(plain);
      table.AddAll(FooterCells(companyInformation, financialInformation));
      table.SetBorders(NO_BORDER);
      t := table.Value();
    }

    /** The part of `generate` between the data table's rule and the
        signature: heading, blank line, salutation, blank line, paragraph 2,
        product table and paragraph 3. */
    method AddGreetingAndProducts(document: Document)
      requires Valid() && document.state == Opened
      modifies document`blocks
      ensures document.blocks == old(document.blocks) + Middle(config, formats, order.customer.lastName, products, id)
    {
      document.Add(Paragraph(config.heading + " " + id, headingFont));
      document.Add(NewLine);
      document.Add(Paragraph(config.paragraph1 + " " + order.customer.lastName + ",", paragraphFont));
      document.Add(NewLine);
      document.Add(Paragraph(config.paragraph2, paragraphFont));
      var productTable := GenerateProductTable();
      document.Add(TableBlock(productTable));
      document.Add(Paragraph(config.paragraph3, paragraphFont));
    }

    /** The part of `generate` that adds the header, a rule, the data table
        and a rule; it stops at the first table that cannot be made. */
    method AddTables(document: Document, env: Environment) returns (status: Status)
      requires Valid() && document.state == Opened && document.blocks == []
      modifies document`blocks
      ensures var run := Start(config, HeaderTable(config, env),
                               DataTable(config, formats, company, order.customer.AsPerson(), order.customer.customerId,
                                         id, invoiceDate, performanceDate));
        document.blocks == run.added && status == run.status
    {
      var header := GenerateHeader(env);
      if header.Err? {
        return Failed(header.error);
      }
      document.Add(TableBlock(header.value));
      document.Add(Rule(lineSeparator));
      var data := GenerateDataTable();
      if data.Err? {
        return Failed(data.error);
      }
      document.Add(TableBlock(data.value));
      document.Add(Rule(lineSeparator));
      status := Done;
    }

    /** The part of `generate` that adds the signature, the attribution line
        and the footer; it stops at the first of them that cannot be made. */
    method AddClosing(document: Document, env: Environment) returns (status: Status)
      requires Valid() && document.state == Opened
      modifies document`blocks
      ensures var run := Finish(old(document.blocks), Signature(config, env),
                                Attribution(config, formats, company, invoiceDate), Footer(config, company));
        document.blocks == run.added && status == run.status
    {
      var signature := GenerateSignature(env);
      if signature.Err? {
        return Failed(signature.error);
      }
      document.Add(signature.value);
      if |company.shareholders| == 0 {
        return Failed(MissingShareholder(0));
      }
      var first := company.shareholders[0];
      document.Add(Paragraph(first.firstName + " " + first.lastName + " (" + company.address.location + ", "
                             + formats.formatDate(invoiceDate, config.dateFormatReadable) + ")", paragraphFont));
      var footer := GenerateFooter();
      document.Add(TableBlock(footer));
      status := Done;
    }

    /** The invoice's parts added to an open document in order, as
        `Assemble` describes for a writable output file. A part that cannot
        be made ends the generation: the blocks added so far stay, and the
        document is left open. Only a complete run closes the document. */
    method AddParts(document: Document, env: Environment) returns (status: Status)
      requires Valid() && document.state == Opened && document.blocks == []
      modifies document`blocks, document`state
      ensures var run := Assemble(config, true, fileName, HeaderTable(config, env),
                                  DataTable(config, formats, company, order.customer.AsPerson(), order.customer.customerId,
                                            id, invoiceDate, performanceDate),
                                  Middle(config, formats, order.customer.lastName, products, id),
                                  Signature(config, env), Attribution(config, formats, company, invoiceDate),
                                  Footer(config, company));
        document.blocks == run.added && status == run.status
      ensures document.state == if status == Done then Closed else Opened
    {
      status := AddTables(document, env);
      if status.Failed? {
        return;
      }
      status := AddBody(document, env);
    }

    /** Everything after the data table's rule: greeting, products, signature,
        attribution and footer; the document is closed only when all of them
        could be made. */
    method AddBody(document: Document, env: Environment) returns (status: Status)
      requires Valid() && document.state == Opened
      modifies document`blocks, document`state
      ensures var run := Finish(old(document.blocks) + Middle(config, formats, order.customer.lastName, products, id),
                                Signature(config, env), Attribution(config, formats, company, invoiceDate),
                                Footer(config, company));
        document.blocks == run.added && status == run.status
      ensures document.state == if status == Done then Closed else Opened
    {
      AddGreetingAndProducts(document);
      status := AddClosing(document, env);
      if status == Done {
        document.Close();
      }
    }

    /** `generate`: binds a new document to the output file, opens it and adds
        the invoice's parts; an output file that cannot be written ends the
        generation before the document is opened. There is no `finally` that
        closes the document after a failure. */
    method Generate(env: Environment) returns (document: Document, status: Status)
      requires Valid()
      ensures fresh(document)
      ensures var run := Compose(config, company, order, performanceDate, formats, env);
        document.blocks == run.added && status == run.status
      ensures document.output == if fileName in env.writable then Some(fileName) else None
      ensures document.state == if fileName !in env.writable then Fresh else if status == Done then Closed else Opened
    {
      document := new Document();
      if fileName !in env.writable {
        return document, Failed(OutputNotWritable(fileName));
      }
      document.Attach(fileName);
      document.Open();
      status := AddParts(document, env);
    }
  }
}
