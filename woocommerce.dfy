/**
 * `data.WooCommerceDataDeserializer`: reads a WooCommerce order export (a
 * JSON array of flat order records) into `Order`s. The JSON text is taken as
 * already parsed; reading a record is a function that either yields its
 * fields or names the first exception the Java code would throw, and the
 * deserializer object appends the orders it reads to its `data` list.
 */
module WooCommerce {
  import opened Results
  import opened Jdk
  import opened Model

  const ORDER_NUMBER_KEY := "order_number"
  const ORDER_DATE_KEY := "order_date"
  const FIRST_NAME_KEY := "billing_first_name"
  const LAST_NAME_KEY := "billing_last_name"
  const STREET_INFORMATION_KEY := "billing_address"
  const STREET_NAME_INDEX := 0
  const STREET_NUMBER_INDEX := 1
  const ZIP_CODE_KEY := "billing_postcode"
  const LOCATION_KEY := "billing_city"
  const COUNTRY_KEY := "billing_country"
  const EMAIL_KEY := "billing_email"
  const PHONE_KEY := "billing_phone"
  const PRODUCTS_KEY := "products"
  const PRODUCT_NAME_KEY := "name"
  const PRODUCT_PRICE_KEY := "item_price"
  const PRODUCT_AMOUNT_KEY := "qty"
  const SHIPPING_PRICE_KEY := "order_shipping"
  const DEFAULT_SHIPPING_NAME := "Versand"
  const DEFAULT_SHIPPING_AMOUNT: Int32 := 1
  const NOT_DESERIALIZED_MESSAGE := "Call the method deserialize() first."

  /** A parsed JSON value; numbers are kept exact. */
  datatype Json =
    | JNull
    | JBool(b: bool)
    | JNumber(n: real)
    | JString(s: string)
    | JArray(items: seq<Json>)
    | JObject(fields: map<string, Json>)

  /** The members of a JSON object. */
  type Record = map<string, Json>

  /** The exceptions reading a record can raise. */
  datatype ReadError =
    | MissingKey(key: string)                   // JSONException: the key is not in the object
    | WrongType(key: string, expected: string)  // JSONException: the value is not of the type asked for
    | NotAnObject                               // ClassCastException: an array element is not an object
    | NoSuchToken(index: nat, count: nat)       // ArrayIndexOutOfBoundsException on the split address
    | NotAnInt(text: string)                    // NumberFormatException from Integer.parseInt
    | NotADate(text: string)                    // DateTimeParseException from LocalDate.parse

  /** `getData` before any order was read. */
  datatype NotDeserializedYet = NotDeserializedYet(message: string)

  /** What one record yields: the order with its customer as a value. */
  datatype OrderFields = OrderFields(orderNumber: string, customer: Person, products: seq<Product>, orderDate: Date)

  // ---------------------------------------------------------------------------
  // org.json accessors

  /** `getString`: only a string value is accepted. */
  function GetString(record: Record, key: string): (r: Result<string, ReadError>)
    ensures r.Ok? <==> key in record && record[key].JString?
    ensures r.Ok? ==> record[key] == JString(r.value)
  {
    if key !in record then Err(MissingKey(key))
    else if record[key].JString? then Ok(record[key].s)
    else Err(WrongType(key, "String"))
  }

  /** `getDouble`: a number, or a string `Double.parseDouble` reads. */
  function GetDouble(record: Record, key: string): (r: Result<real, ReadError>)
    ensures r.Ok? <==> key in record && (record[key].JNumber? || (record[key].JString? && ParseDecimal(record[key].s).Some?))
    ensures key in record && record[key].JNumber? ==> r == Ok(record[key].n)
    ensures key in record && record[key].JString? && ParseDecimal(record[key].s).Some? ==> r == Ok(ParseDecimal(record[key].s).value)
    ensures key !in record ==> r == Err(MissingKey(key))
  {
    if key !in record then Err(MissingKey(key))
    else match record[key]
      case JNumber(x) => Ok(x)
      case JString(s) => if ParseDecimal(s).Some? then Ok(ParseDecimal(s).value) else Err(WrongType(key, "double"))
      case _ => Err(WrongType(key, "double"))
  }

  /** `getJSONArray`. */
  function GetArray(record: Record, key: string): (r: Result<seq<Json>, ReadError>)
    ensures r.Ok? <==> key in record && record[key].JArray?
    ensures r.Ok? ==> record[key] == JArray(r.value)
    ensures key !in record ==> r == Err(MissingKey(key))
  {
    if key !in record then Err(MissingKey(key))
    else if record[key].JArray? then Ok(record[key].items)
    else Err(WrongType(key, "JSONArray"))
  }

  /** The cast `(JSONObject) value`. */
  function AsObject(value: Json): (r: Result<Record, ReadError>)
    ensures r.Ok? <==> value.JObject?
    ensures r.Ok? ==> value == JObject(r.value)
  {
    if value.JObject? then Ok(value.fields) else Err(NotAnObject)
  }

  /** Indexing the array `split` returned. */
  function Token(tokens: seq<string>, index: nat): (r: Result<string, ReadError>)
    ensures r.Ok? <==> index < |tokens|
    ensures r.Ok? ==> r.value == tokens[index]
    ensures r.Err? ==> r.error == NoSuchToken(index, |tokens|)
  {
    if index < |tokens| then Ok(tokens[index]) else Err(NoSuchToken(index, |tokens|))
  }

  /** `Integer.parseInt` of the quantity text. */
  function AmountOf(text: string): (r: Result<Int32, ReadError>)
    ensures r.Ok? <==> ParseInt(text).Some?
    ensures r.Ok? ==> ParseInt(text) == Some(r.value)
    ensures r.Err? ==> r.error == NotAnInt(text)
  {
    if ParseInt(text).Some? then Ok(ParseInt(text).value) else Err(NotAnInt(text))
  }

  /** `LocalDate.parse(text, "yyyy-MM-dd HH:mm")`; the parser is a parameter. */
  function DateOf(parseDate: string -> Option<Date>, text: string): (r: Result<Date, ReadError>)
    ensures r.Ok? <==> parseDate(text).Some?
    ensures r.Ok? ==> parseDate(text) == Some(r.value)
    ensures r.Err? ==> r.error == NotADate(text)
  {
    if parseDate(text).Some? then Ok(parseDate(text).value) else Err(NotADate(text))
  }

  // ---------------------------------------------------------------------------
  // Reading element after element

  /** What was read before the first failure, and that failure. */
  datatype Outcome<T> = Outcome(read: seq<T>, error: Option<ReadError>)

  /** A loop that reads the elements in order and stops at the first one that
      cannot be read. */
  function ReadEach<T>(results: seq<Result<T, ReadError>>): Outcome<T> {
    if results == [] then Outcome([], None)
    else
      var before := ReadEach(results[..|results| - 1]);
      var last := results[|results| - 1];
      if before.error.Some? then before
      else if last.Ok? then Outcome(before.read + [last.value], None)
      else Outcome(before.read, Some(last.error))
  }

  /** Once a prefix has failed, reading more changes nothing. */
  lemma {:induction false} ReadEachStop<T>(results: seq<Result<T, ReadError>>, k: nat)
    requires k <= |results| && ReadEach(results[..k]).error.Some?
    ensures ReadEach(results) == ReadEach(results[..k])
    decreases |results| - k
  {
    if k < |results| {
      assert results[..k + 1][..k] == results[..k];
      ReadEachStop(results, k + 1);
    } else {
      assert results[..k] == results;
    }
  }

  /** One more element that reads extends what was read. */
  lemma ReadEachNext<T>(results: seq<Result<T, ReadError>>, i: nat, v: T)
    requires i < |results| && ReadEach(results[..i]).error.None? && results[i] == Ok(v)
    ensures ReadEach(results[..i + 1]) == Outcome(ReadEach(results[..i]).read + [v], None)
  {
    assert results[..i + 1][..i] == results[..i];
  }

  /** An element that fails ends the reading with its failure. */
  lemma ReadEachFail<T>(results: seq<Result<T, ReadError>>, i: nat, e: ReadError)
    requires i < |results| && ReadEach(results[..i]).error.None? && results[i] == Err(e)
    ensures ReadEach(results) == Outcome(ReadEach(results[..i]).read, Some(e))
  {
    assert results[..i + 1][..i] == results[..i];
    ReadEachStop(results, i + 1);
  }

  /** Reading never yields more values than elements and fails exactly when
      some element fails; the values read are the elements' values in order,
      all of them when nothing failed, and the failure reported is the first
      element's that failed. */
  lemma {:induction false} ReadEachAllOk<T>(results: seq<Result<T, ReadError>>)
    ensures var out := ReadEach(results);
      && |out.read| <= |results|
      && (out.error.None? <==> forall i :: 0 <= i < |results| ==> results[i].Ok?)
      && (out.error.None? ==> |out.read| == |results|)
      && (forall i :: 0 <= i < |out.read| ==> results[i] == Ok(out.read[i]))
      && (out.error.Some? ==> results[|out.read|] == Err(out.error.value))
  {
    if results != [] {
      var front := results[..|results| - 1];
      ReadEachAllOk(front);
      assert forall i :: 0 <= i < |front| ==> front[i] == results[i];
    }
  }

  // ---------------------------------------------------------------------------
  // Reading one record, field by field in the order the Java code reads them

  /** `deserializeAddress`: the address line is split at spaces, token 0 is
      the street and token 1 the street number; the other tokens are dropped. */
  function AddressOf(record: Record): Result<Address, ReadError> {
    var line :- GetString(record, STREET_INFORMATION_KEY);
    var street :- Token(Split(line), STREET_NAME_INDEX);
    var streetNumber :- Token(Split(line), STREET_NUMBER_INDEX);
    var zipCode :- GetString(record, ZIP_CODE_KEY);
    var location :- GetString(record, LOCATION_KEY);
    var country :- GetString(record, COUNTRY_KEY);
    Ok(Address(street, streetNumber, zipCode, location, country))
  }

  /** `deserializeContact`. */
  function ContactOf(record: Record): Result<Contact, ReadError> {
    var email :- GetString(record, EMAIL_KEY);
    var phoneNumber :- GetString(record, PHONE_KEY);
    Ok(Contact(email, phoneNumber))
  }

  /** The fields `deserializeCustomer` reads before it builds the customer. */
  function PersonOf(record: Record): Result<Person, ReadError> {
    var firstName :- GetString(record, FIRST_NAME_KEY);
    var lastName :- GetString(record, LAST_NAME_KEY);
    var address :- AddressOf(record);
    var contact :- ContactOf(record);
    Ok(Person(firstName, lastName, address, contact))
  }

  /** One element of the `products` array: name, price, then quantity. */
  function ProductOf(item: Json): Result<Product, ReadError> {
    var product :- AsObject(item);
    var name :- GetString(product, PRODUCT_NAME_KEY);
    var price :- GetDouble(product, PRODUCT_PRICE_KEY);
    var quantity :- GetString(product, PRODUCT_AMOUNT_KEY);
    var amount :- AmountOf(quantity);
    Ok(Product(name, price, amount))
  }

  /** The product read from each element of the `products` array. */
  function ProductResults(items: seq<Json>): (rs: seq<Result<Product, ReadError>>)
    ensures |rs| == |items|
    ensures forall i :: 0 <= i < |items| ==> rs[i] == ProductOf(items[i])
  {
    seq(|items|, i requires 0 <= i < |items| => ProductOf(items[i]))
  }

  /** The listed products in array order; the first element that cannot be
      read stops the reading. */
  function ListedProducts(items: seq<Json>): Result<seq<Product>, ReadError> {
    var out := ReadEach(ProductResults(items));
    if out.error.Some? then Err(out.error.value) else Ok(out.read)
  }

  /** `deserializeShipping`: the shipping cost as a product of its own. */
  function ShippingOf(record: Record): Result<Product, ReadError> {
    var price :- GetDouble(record, SHIPPING_PRICE_KEY);
    Ok(Product(DEFAULT_SHIPPING_NAME, price, DEFAULT_SHIPPING_AMOUNT))
  }

  /** `deserializeProducts`: the listed products, then the shipping product. */
  function ProductsOf(record: Record): Result<seq<Product>, ReadError> {
    var items :- GetArray(record, PRODUCTS_KEY);
    var listed :- ListedProducts(items);
    var shipping :- ShippingOf(record);
    Ok(listed + [shipping])
  }

  /** `deserializeOrder`: number, date text, customer and products are read
      first; the date text is parsed last. */
  function OrderFieldsOf(record: Record, parseDate: string -> Option<Date>): Result<OrderFields, ReadError> {
    var orderNumber :- GetString(record, ORDER_NUMBER_KEY);
    var dateText :- GetString(record, ORDER_DATE_KEY);
    var customer :- PersonOf(record);
    var products :- ProductsOf(record);
    var orderDate :- DateOf(parseDate, dateText);
    Ok(OrderFields(orderNumber, customer, products, orderDate))
  }

  /** The order read from one element of the export. */
  function RecordOrder(item: Json, parseDate: string -> Option<Date>): Result<OrderFields, ReadError> {
    var fields :- AsObject(item);
    OrderFieldsOf(fields, parseDate)
  }

  /** The order read from each element of the export. */
  function RecordResults(raw: seq<Json>, parseDate: string -> Option<Date>): (rs: seq<Result<OrderFields, ReadError>>)
    ensures |rs| == |raw|
  {
    if raw == [] then [] else RecordResults(raw[..|raw| - 1], parseDate) + [RecordOrder(raw[|raw| - 1], parseDate)]
  }

  lemma {:induction false} RecordResultsAt(raw: seq<Json>, i: nat, parseDate: string -> Option<Date>)
    requires i < |raw|
    ensures RecordResults(raw, parseDate)[i] == RecordOrder(raw[i], parseDate)
  {
    if i < |raw| - 1 {
      RecordResultsAt(raw[..|raw| - 1], i, parseDate);
    }
  }

  /** `deserialize`: record after record until one cannot be read. */
  function ReadOrders(raw: seq<Json>, parseDate: string -> Option<Date>): Outcome<OrderFields> {
    ReadEach(RecordResults(raw, parseDate))
  }

  // ---------------------------------------------------------------------------
  // Properties of reading

  /** An order's products are the listed products in array order followed by
      exactly one shipping product: "Versand", amount 1, priced by the
      record's shipping cost. The list is never empty. */
  lemma ProductsEndWithShipping(record: Record)
    requires ProductsOf(record).Ok?
    ensures GetArray(record, PRODUCTS_KEY).Ok? && GetDouble(record, SHIPPING_PRICE_KEY).Ok?
    ensures var products := ProductsOf(record).value;
      var items := GetArray(record, PRODUCTS_KEY).value;
      && |products| == |items| + 1
      && (forall i :: 0 <= i < |items| ==> ProductOf(items[i]) == Ok(products[i]))
      && products[|items|] == Product("Versand", GetDouble(record, SHIPPING_PRICE_KEY).value, 1)
  {
    ReadEachAllOk(ProductResults(GetArray(record, PRODUCTS_KEY).value));
  }

  /** The street and the street number are the first two space-free tokens of
      the address line, which starts with them joined by one space. */
  lemma AddressTokens(record: Record)
    requires AddressOf(record).Ok?
    ensures var a := AddressOf(record).value;
      && GetString(record, STREET_INFORMATION_KEY).Ok?
      && var line := GetString(record, STREET_INFORMATION_KEY).value;
      && |Split(line)| >= 2
      && a.street == Split(line)[0] && a.streetNumber == Split(line)[1]
      && ' ' !in a.street && ' ' !in a.streetNumber
      && a.street + " " + a.streetNumber <= line
  {
    var line := GetString(record, STREET_INFORMATION_KEY).value;
    SplitTokens(line);
    SplitFirstTwo(line);
  }

  /** An address line that splits into fewer than two tokens fails at the
      first missing index. */
  lemma AddressNeedsTwoTokens(record: Record)
    requires GetString(record, STREET_INFORMATION_KEY).Ok?
    requires |Split(GetString(record, STREET_INFORMATION_KEY).value)| < 2
    ensures var count := |Split(GetString(record, STREET_INFORMATION_KEY).value)|;
      AddressOf(record) == Err(NoSuchToken(count, count))
  {
  }

  // ---------------------------------------------------------------------------
  // Writing a record that reads back

  /** A product as an element of the `products` array, its quantity written
      with `String.valueOf`. */
  function ProductItem(p: Product): Json {
    JObject(map[PRODUCT_NAME_KEY := JString(p.name), PRODUCT_PRICE_KEY := JNumber(p.price),
                PRODUCT_AMOUNT_KEY := JString(IntToString(p.amount))])
  }

  lemma ProductItemReads(p: Product)
    ensures ProductOf(ProductItem(p)) == Ok(p)
  {
    IntRoundTrip(p.amount);
  }

  function ProductItems(listed: seq<Product>): (items: seq<Json>)
    ensures |items| == |listed|
    ensures forall i :: 0 <= i < |listed| ==> items[i] == ProductItem(listed[i])
  {
    seq(|listed|, i requires 0 <= i < |listed| => ProductItem(listed[i]))
  }

  lemma ListedItemsRead(listed: seq<Product>)
    ensures ListedProducts(ProductItems(listed)) == Ok(listed)
  {
    var results := ProductResults(ProductItems(listed));
    forall i | 0 <= i < |listed|
      ensures results[i] == Ok(listed[i])
    {
      ProductItemReads(listed[i]);
    }
    ReadEachAllOk(results);
    assert ReadEach(results).read == listed;
  }

  /** The export record of an order whose last product is the shipping
      product; the address line is street, one space, street number. */
  function OrderRecord(f: OrderFields, dateText: string): Record
    requires |f.products| >= 1
  {
    var listed := f.products[..|f.products| - 1];
    var a := f.customer.address;
    map[ORDER_NUMBER_KEY := JString(f.orderNumber), ORDER_DATE_KEY := JString(dateText),
        FIRST_NAME_KEY := JString(f.customer.firstName), LAST_NAME_KEY := JString(f.customer.lastName),
        STREET_INFORMATION_KEY := JString(a.street + " " + a.streetNumber),
        ZIP_CODE_KEY := JString(a.zipCode), LOCATION_KEY := JString(a.location), COUNTRY_KEY := JString(a.country),
        EMAIL_KEY := JString(f.customer.contact.email), PHONE_KEY := JString(f.customer.contact.phoneNumber),
        PRODUCTS_KEY := JArray(ProductItems(listed)),
        SHIPPING_PRICE_KEY := JNumber(f.products[|f.products| - 1].price)]
  }

  /** The customer fields of a record read back as the person they were
      written from. */
  lemma PersonReads(record: Record, p: Person)
    requires var a := p.address;
      a.street != "" && a.streetNumber != "" && ' ' !in a.street && ' ' !in a.streetNumber
    requires GetString(record, FIRST_NAME_KEY) == Ok(p.firstName)
    requires GetString(record, LAST_NAME_KEY) == Ok(p.lastName)
    requires GetString(record, STREET_INFORMATION_KEY) == Ok(p.address.street + " " + p.address.streetNumber)
    requires GetString(record, ZIP_CODE_KEY) == Ok(p.address.zipCode)
    requires GetString(record, LOCATION_KEY) == Ok(p.address.location)
    requires GetString(record, COUNTRY_KEY) == Ok(p.address.country)
    requires GetString(record, EMAIL_KEY) == Ok(p.contact.email)
    requires GetString(record, PHONE_KEY) == Ok(p.contact.phoneNumber)
    ensures PersonOf(record) == Ok(p)
  {
    SplitTwoWords(p.address.street, p.address.streetNumber);
  }

  /** The products array and shipping cost of a record read back as the
      products they were written from. */
  lemma ProductsRead(record: Record, products: seq<Product>)
    requires |products| >= 1
    requires products[|products| - 1].name == DEFAULT_SHIPPING_NAME
    requires products[|products| - 1].amount == DEFAULT_SHIPPING_AMOUNT
    requires GetArray(record, PRODUCTS_KEY) == Ok(ProductItems(products[..|products| - 1]))
    requires GetDouble(record, SHIPPING_PRICE_KEY) == Ok(products[|products| - 1].price)
    ensures ProductsOf(record) == Ok(products)
  {
    var listed := products[..|products| - 1];
    ListedItemsRead(listed);
    assert listed + [products[|products| - 1]] == products;
  }

  /** Every key of a written record holds what was written to it. */
  lemma OrderRecordFields(f: OrderFields, dateText: string)
    requires |f.products| >= 1
    ensures var record := OrderRecord(f, dateText);
      var a := f.customer.address;
      && GetString(record, ORDER_NUMBER_KEY) == Ok(f.orderNumber)
      && GetString(record, ORDER_DATE_KEY) == Ok(dateText)
      && GetString(record, FIRST_NAME_KEY) == Ok(f.customer.firstName)
      && GetString(record, LAST_NAME_KEY) == Ok(f.customer.lastName)
      && GetString(record, STREET_INFORMATION_KEY) == Ok(a.street + " " + a.streetNumber)
      && GetString(record, ZIP_CODE_KEY) == Ok(a.zipCode)
      && GetString(record, LOCATION_KEY) == Ok(a.location)
      && GetString(record, COUNTRY_KEY) == Ok(a.country)
      && GetString(record, EMAIL_KEY) == Ok(f.customer.contact.email)
      && GetString(record, PHONE_KEY) == Ok(f.customer.contact.phoneNumber)
      && GetArray(record, PRODUCTS_KEY) == Ok(ProductItems(f.products[..|f.products| - 1]))
      && GetDouble(record, SHIPPING_PRICE_KEY) == Ok(f.products[|f.products| - 1].price)
  {
  }

  /** Round trip: an order written as an export record reads back as the same
      order, provided street and street number are single non-empty words, the
      last product is the shipping product and the date text parses to the
      order date. */
  lemma OrderRecordRoundTrip(f: OrderFields, dateText: string, parseDate: string -> Option<Date>)
    requires |f.products| >= 1
    requires f.products[|f.products| - 1].name == DEFAULT_SHIPPING_NAME
    requires f.products[|f.products| - 1].amount == DEFAULT_SHIPPING_AMOUNT
    requires var a := f.customer.address;
      a.street != "" && a.streetNumber != "" && ' ' !in a.street && ' ' !in a.streetNumber
    requires parseDate(dateText) == Some(f.orderDate)
    ensures OrderFieldsOf(OrderRecord(f, dateText), parseDate) == Ok(f)
  {
    var record := OrderRecord(f, dateText);
    OrderRecordFields(f, dateText);
    PersonReads(record, f.customer);
    ProductsRead(record, f.products);
  }

  /** A street name of two words loses the house number: for "Am Markt 5"
      the street is "Am" and the street number "Markt". */
  lemma MultiWordStreet(record: Record, first: string, second: string, number: string)
    requires first != "" && second != "" && number != ""
    requires ' ' !in first && ' ' !in second && ' ' !in number
    requires STREET_INFORMATION_KEY in record
    requires record[STREET_INFORMATION_KEY] == JString(first + " " + second + " " + number)
    requires ZIP_CODE_KEY in record && record[ZIP_CODE_KEY].JString?
    requires LOCATION_KEY in record && record[LOCATION_KEY].JString?
    requires COUNTRY_KEY in record && record[COUNTRY_KEY].JString?
    ensures AddressOf(record).Ok?
    ensures AddressOf(record).value.street == first && AddressOf(record).value.streetNumber == second
  {
    SplitThreeWords(first, second, number);
  }

  /** An address line without a space, such as "Marktplatz", fails at index 1. */
  lemma OneWordStreet(record: Record, word: string)
    requires ' ' !in word
    requires STREET_INFORMATION_KEY in record && record[STREET_INFORMATION_KEY] == JString(word)
    ensures AddressOf(record) == Err(NoSuchToken(1, 1))
  {
  }

  // ---------------------------------------------------------------------------
  // The deserializer object

  /** The order object holds the record's values, and its customer's
      identifier is the customer's own hash code. */
  predicate Denotes(order: Order, f: OrderFields)
    reads order.customer
  {
    && order.orderNumber == f.orderNumber
    && order.customer.AsPerson() == f.customer
    && order.customer.customerId == NameHash(f.customer.firstName + f.customer.lastName)
    && order.products == f.products
    && order.orderDate == f.orderDate
  }

  predicate DenotesAll(orders: seq<Order>, read: seq<OrderFields>)
    reads set i | 0 <= i < |orders| :: orders[i].customer
  {
    |orders| == |read| && forall i :: 0 <= i < |orders| ==> Denotes(orders[i], read[i])
  }

  /** `orders` is `before` followed by one order object per record read. */
  predicate Loaded(orders: seq<Order>, before: seq<Order>, read: seq<OrderFields>)
    reads set i | 0 <= i < |orders| :: orders[i].customer
  {
    && |orders| == |before| + |read|
    && orders[..|before|] == before
    && DenotesAll(orders[|before|..], read)
  }

  lemma LoadedAppend(orders: seq<Order>, before: seq<Order>, read: seq<OrderFields>, order: Order, f: OrderFields)
    requires Loaded(orders, before, read) && Denotes(order, f)
    ensures Loaded(orders + [order], before, read + [f])
  {
    assert (orders + [order])[|before|..] == orders[|before|..] + [order];
  }

  /** A deserialized order matches what reading its record yields: the same
      failure, or an order object denoting the same fields. */
  predicate Yields(r: Result<Order, ReadError>, expected: Result<OrderFields, ReadError>)
    reads if r.Ok? then {r.value.customer} else {}
  {
    && (r.Ok? <==> expected.Ok?)
    && (r.Ok? ==> Denotes(r.value, expected.value))
    && (r.Err? ==> r.error == expected.error)
  }

  class WooCommerceDataDeserializer {
    var filePath: string
    var rawData: seq<Json>
    var data: seq<Order>

    /** Reading and parsing the file is not modelled: the parsed array is given. */
    constructor (filePath: string, rawData: seq<Json>)
      ensures this.filePath == filePath && this.rawData == rawData && data == []
    {
      this.filePath := filePath;
      this.rawData := rawData;
      data := [];
    }

    /** Appends one order per record of `rawData`, in order, without clearing
        `data` first; the first record that cannot be read stops the loop and
        its exception is returned, the orders read before it staying added. */
    method Deserialize(parseDate: string -> Option<Date>) returns (error: Option<ReadError>)
      modifies this`data
      ensures var out := ReadOrders(rawData, parseDate);
        && error == out.error
        && Loaded(data, old(data), out.read)
        && forall i :: |old(data)| <= i < |data| ==> fresh(data[i].customer)
    {
      ghost var before := data;
      ghost var results := RecordResults(rawData, parseDate);
      ghost var read := [];
      var i := 0;
      while i < |rawData|
        invariant 0 <= i <= |rawData| && before == old(data)
        invariant ReadEach(results[..i]) == Outcome(read, None)
        invariant Loaded(data, before, read)
        invariant forall j :: |before| <= j < |data| ==> fresh(data[j].customer)
      {
        ghost var previous := data;
        error := AddOrder(i, parseDate, before, read);
        if error.Some? {
          ReadEachFail(results, i, error.value);
          return;
        }
        forall j | |before| <= j < |data| ensures fresh(data[j].customer) {
          if j < |previous| { assert data[j] == previous[j]; }
        }
        ReadEachNext(results, i, results[i].value);
        read := read + [results[i].value];
        i := i + 1;
      }
      assert results[..i] == results;
      error := None;
    }

    /** One pass of the loop in `deserialize`, on record `i`: the cast to an
        object, `deserializeOrder` and `data.add`; a failure adds nothing. */
    method AddOrder(i: nat, parseDate: string -> Option<Date>, ghost before: seq<Order>, ghost read: seq<OrderFields>)
      returns (error: Option<ReadError>)
      requires i < |rawData| && Loaded(data, before, read)
      modifies this`data
      ensures var r := RecordResults(rawData, parseDate)[i];
        && (error.None? <==> r.Ok?)
        && (r.Err? ==> error == Some(r.error) && data == old(data))
        && (r.Ok? ==> Loaded(data, before, read + [r.value]))
        && (r.Ok? ==> data == old(data) + [data[|data| - 1]] && fresh(data[|data| - 1].customer))
    {
      var item := rawData[i];
      RecordResultsAt(rawData, i, parseDate);
      if !item.JObject? {
        return Some(NotAnObject);
      }
      var order := DeserializeOrder(item.fields, parseDate);
      if order.Err? {
        return Some(order.error);
      }
      LoadedAppend(data, before, read, order.value, OrderFieldsOf(item.fields, parseDate).value);
      data := data + [order.value];
      error := None;
    }

    /** Reads one order record; the customer is a new object. */
    static method DeserializeOrder(record: Record, parseDate: string -> Option<Date>) returns (r: Result<Order, ReadError>)
      ensures Yields(r, OrderFieldsOf(record, parseDate))
      ensures r.Ok? ==> fresh(r.value.customer)
    {
      var orderNumber :- GetString(record, ORDER_NUMBER_KEY);
      var dateText :- GetString(record, ORDER_DATE_KEY);
      var customer :- DeserializeCustomer(record);
      var products :- DeserializeProducts(record);
      var orderDate :- DateOf(parseDate, dateText);
      r := Ok(Order(orderNumber, customer, products, orderDate));
    }

    /** Builds the customer with the undefined identifier and then sets the
        identifier to the customer's own hash code. */
    static method DeserializeCustomer(record: Record) returns (r: Result<Customer, ReadError>)
      ensures r.Ok? <==> PersonOf(record).Ok?
      ensures r.Ok? ==> && fresh(r.value)
                        && r.value.AsPerson() == PersonOf(record).value
                        && r.value.customerId == r.value.HashCode()
      ensures r.Err? ==> r.error == PersonOf(record).error
    {
      var firstName :- GetString(record, FIRST_NAME_KEY);
      var lastName :- GetString(record, LAST_NAME_KEY);
      var address :- AddressOf(record);
      var contact :- ContactOf(record);
      var customer := new Customer(firstName, lastName, address, contact, UNDEFINED_CUSTOMER_ID);
      customer.SetCustomerId(customer.HashCode());
      r := Ok(customer);
    }

    /** Collects the listed products in a list, then appends the shipping product. */
    static method DeserializeProducts(record: Record) returns (r: Result<seq<Product>, ReadError>)
      ensures r == ProductsOf(record)
    {
      var items :- GetArray(record, PRODUCTS_KEY);
      ghost var results := ProductResults(items);
      var products := [];
      for i := 0 to |items|
        invariant ReadEach(results[..i]) == Outcome(products, None)
      {
        var product := ProductOf(items[i]);
        if product.Err? {
          ReadEachFail(results, i, product.error);
          return Err(product.error);
        }
        ReadEachNext(results, i, product.value);
        products := products + [product.value];
      }
      assert results[..|items|] == results;
      var shipping :- ShippingOf(record);
      r := Ok(products + [shipping]);
    }

    method GetFilePath() returns (r: string)
      ensures r == filePath
    {
      r := filePath;
    }

    method SetFilePath(filePath: string)
      modifies this`filePath
      ensures this.filePath == filePath
    {
      this.filePath := filePath;
    }

    method GetRawData() returns (r: seq<Json>)
      ensures r == rawData
    {
      r := rawData;
    }

    method SetRawData(rawData: seq<Json>)
      modifies this`rawData
      ensures this.rawData == rawData
    {
      this.rawData := rawData;
    }

    /** The orders read so far; an empty list is refused, whether nothing was
        read yet or the export held no orders. */
    method GetData() returns (r: Result<seq<Order>, NotDeserializedYet>)
      ensures r.Err? <==> data == []
      ensures r.Ok? ==> r.value == data
      ensures r.Err? ==> r.error.message == NOT_DESERIALIZED_MESSAGE
    {
      if data == [] {
        return Err(NotDeserializedYet(NOT_DESERIALIZED_MESSAGE));
      }
      r := Ok(data);
    }

    method SetData(data: seq<Order>)
      modifies this`data
      ensures this.data == data
    {
      this.data := data;
    }
  }

  /** A deserializer over an empty export still refuses `getData` after
      `deserialize`, because no order was added. */
  method EmptyExportNotDeserialized(filePath: string, parseDate: string -> Option<Date>)
    returns (error: Option<ReadError>, r: Result<seq<Order>, NotDeserializedYet>)
    ensures error == None
    ensures r == Err(NotDeserializedYet(NOT_DESERIALIZED_MESSAGE))
  {
    var deserializer := new WooCommerceDataDeserializer(filePath, []);
    error := deserializer.Deserialize(parseDate);
    r := deserializer.GetData();
  }
}
