/**
 * The EXPD commercial-invoice schema: the `InvoiceAddress`, `InvoiceItem` and
 * `EXPDCommercialInvoice` records, their `example()` values, `from_json` (with
 * its per-key defaults) and `to_dict`.
 *
 * JSON is the decoded value (`json.loads` itself is not modelled). Pydantic
 * field validation is modelled by JSON kind: a `str` field takes a string, an
 * `int` field an integer or an integral number, a `bool` field a boolean or
 * 0/1, a `float` field a number or a numeric string, and every field takes
 * `null`. Floating-point values are
 * `real`s; the two-decimal formatting of `to_dict` is the parameter `fmt` and
 * the reading of a numeric string is the parameter `parse`.
 */
module CommercialInvoice {
  import opened Wrappers
  import opened Json

  datatype Address = Address(
    companyName: Option<string>,
    street: Option<string>,
    city: Option<string>,
    postalCode: Option<string>,
    state: Option<string>,
    country: Option<string>)

  datatype Item = Item(
    itemDescription: Option<string>,
    partNumber: Option<string>,
    euHtsNo: Option<string>,
    countryOfOrigin: Option<string>,
    quantity: Option<int>,
    unitPrice: Option<real>,
    totalPrice: Option<real>,
    netWeight: Option<real>,
    grossWeight: Option<real>,
    currency: Option<string>,
    isDangerousGoods: Option<bool>,
    unNumber: Option<string>,
    dangerousGoodsClass: Option<string>)

  datatype Invoice = Invoice(
    sellerExporter: Option<Address>,
    sellerExporterVat: Option<string>,
    shipTo: Option<Address>,
    invoiceNumber: Option<string>,
    invoiceDate: Option<string>,
    customerNumber: Option<string>,
    shipToSiteNumber: Option<string>,
    shipMethod: Option<string>,
    termsOfDelivery: Option<string>,
    paymentTerms: Option<string>,
    stopId: Option<string>,
    items: Option<seq<Item>>,
    numberOfBoxes: Option<int>,
    netValue: Option<real>,
    totalValue: Option<real>,
    currency: Option<string>,
    totalNetWeight: Option<real>,
    totalGrossWeight: Option<real>)

  const AddressKeys: set<string> := {"company_name", "street", "city", "postal_code", "state", "country"}

  /** The `str` fields of an item, and its `float` fields. */
  const ItemStringKeys: set<string> :=
    {"item_description", "part_number", "eu_hts_no", "country_of_origin", "currency", "un_number", "dangerous_goods_class"}
  const ItemFloatKeys: set<string> := {"unit_price", "total_price", "net_weight", "gross_weight"}

  /** The top-level `str` fields of an invoice, and its `float` fields. */
  const InvoiceStringKeys: set<string> :=
    {"seller_exporter_vat", "invoice_number", "invoice_date", "customer_number", "ship_to_site_number",
     "ship_method", "terms_of_delivery", "payment_terms", "stop_id", "currency"}
  const InvoiceFloatKeys: set<string> := {"net_value", "total_value", "total_net_weight", "total_gross_weight"}

  // ---------------------------------------------------------------------------
  // example()

  /** `InvoiceAddress.example()`: every field the empty string. */
  function AddressExample(): (a: Address)
    ensures a.companyName == a.street == a.city == a.postalCode == a.state == a.country == Some("")
  {
    Address(Some(""), Some(""), Some(""), Some(""), Some(""), Some(""))
  }

  /** `InvoiceItem.example()`: empty strings, zero numbers, not dangerous goods. */
  function ItemExample(): (it: Item)
    ensures it.quantity == Some(0) && it.isDangerousGoods == Some(false)
    ensures it.unitPrice == it.totalPrice == it.netWeight == it.grossWeight == Some(0.0)
    ensures it.itemDescription == it.partNumber == it.euHtsNo == it.countryOfOrigin == Some("")
    ensures it.currency == it.unNumber == it.dangerousGoodsClass == Some("")
  {
    Item(Some(""), Some(""), Some(""), Some(""), Some(0), Some(0.0), Some(0.0), Some(0.0), Some(0.0),
         Some(""), Some(false), Some(""), Some(""))
  }

  /**
   * `EXPDCommercialInvoice.example()`, with today's date already formatted as
   * `%d-%b-%Y` given as `today`: example addresses, exactly one example item.
   */
  function InvoiceExample(today: string): (inv: Invoice)
    ensures inv.sellerExporter == inv.shipTo == Some(AddressExample())
    ensures inv.items.Some? && |inv.items.value| == 1 && inv.items.value[0] == ItemExample()
    ensures inv.invoiceDate == Some(today) && inv.numberOfBoxes == Some(0)
  {
    Invoice(Some(AddressExample()), Some(""), Some(AddressExample()), Some(""), Some(today), Some(""), Some(""),
            Some(""), Some(""), Some(""), Some(""), Some([ItemExample()]), Some(0), Some(0.0), Some(0.0), Some(""),
            Some(0.0), Some(0.0))
  }

  // ---------------------------------------------------------------------------
  // Field validation: what a field of each type accepts, and the value it keeps

  predicate IsStr(v: JValue) {
    v.JNull? || v.JString?
  }

  function StrOf(v: JValue): Option<string> {
    if v.JString? then Some(v.s) else None
  }

  predicate IsInt(v: JValue) {
    v.JNull? || v.JInt? || (v.JFloat? && v.r.Floor as real == v.r)
  }

  function IntOf(v: JValue): Option<int> {
    if v.JInt? then Some(v.i) else if v.JFloat? then Some(v.r.Floor) else None
  }

  predicate IsBool(v: JValue) {
    v.JNull? || v.JBool? || (v.JInt? && (v.i == 0 || v.i == 1))
  }

  function BoolOf(v: JValue): Option<bool> {
    if v.JBool? then Some(v.b) else if v.JInt? then Some(v.i == 1) else None
  }

  predicate IsFloat(v: JValue, parse: string -> Option<real>) {
    v.JNull? || v.JInt? || v.JFloat? || (v.JString? && parse(v.s).Some?)
  }

  function FloatOf(v: JValue, parse: string -> Option<real>): Option<real> {
    if v.JInt? then Some(v.i as real) else if v.JFloat? then Some(v.r) else if v.JString? then parse(v.s) else None
  }

  /** What a `str` field holds after `.get(key, None)`: the string, or `None` when absent or `null`. */
  function StringAt(m: map<string, JValue>, key: string): Option<string> {
    if key in m && m[key].JString? then Some(m[key].s) else None
  }

  /** A key that a `str` field accepts: absent, `null` or a string. */
  predicate StringOk(m: map<string, JValue>, key: string) {
    key !in m || m[key].JNull? || m[key].JString?
  }

  /** A key that an `int` field accepts: absent, or a value `IsInt` accepts. */
  predicate IntOk(m: map<string, JValue>, key: string) {
    key !in m || IsInt(m[key])
  }

  /** A key that a `bool` field accepts: absent, or a value `IsBool` accepts. */
  predicate BoolOk(m: map<string, JValue>, key: string) {
    key !in m || IsBool(m[key])
  }

  /** A key that a `float` field accepts: absent, or a value `IsFloat` accepts. */
  predicate FloatOk(m: map<string, JValue>, key: string, parse: string -> Option<real>) {
    key !in m || IsFloat(m[key], parse)
  }

  /** What an `int` or `float` field holds after `.get(key, None)`: `None` when absent. */
  function IntAt(m: map<string, JValue>, key: string): Option<int> {
    if key in m then IntOf(m[key]) else None
  }

  function FloatAt(m: map<string, JValue>, key: string, parse: string -> Option<real>): Option<real> {
    if key in m then FloatOf(m[key], parse) else None
  }

  // ---------------------------------------------------------------------------
  // from_json

  predicate AddressValid(m: map<string, JValue>) {
    IsStr(Get(m, "company_name", JNull)) && IsStr(Get(m, "street", JNull)) && IsStr(Get(m, "city", JNull)) &&
    IsStr(Get(m, "postal_code", JNull)) && IsStr(Get(m, "state", JNull)) && IsStr(Get(m, "country", JNull))
  }

  function AddressOf(m: map<string, JValue>): Address {
    Address(StrOf(Get(m, "company_name", JNull)), StrOf(Get(m, "street", JNull)), StrOf(Get(m, "city", JNull)),
            StrOf(Get(m, "postal_code", JNull)), StrOf(Get(m, "state", JNull)), StrOf(Get(m, "country", JNull)))
  }

  /**
   * `create_invoice_address`: `None` for `None`; for a dictionary, each of the
   * six keys read as a string, an absent key giving `None`; anything else has
   * no `.get`.
   */
  function CreateAddress(v: JValue): (r: Result<Option<Address>, PyError>)
    ensures v == JNull ==> r == Ok(None)
    ensures !v.JNull? && !v.JObject? ==> r == Err(AttributeError)
    ensures v.JObject? ==> (r.Ok? <==> forall k :: k in AddressKeys ==> StringOk(v.fields, k))
    ensures v.JObject? && r.Err? ==> r.error == ValidationError
    ensures v.JObject? && r.Ok? ==>
              var m := v.fields;
              r.value == Some(Address(StringAt(m, "company_name"), StringAt(m, "street"), StringAt(m, "city"),
                                      StringAt(m, "postal_code"), StringAt(m, "state"), StringAt(m, "country")))
  {
    match v
    case JNull => Ok(None)
    case JObject(m) => if AddressValid(m) then Ok(Some(AddressOf(m))) else Err(ValidationError)
    case _ => Err(AttributeError)
  }

  predicate ItemValid(m: map<string, JValue>, parse: string -> Option<real>) {
    IsStr(Get(m, "item_description", JNull)) && IsStr(Get(m, "part_number", JNull)) &&
    IsStr(Get(m, "eu_hts_no", JNull)) && IsStr(Get(m, "country_of_origin", JNull)) &&
    IsInt(Get(m, "quantity", JNull)) &&
    IsFloat(Get(m, "unit_price", JNull), parse) && IsFloat(Get(m, "total_price", JNull), parse) &&
    IsFloat(Get(m, "net_weight", JNull), parse) && IsFloat(Get(m, "gross_weight", JNull), parse) &&
    IsStr(Get(m, "currency", JNull)) && IsBool(Get(m, "is_dangerous_goods", JBool(false))) &&
    IsStr(Get(m, "un_number", JNull)) && IsStr(Get(m, "dangerous_goods_class", JNull))
  }

  function ItemOf(m: map<string, JValue>, parse: string -> Option<real>): Item {
    Item(StrOf(Get(m, "item_description", JNull)), StrOf(Get(m, "part_number", JNull)),
         StrOf(Get(m, "eu_hts_no", JNull)), StrOf(Get(m, "country_of_origin", JNull)),
         IntOf(Get(m, "quantity", JNull)),
         FloatOf(Get(m, "unit_price", JNull), parse), FloatOf(Get(m, "total_price", JNull), parse),
         FloatOf(Get(m, "net_weight", JNull), parse), FloatOf(Get(m, "gross_weight", JNull), parse),
         StrOf(Get(m, "currency", JNull)), BoolOf(Get(m, "is_dangerous_goods", JBool(false))),
         StrOf(Get(m, "un_number", JNull)), StrOf(Get(m, "dangerous_goods_class", JNull)))
  }

  /**
   * `create_invoice_item`: `None` for `None`; for a dictionary, every absent
   * key gives `None` except `is_dangerous_goods`, which defaults to `False`;
   * anything else has no `.get`. A dictionary is accepted exactly when every
   * present key holds a value its field accepts.
   */
  function CreateItem(v: JValue, parse: string -> Option<real>): (r: Result<Option<Item>, PyError>)
    ensures v == JNull ==> r == Ok(None)
    ensures !v.JNull? && !v.JObject? ==> r == Err(AttributeError)
    ensures v.JObject? ==>
              (r.Ok? <==>
                 (forall k :: k in ItemStringKeys ==> StringOk(v.fields, k)) && IntOk(v.fields, "quantity") &&
                 (forall k :: k in ItemFloatKeys ==> FloatOk(v.fields, k, parse)) &&
                 BoolOk(v.fields, "is_dangerous_goods"))
    ensures v.JObject? && r.Err? ==> r.error == ValidationError
    ensures v.JObject? && r.Ok? ==>
              var m := v.fields;
              r.value.Some? &&
              var it := r.value.value;
              ("is_dangerous_goods" !in m ==> it.isDangerousGoods == Some(false)) &&
              ("is_dangerous_goods" in m && m["is_dangerous_goods"].JNull? ==> it.isDangerousGoods == None) &&
              it.itemDescription == StringAt(m, "item_description") && it.partNumber == StringAt(m, "part_number") &&
              it.euHtsNo == StringAt(m, "eu_hts_no") && it.countryOfOrigin == StringAt(m, "country_of_origin") &&
              it.currency == StringAt(m, "currency") && it.unNumber == StringAt(m, "un_number") &&
              it.dangerousGoodsClass == StringAt(m, "dangerous_goods_class") &&
              it.quantity == IntAt(m, "quantity") &&
              it.unitPrice == FloatAt(m, "unit_price", parse) && it.totalPrice == FloatAt(m, "total_price", parse) &&
              it.netWeight == FloatAt(m, "net_weight", parse) && it.grossWeight == FloatAt(m, "gross_weight", parse) &&
              ("is_dangerous_goods" in m ==> it.isDangerousGoods == BoolOf(m["is_dangerous_goods"]))
  {
    match v
    case JNull => Ok(None)
    case JObject(m) => if ItemValid(m, parse) then Ok(Some(ItemOf(m, parse))) else Err(ValidationError)
    case _ => Err(AttributeError)
  }

  /** The list comprehension over a list: one element per entry, in order; the first error wins. */
  function CreateItems(xs: seq<JValue>, parse: string -> Option<real>): (r: Result<seq<Option<Item>>, PyError>)
    ensures r.Ok? <==> forall i :: 0 <= i < |xs| ==> CreateItem(xs[i], parse).Ok?
    ensures r.Ok? ==> |r.value| == |xs| && forall i :: 0 <= i < |xs| ==> CreateItem(xs[i], parse) == Ok(r.value[i])
    ensures r.Err? ==> exists i :: 0 <= i < |xs| && CreateItem(xs[i], parse) == Err(r.error) &&
                                   forall k :: 0 <= k < i ==> CreateItem(xs[k], parse).Ok?
  {
    if |xs| == 0 then Ok([])
    else
      var first :- CreateItem(xs[0], parse);
      var rest :- CreateItems(xs[1..], parse);
      Ok([first] + rest)
  }

  /**
   * Iterating `json_content.get("items", [])`: a list entry by entry; an
   * empty dictionary or string iterates to nothing, a non-empty one yields
   * keys or characters that have no `.get`; anything else is not iterable.
   */
  function ItemsOf(v: JValue, parse: string -> Option<real>): Result<seq<Option<Item>>, PyError> {
    match v
    case JArray(xs) => CreateItems(xs, parse)
    case JObject(m) => if |m| == 0 then Ok([]) else Err(AttributeError)
    case JString(s) => if |s| == 0 then Ok([]) else Err(AttributeError)
    case _ => Err(TypeError)
  }

  /** A `list[InvoiceItem]` field rejects a `None` element. */
  function AllItems(xs: seq<Option<Item>>): (r: Result<seq<Item>, PyError>)
    ensures r.Ok? <==> forall i :: 0 <= i < |xs| ==> xs[i].Some?
    ensures r.Ok? ==> |r.value| == |xs| && forall i :: 0 <= i < |xs| ==> xs[i] == Some(r.value[i])
    ensures r.Err? ==> r.error == ValidationError
  {
    if |xs| == 0 then Ok([])
    else if xs[0].None? then Err(ValidationError)
    else
      var rest :- AllItems(xs[1..]);
      Ok([xs[0].value] + rest)
  }

  /** The fifteen scalar fields of the invoice. */
  predicate InvoiceFieldsValid(m: map<string, JValue>, parse: string -> Option<real>) {
    IsStr(Get(m, "seller_exporter_vat", JNull)) && IsStr(Get(m, "invoice_number", JNull)) &&
    IsStr(Get(m, "invoice_date", JNull)) && IsStr(Get(m, "customer_number", JNull)) &&
    IsStr(Get(m, "ship_to_site_number", JNull)) && IsStr(Get(m, "ship_method", JNull)) &&
    IsStr(Get(m, "terms_of_delivery", JNull)) && IsStr(Get(m, "payment_terms", JNull)) &&
    IsStr(Get(m, "stop_id", JNull)) && IsInt(Get(m, "number_of_boxes", JNull)) &&
    IsFloat(Get(m, "net_value", JNull), parse) && IsFloat(Get(m, "total_value", JNull), parse) &&
    IsStr(Get(m, "currency", JNull)) &&
    IsFloat(Get(m, "total_net_weight", JNull), parse) && IsFloat(Get(m, "total_gross_weight", JNull), parse)
  }

  /** Every present top-level scalar key holds a value its field accepts. */
  predicate InvoiceScalarsOk(m: map<string, JValue>, parse: string -> Option<real>) {
    (forall k :: k in InvoiceStringKeys ==> StringOk(m, k)) && IntOk(m, "number_of_boxes") &&
    (forall k :: k in InvoiceFloatKeys ==> FloatOk(m, k, parse))
  }

  function InvoiceOf(m: map<string, JValue>, sellerExporter: Option<Address>, shipTo: Option<Address>,
                     items: seq<Item>, parse: string -> Option<real>): Invoice {
    Invoice(sellerExporter, StrOf(Get(m, "seller_exporter_vat", JNull)), shipTo,
            StrOf(Get(m, "invoice_number", JNull)), StrOf(Get(m, "invoice_date", JNull)),
            StrOf(Get(m, "customer_number", JNull)), StrOf(Get(m, "ship_to_site_number", JNull)),
            StrOf(Get(m, "ship_method", JNull)), StrOf(Get(m, "terms_of_delivery", JNull)),
            StrOf(Get(m, "payment_terms", JNull)), StrOf(Get(m, "stop_id", JNull)), Some(items),
            IntOf(Get(m, "number_of_boxes", JNull)),
            FloatOf(Get(m, "net_value", JNull), parse), FloatOf(Get(m, "total_value", JNull), parse),
            StrOf(Get(m, "currency", JNull)),
            FloatOf(Get(m, "total_net_weight", JNull), parse), FloatOf(Get(m, "total_gross_weight", JNull), parse))
  }

  /**
   * `EXPDCommercialInvoice.from_json`, on the decoded document. The items
   * are read first, then the two addresses, then the invoice is validated.
   * A document is accepted exactly when its items, its two addresses and
   * every present scalar key are; an absent key gives `None`, and absent
   * items give `[]`.
   */
  function FromJson(j: JValue, parse: string -> Option<real>): (r: Result<Invoice, PyError>)
    ensures !j.JObject? ==> r == Err(AttributeError)
    ensures j.JObject? && "items" !in j.fields && r.Ok? ==> r.value.items == Some([])
    ensures j.JObject? && "items" in j.fields && j.fields["items"].JArray? && r.Ok? ==>
              var xs := j.fields["items"].elems;
              r.value.items.Some? && |r.value.items.value| == |xs| &&
              forall i :: 0 <= i < |xs| ==> CreateItem(xs[i], parse) == Ok(Some(r.value.items.value[i]))
    ensures j.JObject? && "items" in j.fields ==>
              var items := j.fields["items"];
              (items.JNull? || items.JBool? || items.JInt? || items.JFloat? ==> r == Err(TypeError)) &&
              ((items.JObject? && |items.fields| > 0) || (items.JString? && |items.s| > 0) ==> r == Err(AttributeError)) &&
              ((items.JObject? && |items.fields| == 0) || (items.JString? && |items.s| == 0) ==>
                 r.Ok? ==> r.value.items == Some([])) &&
              (items.JArray? && CreateItems(items.elems, parse).Err? ==> r == Err(CreateItems(items.elems, parse).error))
    ensures j.JObject? && r.Ok? ==>
              var m := j.fields;
              CreateAddress(Get(m, "seller_exporter", JNull)) == Ok(r.value.sellerExporter) &&
              CreateAddress(Get(m, "ship_to", JNull)) == Ok(r.value.shipTo) &&
              r.value.invoiceNumber == StringAt(m, "invoice_number") && r.value.invoiceDate == StringAt(m, "invoice_date")
  {
    if !j.JObject? then Err(AttributeError)
    else
      var m := j.fields;
      var itemsList :- ItemsOf(Get(m, "items", JArray([])), parse);
      var sellerExporter :- CreateAddress(Get(m, "seller_exporter", JNull));
      var shipTo :- CreateAddress(Get(m, "ship_to", JNull));
      var items :- AllItems(itemsList);
      if !InvoiceFieldsValid(m, parse) then Err(ValidationError)
      else Ok(InvoiceOf(m, sellerExporter, shipTo, items, parse))
  }

  /** The top-level scalar fields accept exactly the values `InvoiceScalarsOk` describes. */
  lemma ScalarsAccepted(m: map<string, JValue>, parse: string -> Option<real>)
    ensures InvoiceFieldsValid(m, parse) <==> InvoiceScalarsOk(m, parse)
  {
  }

  /**
   * `from_json` accepts a dictionary exactly when its items, its two addresses
   * and every present scalar key are accepted; in particular a document
   * without `items` is accepted exactly when its addresses and scalars are.
   */
  lemma FromJsonAccepts(j: JValue, parse: string -> Option<real>)
    requires j.JObject?
    ensures var m := j.fields;
            var items := ItemsOf(Get(m, "items", JArray([])), parse);
            FromJson(j, parse).Ok? <==>
              items.Ok? && AllItems(items.value).Ok? &&
              CreateAddress(Get(m, "seller_exporter", JNull)).Ok? && CreateAddress(Get(m, "ship_to", JNull)).Ok? &&
              InvoiceScalarsOk(m, parse)
    ensures var m := j.fields;
            "items" !in m ==>
              (FromJson(j, parse).Ok? <==>
                 CreateAddress(Get(m, "seller_exporter", JNull)).Ok? && CreateAddress(Get(m, "ship_to", JNull)).Ok? &&
                 InvoiceScalarsOk(m, parse))
  {
    ScalarsAccepted(j.fields, parse);
  }

  /** Every top-level scalar of an accepted document is the key's value, or `None` when the key is absent or null. */
  lemma FromJsonFields(j: JValue, parse: string -> Option<real>)
    requires j.JObject? && FromJson(j, parse).Ok?
    ensures var r := FromJson(j, parse);
            var m := j.fields;
            r.value.sellerExporterVat == StringAt(m, "seller_exporter_vat") &&
            r.value.invoiceNumber == StringAt(m, "invoice_number") && r.value.invoiceDate == StringAt(m, "invoice_date") &&
            r.value.customerNumber == StringAt(m, "customer_number") &&
            r.value.shipToSiteNumber == StringAt(m, "ship_to_site_number") &&
            r.value.shipMethod == StringAt(m, "ship_method") &&
            r.value.termsOfDelivery == StringAt(m, "terms_of_delivery") &&
            r.value.paymentTerms == StringAt(m, "payment_terms") &&
            r.value.stopId == StringAt(m, "stop_id") && r.value.currency == StringAt(m, "currency")
    ensures var r := FromJson(j, parse);
            var m := j.fields;
            r.value.numberOfBoxes == IntAt(m, "number_of_boxes") &&
            r.value.netValue == FloatAt(m, "net_value", parse) &&
            r.value.totalValue == FloatAt(m, "total_value", parse) &&
            r.value.totalNetWeight == FloatAt(m, "total_net_weight", parse) &&
            r.value.totalGrossWeight == FloatAt(m, "total_gross_weight", parse)
  {
    var inv := FromJson(j, parse).value;
    InvoiceOfScalars(j.fields, inv.sellerExporter, inv.shipTo, inv.items.value, parse);
    assert inv == InvoiceOf(j.fields, inv.sellerExporter, inv.shipTo, inv.items.value, parse);
  }

  /** The scalar fields of an invoice built from a dictionary are the keys' values, or `None` when absent or null. */
  lemma InvoiceOfScalars(m: map<string, JValue>, sellerExporter: Option<Address>, shipTo: Option<Address>,
                         items: seq<Item>, parse: string -> Option<real>)
    ensures var inv := InvoiceOf(m, sellerExporter, shipTo, items, parse);
            inv.sellerExporterVat == StringAt(m, "seller_exporter_vat") &&
            inv.invoiceNumber == StringAt(m, "invoice_number") && inv.invoiceDate == StringAt(m, "invoice_date") &&
            inv.customerNumber == StringAt(m, "customer_number") &&
            inv.shipToSiteNumber == StringAt(m, "ship_to_site_number") &&
            inv.shipMethod == StringAt(m, "ship_method") &&
            inv.termsOfDelivery == StringAt(m, "terms_of_delivery") &&
            inv.paymentTerms == StringAt(m, "payment_terms") &&
            inv.stopId == StringAt(m, "stop_id") && inv.currency == StringAt(m, "currency")
    ensures var inv := InvoiceOf(m, sellerExporter, shipTo, items, parse);
            inv.numberOfBoxes == IntAt(m, "number_of_boxes") &&
            inv.netValue == FloatAt(m, "net_value", parse) &&
            inv.totalValue == FloatAt(m, "total_value", parse) &&
            inv.totalNetWeight == FloatAt(m, "total_net_weight", parse) &&
            inv.totalGrossWeight == FloatAt(m, "total_gross_weight", parse)
  {
  }

  /** An empty document is accepted: every field `None`, the items `[]`. */
  lemma EmptyDocument(parse: string -> Option<real>)
    ensures FromJson(JObject(map[]), parse) ==
            Ok(Invoice(None, None, None, None, None, None, None, None, None, None, None, Some([]), None, None, None,
                       None, None, None))
  {
  }

  /** An empty item dictionary is accepted: every field `None` except `is_dangerous_goods`, which is `False`. */
  lemma EmptyItem(parse: string -> Option<real>)
    ensures CreateItem(JObject(map[]), parse) ==
            Ok(Some(Item(None, None, None, None, None, None, None, None, None, None, Some(false), None, None)))
  {
  }

  // ---------------------------------------------------------------------------
  // to_dict

  /** A `str` field as JSON; reading it back gives the field. */
  function StringJson(o: Option<string>): (v: JValue)
    ensures IsStr(v) && StrOf(v) == o
  {
    if o.Some? then JString(o.value) else JNull
  }

  function IntJson(o: Option<int>): (v: JValue)
    ensures IsInt(v) && IntOf(v) == o
  {
    if o.Some? then JInt(o.value) else JNull
  }

  function BoolJson(o: Option<bool>): (v: JValue)
    ensures IsBool(v) && BoolOf(v) == o
  {
    if o.Some? then JBool(o.value) else JNull
  }

  /** `f"{x:.2f}" if x is not None else None`, the formatting being `fmt`. */
  function FloatJson(o: Option<real>, fmt: real -> string): JValue {
    if o.Some? then JString(fmt(o.value)) else JNull
  }

  /** `InvoiceAddress.to_dict`: exactly the six keys, each holding the same-named field. */
  function AddressToDict(a: Address): (j: JValue)
    ensures j.JObject? && j.fields.Keys == AddressKeys
    ensures j.fields["company_name"] == StringJson(a.companyName) && j.fields["street"] == StringJson(a.street)
    ensures j.fields["city"] == StringJson(a.city) && j.fields["postal_code"] == StringJson(a.postalCode)
    ensures j.fields["state"] == StringJson(a.state) && j.fields["country"] == StringJson(a.country)
  {
    JObject(map[
      "company_name" := StringJson(a.companyName),
      "street" := StringJson(a.street),
      "city" := StringJson(a.city),
      "postal_code" := StringJson(a.postalCode),
      "state" := StringJson(a.state),
      "country" := StringJson(a.country)])
  }

  /** `self.x.to_dict() if self.x is not None else None` for an address field. */
  function AddressJson(o: Option<Address>): JValue {
    if o.Some? then AddressToDict(o.value) else JNull
  }

  /** The dictionary `InvoiceItem.to_dict` returns: each of the thirteen keys holds the same-named field. */
  ghost predicate ItemDict(m: map<string, JValue>, it: Item, fmt: real -> string) {
    "item_description" in m && m["item_description"] == StringJson(it.itemDescription) &&
    "part_number" in m && m["part_number"] == StringJson(it.partNumber) &&
    "eu_hts_no" in m && m["eu_hts_no"] == StringJson(it.euHtsNo) &&
    "country_of_origin" in m && m["country_of_origin"] == StringJson(it.countryOfOrigin) &&
    "quantity" in m && m["quantity"] == IntJson(it.quantity) &&
    "unit_price" in m && m["unit_price"] == FloatJson(it.unitPrice, fmt) &&
    "total_price" in m && m["total_price"] == FloatJson(it.totalPrice, fmt) &&
    "net_weight" in m && m["net_weight"] == FloatJson(it.netWeight, fmt) &&
    "gross_weight" in m && m["gross_weight"] == FloatJson(it.grossWeight, fmt) &&
    "currency" in m && m["currency"] == StringJson(it.currency) &&
    "is_dangerous_goods" in m && m["is_dangerous_goods"] == BoolJson(it.isDangerousGoods) &&
    "un_number" in m && m["un_number"] == StringJson(it.unNumber) &&
    "dangerous_goods_class" in m && m["dangerous_goods_class"] == StringJson(it.dangerousGoodsClass)
  }

  // ItemDisplay1-4 and InvoiceDisplay1-6 have no counterpart in the source: each states a few lookups in a
  // dictionary display over arbitrary values, so that the proofs about `to_dict` stay small.

  /** Keys 1 to 2 of the item dictionary's display hold the values written for them. */
  lemma ItemDisplay1(v0: JValue, v1: JValue, v2: JValue, v3: JValue, v4: JValue, v5: JValue, v6: JValue,
      v7: JValue, v8: JValue, v9: JValue, v10: JValue, v11: JValue, v12: JValue)
    ensures var m := map["item_description" := v0, "part_number" := v1, "eu_hts_no" := v2,
                     "country_of_origin" := v3, "quantity" := v4, "unit_price" := v5, "total_price" := v6,
                     "net_weight" := v7, "gross_weight" := v8, "currency" := v9, "is_dangerous_goods" := v10,
                     "un_number" := v11, "dangerous_goods_class" := v12];
            "item_description" in m && m["item_description"] == v0 &&
            "part_number" in m && m["part_number"] == v1
  {
  }

  /** Keys 3 to 4 of the item dictionary's display hold the values written for them. */
  lemma ItemDisplay2(v0: JValue, v1: JValue, v2: JValue, v3: JValue, v4: JValue, v5: JValue, v6: JValue,
      v7: JValue, v8: JValue, v9: JValue, v10: JValue, v11: JValue, v12: JValue)
    ensures var m := map["item_description" := v0, "part_number" := v1, "eu_hts_no" := v2,
                     "country_of_origin" := v3, "quantity" := v4, "unit_price" := v5, "total_price" := v6,
                     "net_weight" := v7, "gross_weight" := v8, "currency" := v9, "is_dangerous_goods" := v10,
                     "un_number" := v11, "dangerous_goods_class" := v12];
            "eu_hts_no" in m && m["eu_hts_no"] == v2 &&
            "country_of_origin" in m && m["country_of_origin"] == v3
  {
  }

  /** Keys 5 to 7 of the item dictionary's display hold the values written for them. */
  lemma ItemDisplay3(v0: JValue, v1: JValue, v2: JValue, v3: JValue, v4: JValue, v5: JValue, v6: JValue,
      v7: JValue, v8: JValue, v9: JValue, v10: JValue, v11: JValue, v12: JValue)
    ensures var m := map["item_description" := v0, "part_number" := v1, "eu_hts_no" := v2,
                     "country_of_origin" := v3, "quantity" := v4, "unit_price" := v5, "total_price" := v6,
                     "net_weight" := v7, "gross_weight" := v8, "currency" := v9, "is_dangerous_goods" := v10,
                     "un_number" := v11, "dangerous_goods_class" := v12];
            "quantity" in m && m["quantity"] == v4 &&
            "unit_price" in m && m["unit_price"] == v5 &&
            "total_price" in m && m["total_price"] == v6
  {
  }

  /** Keys 8 to 13 of the item dictionary's display hold the values written for them. */
  lemma ItemDisplay4(v0: JValue, v1: JValue, v2: JValue, v3: JValue, v4: JValue, v5: JValue, v6: JValue,
      v7: JValue, v8: JValue, v9: JValue, v10: JValue, v11: JValue, v12: JValue)
    ensures var m := map["item_description" := v0, "part_number" := v1, "eu_hts_no" := v2,
                     "country_of_origin" := v3, "quantity" := v4, "unit_price" := v5, "total_price" := v6,
                     "net_weight" := v7, "gross_weight" := v8, "currency" := v9, "is_dangerous_goods" := v10,
                     "un_number" := v11, "dangerous_goods_class" := v12];
            "net_weight" in m && m["net_weight"] == v7 &&
            "gross_weight" in m && m["gross_weight"] == v8 &&
            "currency" in m && m["currency"] == v9 &&
            "is_dangerous_goods" in m && m["is_dangerous_goods"] == v10 &&
            "un_number" in m && m["un_number"] == v11 &&
            "dangerous_goods_class" in m && m["dangerous_goods_class"] == v12
  {
  }

  /** `InvoiceItem.to_dict` */
  function ItemToDict(it: Item, fmt: real -> string): (j: JValue)
    ensures j.JObject? && ItemDict(j.fields, it, fmt)
  {
    var v0, v1, v2, v3, v4, v5, v6, v7, v8, v9, v10, v11, v12 :=
      StringJson(it.itemDescription),
      StringJson(it.partNumber),
      StringJson(it.euHtsNo),
      StringJson(it.countryOfOrigin),
      IntJson(it.quantity),
      FloatJson(it.unitPrice, fmt),
      FloatJson(it.totalPrice, fmt),
      FloatJson(it.netWeight, fmt),
      FloatJson(it.grossWeight, fmt),
      StringJson(it.currency),
      BoolJson(it.isDangerousGoods),
      StringJson(it.unNumber),
      StringJson(it.dangerousGoodsClass);
    // The keys of the display are distinct, so each holds the value written for it.
    ItemDisplay1(v0, v1, v2, v3, v4, v5, v6, v7, v8, v9, v10, v11, v12);
    ItemDisplay2(v0, v1, v2, v3, v4, v5, v6, v7, v8, v9, v10, v11, v12);
    ItemDisplay3(v0, v1, v2, v3, v4, v5, v6, v7, v8, v9, v10, v11, v12);
    ItemDisplay4(v0, v1, v2, v3, v4, v5, v6, v7, v8, v9, v10, v11, v12);
    JObject(map[
      "item_description" := v0,
      "part_number" := v1,
      "eu_hts_no" := v2,
      "country_of_origin" := v3,
      "quantity" := v4,
      "unit_price" := v5,
      "total_price" := v6,
      "net_weight" := v7,
      "gross_weight" := v8,
      "currency" := v9,
      "is_dangerous_goods" := v10,
      "un_number" := v11,
      "dangerous_goods_class" := v12])
  }

  /** `[item.to_dict() for item in items]`, in order. */
  function ItemsToJson(items: seq<Item>, fmt: real -> string): (r: seq<JValue>)
    ensures |r| == |items| && forall i :: 0 <= i < |items| ==> r[i] == ItemToDict(items[i], fmt)
  {
    if |items| == 0 then [] else [ItemToDict(items[0], fmt)] + ItemsToJson(items[1..], fmt)
  }

  /**
   * The dictionary `EXPDCommercialInvoice.to_dict` returns: an absent address
   * maps to `None`, a present one to its dictionary; absent items map to `[]`;
   * every other key holds the same-named field.
   */
  ghost predicate InvoiceDict(m: map<string, JValue>, inv: Invoice, fmt: real -> string) {
    "seller_exporter" in m && m["seller_exporter"] == AddressJson(inv.sellerExporter) &&
    "ship_to" in m && m["ship_to"] == AddressJson(inv.shipTo) &&
    "items" in m && m["items"] == JArray(ItemsToJson(inv.items.GetOr([]), fmt)) &&
    "seller_exporter_vat" in m && m["seller_exporter_vat"] == StringJson(inv.sellerExporterVat) &&
    "invoice_number" in m && m["invoice_number"] == StringJson(inv.invoiceNumber) &&
    "invoice_date" in m && m["invoice_date"] == StringJson(inv.invoiceDate) &&
    "customer_number" in m && m["customer_number"] == StringJson(inv.customerNumber) &&
    "ship_to_site_number" in m && m["ship_to_site_number"] == StringJson(inv.shipToSiteNumber) &&
    "ship_method" in m && m["ship_method"] == StringJson(inv.shipMethod) &&
    "terms_of_delivery" in m && m["terms_of_delivery"] == StringJson(inv.termsOfDelivery) &&
    "payment_terms" in m && m["payment_terms"] == StringJson(inv.paymentTerms) &&
    "stop_id" in m && m["stop_id"] == StringJson(inv.stopId) &&
    "number_of_boxes" in m && m["number_of_boxes"] == IntJson(inv.numberOfBoxes) &&
    "net_value" in m && m["net_value"] == FloatJson(inv.netValue, fmt) &&
    "total_value" in m && m["total_value"] == FloatJson(inv.totalValue, fmt) &&
    "currency" in m && m["currency"] == StringJson(inv.currency) &&
    "total_net_weight" in m && m["total_net_weight"] == FloatJson(inv.totalNetWeight, fmt) &&
    "total_gross_weight" in m && m["total_gross_weight"] == FloatJson(inv.totalGrossWeight, fmt)
  }

  /** Keys 1 to 2 of the invoice dictionary's display hold the values written for them. */
  lemma InvoiceDisplay1(v0: JValue, v1: JValue, v2: JValue, v3: JValue, v4: JValue, v5: JValue, v6: JValue,
      v7: JValue, v8: JValue, v9: JValue, v10: JValue, v11: JValue, v12: JValue, v13: JValue, v14: JValue,
      v15: JValue, v16: JValue, v17: JValue)
    ensures var m := map["seller_exporter" := v0, "seller_exporter_vat" := v1, "ship_to" := v2,
                     "invoice_number" := v3, "invoice_date" := v4, "customer_number" := v5,
                     "ship_to_site_number" := v6, "ship_method" := v7, "terms_of_delivery" := v8,
                     "payment_terms" := v9, "stop_id" := v10, "items" := v11, "number_of_boxes" := v12,
                     "net_value" := v13, "total_value" := v14, "currency" := v15, "total_net_weight" := v16,
                     "total_gross_weight" := v17];
            "seller_exporter" in m && m["seller_exporter"] == v0 &&
            "seller_exporter_vat" in m && m["seller_exporter_vat"] == v1
  {
  }

  /** Keys 3 to 4 of the invoice dictionary's display hold the values written for them. */
  lemma InvoiceDisplay2(v0: JValue, v1: JValue, v2: JValue, v3: JValue, v4: JValue, v5: JValue, v6: JValue,
      v7: JValue, v8: JValue, v9: JValue, v10: JValue, v11: JValue, v12: JValue, v13: JValue, v14: JValue,
      v15: JValue, v16: JValue, v17: JValue)
    ensures var m := map["seller_exporter" := v0, "seller_exporter_vat" := v1, "ship_to" := v2,
                     "invoice_number" := v3, "invoice_date" := v4, "customer_number" := v5,
                     "ship_to_site_number" := v6, "ship_method" := v7, "terms_of_delivery" := v8,
                     "payment_terms" := v9, "stop_id" := v10, "items" := v11, "number_of_boxes" := v12,
                     "net_value" := v13, "total_value" := v14, "currency" := v15, "total_net_weight" := v16,
                     "total_gross_weight" := v17];
            "ship_to" in m && m["ship_to"] == v2 &&
            "invoice_number" in m && m["invoice_number"] == v3
  {
  }

  /** Keys 5 to 6 of the invoice dictionary's display hold the values written for them. */
  lemma InvoiceDisplay3(v0: JValue, v1: JValue, v2: JValue, v3: JValue, v4: JValue, v5: JValue, v6: JValue,
      v7: JValue, v8: JValue, v9: JValue, v10: JValue, v11: JValue, v12: JValue, v13: JValue, v14: JValue,
      v15: JValue, v16: JValue, v17: JValue)
    ensures var m := map["seller_exporter" := v0, "seller_exporter_vat" := v1, "ship_to" := v2,
                     "invoice_number" := v3, "invoice_date" := v4, "customer_number" := v5,
                     "ship_to_site_number" := v6, "ship_method" := v7, "terms_of_delivery" := v8,
                     "payment_terms" := v9, "stop_id" := v10, "items" := v11, "number_of_boxes" := v12,
                     "net_value" := v13, "total_value" := v14, "currency" := v15, "total_net_weight" := v16,
                     "total_gross_weight" := v17];
            "invoice_date" in m && m["invoice_date"] == v4 &&
            "customer_number" in m && m["customer_number"] == v5
  {
  }

  /** Keys 7 to 9 of the invoice dictionary's display hold the values written for them. */
  lemma InvoiceDisplay4(v0: JValue, v1: JValue, v2: JValue, v3: JValue, v4: JValue, v5: JValue, v6: JValue,
      v7: JValue, v8: JValue, v9: JValue, v10: JValue, v11: JValue, v12: JValue, v13: JValue, v14: JValue,
      v15: JValue, v16: JValue, v17: JValue)
    ensures var m := map["seller_exporter" := v0, "seller_exporter_vat" := v1, "ship_to" := v2,
                     "invoice_number" := v3, "invoice_date" := v4, "customer_number" := v5,
                     "ship_to_site_number" := v6, "ship_method" := v7, "terms_of_delivery" := v8,
                     "payment_terms" := v9, "stop_id" := v10, "items" := v11, "number_of_boxes" := v12,
                     "net_value" := v13, "total_value" := v14, "currency" := v15, "total_net_weight" := v16,
                     "total_gross_weight" := v17];
            "ship_to_site_number" in m && m["ship_to_site_number"] == v6 &&
            "ship_method" in m && m["ship_method"] == v7 &&
            "terms_of_delivery" in m && m["terms_of_delivery"] == v8
  {
  }

  /** Keys 10 to 13 of the invoice dictionary's display hold the values written for them. */
  lemma InvoiceDisplay5(v0: JValue, v1: JValue, v2: JValue, v3: JValue, v4: JValue, v5: JValue, v6: JValue,
      v7: JValue, v8: JValue, v9: JValue, v10: JValue, v11: JValue, v12: JValue, v13: JValue, v14: JValue,
      v15: JValue, v16: JValue, v17: JValue)
    ensures var m := map["seller_exporter" := v0, "seller_exporter_vat" := v1, "ship_to" := v2,
                     "invoice_number" := v3, "invoice_date" := v4, "customer_number" := v5,
                     "ship_to_site_number" := v6, "ship_method" := v7, "terms_of_delivery" := v8,
                     "payment_terms" := v9, "stop_id" := v10, "items" := v11, "number_of_boxes" := v12,
                     "net_value" := v13, "total_value" := v14, "currency" := v15, "total_net_weight" := v16,
                     "total_gross_weight" := v17];
            "payment_terms" in m && m["payment_terms"] == v9 &&
            "stop_id" in m && m["stop_id"] == v10 &&
            "items" in m && m["items"] == v11 &&
            "number_of_boxes" in m && m["number_of_boxes"] == v12
  {
  }

  /** Keys 14 to 18 of the invoice dictionary's display hold the values written for them. */
  lemma InvoiceDisplay6(v0: JValue, v1: JValue, v2: JValue, v3: JValue, v4: JValue, v5: JValue, v6: JValue,
      v7: JValue, v8: JValue, v9: JValue, v10: JValue, v11: JValue, v12: JValue, v13: JValue, v14: JValue,
      v15: JValue, v16: JValue, v17: JValue)
    ensures var m := map["seller_exporter" := v0, "seller_exporter_vat" := v1, "ship_to" := v2,
                     "invoice_number" := v3, "invoice_date" := v4, "customer_number" := v5,
                     "ship_to_site_number" := v6, "ship_method" := v7, "terms_of_delivery" := v8,
                     "payment_terms" := v9, "stop_id" := v10, "items" := v11, "number_of_boxes" := v12,
                     "net_value" := v13, "total_value" := v14, "currency" := v15, "total_net_weight" := v16,
                     "total_gross_weight" := v17];
            "net_value" in m && m["net_value"] == v13 &&
            "total_value" in m && m["total_value"] == v14 &&
            "currency" in m && m["currency"] == v15 &&
            "total_net_weight" in m && m["total_net_weight"] == v16 &&
            "total_gross_weight" in m && m["total_gross_weight"] == v17
  {
  }

  /** `EXPDCommercialInvoice.to_dict` */
  function ToDict(inv: Invoice, fmt: real -> string): (j: JValue)
    ensures j.JObject?
  {
    JObject(map[
      "seller_exporter" := AddressJson(inv.sellerExporter),
      "seller_exporter_vat" := StringJson(inv.sellerExporterVat),
      "ship_to" := AddressJson(inv.shipTo),
      "invoice_number" := StringJson(inv.invoiceNumber),
      "invoice_date" := StringJson(inv.invoiceDate),
      "customer_number" := StringJson(inv.customerNumber),
      "ship_to_site_number" := StringJson(inv.shipToSiteNumber),
      "ship_method" := StringJson(inv.shipMethod),
      "terms_of_delivery" := StringJson(inv.termsOfDelivery),
      "payment_terms" := StringJson(inv.paymentTerms),
      "stop_id" := StringJson(inv.stopId),
      "items" := JArray(ItemsToJson(inv.items.GetOr([]), fmt)),
      "number_of_boxes" := IntJson(inv.numberOfBoxes),
      "net_value" := FloatJson(inv.netValue, fmt),
      "total_value" := FloatJson(inv.totalValue, fmt),
      "currency" := StringJson(inv.currency),
      "total_net_weight" := FloatJson(inv.totalNetWeight, fmt),
      "total_gross_weight" := FloatJson(inv.totalGrossWeight, fmt)])
  }

  // ---------------------------------------------------------------------------
  // Round trips

  /** `EXPDCommercialInvoice.to_dict` returns a dictionary of the shape `InvoiceDict` describes. */
  lemma ToDictShape(inv: Invoice, fmt: real -> string)
    ensures InvoiceDict(ToDict(inv, fmt).fields, inv, fmt)
  {
    var v0, v1, v2, v3, v4, v5, v6, v7, v8, v9, v10, v11, v12, v13, v14, v15, v16, v17 :=
      AddressJson(inv.sellerExporter),
      StringJson(inv.sellerExporterVat),
      AddressJson(inv.shipTo),
      StringJson(inv.invoiceNumber),
      StringJson(inv.invoiceDate),
      StringJson(inv.customerNumber),
      StringJson(inv.shipToSiteNumber),
      StringJson(inv.shipMethod),
      StringJson(inv.termsOfDelivery),
      StringJson(inv.paymentTerms),
      StringJson(inv.stopId),
      JArray(ItemsToJson(inv.items.GetOr([]), fmt)),
      IntJson(inv.numberOfBoxes),
      FloatJson(inv.netValue, fmt),
      FloatJson(inv.totalValue, fmt),
      StringJson(inv.currency),
      FloatJson(inv.totalNetWeight, fmt),
      FloatJson(inv.totalGrossWeight, fmt);
    // The keys of the display are distinct, so each holds the value written for it.
    InvoiceDisplay1(v0, v1, v2, v3, v4, v5, v6, v7, v8, v9, v10, v11, v12, v13, v14, v15, v16, v17);
    InvoiceDisplay2(v0, v1, v2, v3, v4, v5, v6, v7, v8, v9, v10, v11, v12, v13, v14, v15, v16, v17);
    InvoiceDisplay3(v0, v1, v2, v3, v4, v5, v6, v7, v8, v9, v10, v11, v12, v13, v14, v15, v16, v17);
    InvoiceDisplay4(v0, v1, v2, v3, v4, v5, v6, v7, v8, v9, v10, v11, v12, v13, v14, v15, v16, v17);
    InvoiceDisplay5(v0, v1, v2, v3, v4, v5, v6, v7, v8, v9, v10, v11, v12, v13, v14, v15, v16, v17);
    InvoiceDisplay6(v0, v1, v2, v3, v4, v5, v6, v7, v8, v9, v10, v11, v12, v13, v14, v15, v16, v17);
  }

  /** The value a float field holds after being written with `fmt` and read back with `parse`. */
  function Reparse(o: Option<real>, fmt: real -> string, parse: string -> Option<real>): Option<real> {
    if o.Some? then parse(fmt(o.value)) else None
  }

  /** Formatted floats read back as numbers. */
  ghost predicate ReadsBack(fmt: real -> string, parse: string -> Option<real>) {
    forall x :: parse(fmt(x)).Some?
  }

  function ItemReparsed(it: Item, fmt: real -> string, parse: string -> Option<real>): Item {
    it.(unitPrice := Reparse(it.unitPrice, fmt, parse), totalPrice := Reparse(it.totalPrice, fmt, parse),
        netWeight := Reparse(it.netWeight, fmt, parse), grossWeight := Reparse(it.grossWeight, fmt, parse))
  }

  function ItemsReparsed(items: seq<Item>, fmt: real -> string, parse: string -> Option<real>): (r: seq<Item>)
    ensures |r| == |items| && forall i :: 0 <= i < |items| ==> r[i] == ItemReparsed(items[i], fmt, parse)
  {
    if |items| == 0 then [] else [ItemReparsed(items[0], fmt, parse)] + ItemsReparsed(items[1..], fmt, parse)
  }

  /** `create_invoice_address(a.to_dict()) == a`, for every address. */
  lemma AddressRoundTrip(a: Address)
    ensures CreateAddress(AddressToDict(a)) == Ok(Some(a))
  {
  }

  /** A float field written with `fmt` reads back, under `parse`, as the reparsed value. */
  lemma FloatRoundTrip(o: Option<real>, fmt: real -> string, parse: string -> Option<real>)
    requires ReadsBack(fmt, parse)
    ensures IsFloat(FloatJson(o, fmt), parse) && FloatOf(FloatJson(o, fmt), parse) == Reparse(o, fmt, parse)
  {
    if o.Some? {
      var x := o.value;
      assert parse(fmt(x)).Some?;
    }
  }

  /** Any dictionary of the shape `InvoiceItem.to_dict` returns reads back as the item, floats reparsed. */
  lemma ItemDictRead(m: map<string, JValue>, it: Item, fmt: real -> string, parse: string -> Option<real>)
    requires ReadsBack(fmt, parse) && ItemDict(m, it, fmt)
    ensures ItemValid(m, parse) && ItemOf(m, parse) == ItemReparsed(it, fmt, parse)
  {
    FloatRoundTrip(it.unitPrice, fmt, parse);
    FloatRoundTrip(it.totalPrice, fmt, parse);
    FloatRoundTrip(it.netWeight, fmt, parse);
    FloatRoundTrip(it.grossWeight, fmt, parse);
  }

  /** An item survives `to_dict` and `from_json`, every field verbatim except its floats, which are reparsed. */
  lemma ItemRoundTrip(it: Item, fmt: real -> string, parse: string -> Option<real>)
    requires ReadsBack(fmt, parse)
    ensures CreateItem(ItemToDict(it, fmt), parse) == Ok(Some(ItemReparsed(it, fmt, parse)))
  {
    ItemDictRead(ItemToDict(it, fmt).fields, it, fmt, parse);
  }

  /** A list of items survives `to_dict` and `from_json` entry by entry, in order. */
  lemma ItemsRoundTrip(items: seq<Item>, fmt: real -> string, parse: string -> Option<real>)
    requires ReadsBack(fmt, parse)
    ensures CreateItems(ItemsToJson(items, fmt), parse).Ok?
    ensures AllItems(CreateItems(ItemsToJson(items, fmt), parse).value) == Ok(ItemsReparsed(items, fmt, parse))
  {
    var xs := ItemsToJson(items, fmt);
    forall i | 0 <= i < |items| ensures CreateItem(xs[i], parse) == Ok(Some(ItemReparsed(items[i], fmt, parse))) {
      ItemRoundTrip(items[i], fmt, parse);
    }
    var r := CreateItems(xs, parse);
    assert r.Ok?;
    var all := AllItems(r.value);
    assert all.Ok?;
    assert all.value == ItemsReparsed(items, fmt, parse);
  }

  /** The invoice `to_dict` gives back after `from_json`, floats reparsed and absent items as the empty list. */
  function InvoiceReparsed(inv: Invoice, fmt: real -> string, parse: string -> Option<real>): Invoice {
    inv.(items := Some(ItemsReparsed(inv.items.GetOr([]), fmt, parse)),
         netValue := Reparse(inv.netValue, fmt, parse),
         totalValue := Reparse(inv.totalValue, fmt, parse),
         totalNetWeight := Reparse(inv.totalNetWeight, fmt, parse),
         totalGrossWeight := Reparse(inv.totalGrossWeight, fmt, parse))
  }

  /** Any dictionary of the shape `EXPDCommercialInvoice.to_dict` returns reads back as the invoice. */
  lemma InvoiceDictRead(m: map<string, JValue>, inv: Invoice, fmt: real -> string, parse: string -> Option<real>)
    requires ReadsBack(fmt, parse) && InvoiceDict(m, inv, fmt)
    ensures FromJson(JObject(m), parse) == Ok(InvoiceReparsed(inv, fmt, parse))
  {
    ItemsRoundTrip(inv.items.GetOr([]), fmt, parse);
    if inv.sellerExporter.Some? {
      AddressRoundTrip(inv.sellerExporter.value);
    }
    if inv.shipTo.Some? {
      AddressRoundTrip(inv.shipTo.value);
    }
    FloatRoundTrip(inv.netValue, fmt, parse);
    FloatRoundTrip(inv.totalValue, fmt, parse);
    FloatRoundTrip(inv.totalNetWeight, fmt, parse);
    FloatRoundTrip(inv.totalGrossWeight, fmt, parse);
  }

  /**
   * An invoice survives `to_dict` and `from_json`: addresses, strings, integers
   * and booleans verbatim, absent items as the empty list, floats reparsed.
   */
  lemma InvoiceRoundTrip(inv: Invoice, fmt: real -> string, parse: string -> Option<real>)
    requires ReadsBack(fmt, parse)
    ensures FromJson(ToDict(inv, fmt), parse) == Ok(InvoiceReparsed(inv, fmt, parse))
  {
    ToDictShape(inv, fmt);
    InvoiceDictRead(ToDict(inv, fmt).fields, inv, fmt, parse);
  }

  /** The string and integer top-level fields, and both addresses, are written and read back verbatim. */
  lemma InvoiceScalarsRoundTrip(inv: Invoice, fmt: real -> string, parse: string -> Option<real>)
    requires ReadsBack(fmt, parse)
    ensures var r := FromJson(ToDict(inv, fmt), parse);
            r.Ok? && r.value.sellerExporter == inv.sellerExporter && r.value.shipTo == inv.shipTo &&
            r.value.sellerExporterVat == inv.sellerExporterVat && r.value.invoiceNumber == inv.invoiceNumber &&
            r.value.invoiceDate == inv.invoiceDate && r.value.customerNumber == inv.customerNumber &&
            r.value.shipToSiteNumber == inv.shipToSiteNumber && r.value.shipMethod == inv.shipMethod &&
            r.value.termsOfDelivery == inv.termsOfDelivery && r.value.paymentTerms == inv.paymentTerms &&
            r.value.stopId == inv.stopId && r.value.numberOfBoxes == inv.numberOfBoxes &&
            r.value.currency == inv.currency
  {
    InvoiceRoundTrip(inv, fmt, parse);
  }

  /** Items survive `to_dict` and `from_json` in order and number; absent items come back as the empty list. */
  lemma InvoiceItemsRoundTrip(inv: Invoice, fmt: real -> string, parse: string -> Option<real>)
    requires ReadsBack(fmt, parse)
    ensures var r := FromJson(ToDict(inv, fmt), parse);
            var items := inv.items.GetOr([]);
            r.Ok? && r.value.items.Some? && |r.value.items.value| == |items| &&
            forall i :: 0 <= i < |items| ==> r.value.items.value[i] == ItemReparsed(items[i], fmt, parse)
  {
    InvoiceRoundTrip(inv, fmt, parse);
  }
}
