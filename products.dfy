/** The inventory service's product records. A row of the `products` table
    becomes a record; when neither of the first two feature columns is set,
    the features are taken from a JSON `description` of the form
    `{"features": [...]}`. JSON parsing is a parameter: the parsed value, or
    None when the text is not JSON. */
module Products {
  import opened Common

  /** A parsed JSON value. */
  datatype Json =
    | JNull
    | JBool(b: bool)
    | JNumber(n: real)
    | JString(s: string)
    | JArray(items: seq<Json>)
    | JObject(members: map<string, Json>)

  /** Python truthiness of a parsed value. */
  predicate IsTruthy(v: Json) {
    match v
    case JNull => false
    case JBool(b) => b
    case JNumber(n) => n != 0.0
    case JString(s) => s != ""
    case JArray(items) => items != []
    case JObject(members) => members != map[]
  }

  /** A text column as the record holds it: NULL is None. */
  function Column(c: Option<string>): (v: Json)
    ensures c.None? <==> v == JNull
    ensures c.Some? ==> v == JString(c.value)
  {
    if c.Some? then JString(c.value) else JNull
  }

  /** One row of `products`, by column. Amount and credit are the stored
      decimals; any column may be NULL. */
  datatype ProductRow = ProductRow(
    id: Option<nat>, kind: Option<string>, amount: Option<real>, credit: Option<real>,
    description: Option<string>, period: Option<string>,
    first: Option<string>, second: Option<string>, third: Option<string>, fourth: Option<string>)

  /** A `Products` instance. The four feature fields hold a column's text or
      whatever the description's features list held. */
  datatype Product = Product(
    id: Option<nat>, kind: Option<string>, amount: Option<real>, credit: Option<real>,
    description: Option<string>, period: Option<string>,
    first: Json, second: Json, third: Json, fourth: Json)

  /** The four feature fields in order. */
  function Features(p: Product): seq<Json> {
    [p.first, p.second, p.third, p.fourth]
  }

  /** The record with every field as given. */
  function Given(row: ProductRow): Product {
    Product(row.id, row.kind, row.amount, row.credit, row.description, row.period,
            Column(row.first), Column(row.second), Column(row.third), Column(row.fourth))
  }

  /** `features[i] if len(features) > i else None` for a list; a string
      indexes to its i-th character. */
  function ItemAt(items: seq<Json>, i: nat): Json {
    if i < |items| then items[i] else JNull
  }

  function CharAt(s: string, i: nat): Json {
    if i < |s| then JString([s[i]]) else JNull
  }

  /** The four assignments from `features`, or None when they raise past
      the handler: indexing a non-empty object with `0` is a `KeyError`,
      which the handler does not catch. For a value without `len` the
      `TypeError` is caught and the fields stay as given. */
  function WithFeatures(p: Product, features: Json): Option<Product> {
    match features
    case JArray(items) =>
      Some(p.(first := ItemAt(items, 0), second := ItemAt(items, 1), third := ItemAt(items, 2), fourth := ItemAt(items, 3)))
    case JString(s) =>
      Some(p.(first := CharAt(s, 0), second := CharAt(s, 1), third := CharAt(s, 2), fourth := CharAt(s, 3)))
    case JObject(members) =>
      if |members| > 0 then None
      else Some(p.(first := JNull, second := JNull, third := JNull, fourth := JNull))
    case _ => Some(p)
  }

  /** The description is consulted only when it is non-empty and the first
      two feature columns are both NULL. */
  predicate ConsultsDescription(row: ProductRow) {
    Truthy(row.description) && row.first.None? && row.second.None?
  }

  /** `Products(**row)`: None when the constructor raises. */
  function NewProduct(row: ProductRow, parse: string -> Option<Json>): Option<Product> {
    var given := Given(row);
    if !ConsultsDescription(row) then Some(given)
    else
      match parse(row.description.value)
      case Some(JObject(members)) =>
        if "features" in members then WithFeatures(given, members["features"]) else Some(given)
      case _ => Some(given)
  }

  /** `get_product_list`: one record per row, in table order; None when a
      constructor raises. */
  function ProductsOfRows(rows: seq<ProductRow>, parse: string -> Option<Json>): (r: Option<seq<Product>>)
    ensures r.Some? ==> |r.value| == |rows|
  {
    if rows == [] then Some([])
    else
      match (NewProduct(rows[0], parse), ProductsOfRows(rows[1..], parse))
      case (Some(p), Some(ps)) => Some([p] + ps)
      case _ => None
  }

  /** The constructor raises only on a non-empty object as the features. */
  predicate RaisesOn(row: ProductRow, parse: string -> Option<Json>) {
    && ConsultsDescription(row)
    && parse(row.description.value).Some? && parse(row.description.value).value.JObject?
    && "features" in parse(row.description.value).value.members
    && var features := parse(row.description.value).value.members["features"];
       features.JObject? && |features.members| > 0
  }

  /** The records are read only when no row raises, and then record `k` is
      built from row `k`. */
  lemma {:induction false} ProductsInOrder(rows: seq<ProductRow>, parse: string -> Option<Json>)
    ensures ProductsOfRows(rows, parse).Some? <==> forall k :: 0 <= k < |rows| ==> !RaisesOn(rows[k], parse)
    ensures ProductsOfRows(rows, parse).Some? ==>
      forall k :: 0 <= k < |rows| ==> Some(ProductsOfRows(rows, parse).value[k]) == NewProduct(rows[k], parse)
  {
    forall k | 0 <= k < |rows| ensures NewProduct(rows[k], parse).None? <==> RaisesOn(rows[k], parse) {
    }
    if rows != [] {
      ProductsInOrder(rows[1..], parse);
      assert forall k :: 1 <= k < |rows| ==> rows[1..][k - 1] == rows[k];
    }
  }

  /** With a features list the four fields are its first four items, None
      past its end; every other field is as given. */
  lemma {:induction false} FeaturesFromDescription(row: ProductRow, parse: string -> Option<Json>, items: seq<Json>)
    requires ConsultsDescription(row)
    requires parse(row.description.value).Some? && parse(row.description.value).value.JObject?
    requires var members := parse(row.description.value).value.members;
      "features" in members && members["features"] == JArray(items)
    ensures NewProduct(row, parse).Some?
    ensures var p := NewProduct(row, parse).value;
      && Features(p) == seq(4, k requires 0 <= k < 4 => if k < |items| then items[k] else JNull)
      && p.(first := JNull, second := JNull, third := JNull, fourth := JNull)
         == Given(row).(first := JNull, second := JNull, third := JNull, fourth := JNull)
  {
    var p := NewProduct(row, parse).value;
    assert Features(p) == [ItemAt(items, 0), ItemAt(items, 1), ItemAt(items, 2), ItemAt(items, 3)];
  }

  /** Items past the fourth change nothing. */
  lemma {:induction false} ExtraFeaturesIgnored(p: Product, items: seq<Json>)
    requires |items| > 4
    ensures WithFeatures(p, JArray(items)) == WithFeatures(p, JArray(items[..4]))
  {
  }

  /** When the first or second column is set the description is never
      parsed: the record is the row as given, whatever the parser says. */
  lemma {:induction false} GivenFeaturesKept(row: ProductRow, parse: string -> Option<Json>, other: string -> Option<Json>)
    requires row.first.Some? || row.second.Some?
    ensures NewProduct(row, parse) == NewProduct(row, other) == Some(Given(row))
    ensures Features(Given(row)) == [Column(row.first), Column(row.second), Column(row.third), Column(row.fourth)]
  {
  }

  /** A description that is not JSON, not an object, or without `features`
      leaves the record as given. */
  lemma {:induction false} NoFeaturesKept(row: ProductRow, parse: string -> Option<Json>)
    requires ConsultsDescription(row)
    requires var d := parse(row.description.value);
      d.None? || !d.value.JObject? || "features" !in d.value.members
    ensures NewProduct(row, parse) == Some(Given(row))
  {
  }

  /** A features value without `len` (null, a boolean or a number) is caught
      and leaves the record as given; a features string is read character
      by character. */
  lemma {:induction false} OddFeatures(p: Product, features: Json)
    ensures features.JNull? || features.JBool? || features.JNumber? ==> WithFeatures(p, features) == Some(p)
    ensures features.JString? && |features.s| >= 4 ==>
      WithFeatures(p, features).Some? &&
      Features(WithFeatures(p, features).value) == seq(4, k requires 0 <= k < 4 => JString([features.s[k]]))
  {
    if features.JString? && |features.s| >= 4 {
      var s := features.s;
      assert Features(WithFeatures(p, features).value) == [JString([s[0]]), JString([s[1]]), JString([s[2]]), JString([s[3]])];
    }
  }
}
