/** `GET /list` of the inventory service: every product with its derived
    monthly and yearly figures and the list of its non-empty features. */
module ProductsApi {
  import opened Common
  import opened Products

  /** `n` is `x` with its fraction dropped, toward zero. */
  predicate TruncatesTo(x: real, n: int) {
    && (x >= 0.0 ==> 0 <= n && n as real <= x < n as real + 1.0)
    && (x < 0.0 ==> n <= 0 && n as real - 1.0 < x <= n as real)
  }

  /** `int(x)` of a float: the integer part, toward zero. */
  function IntegerPart(x: real): (n: int)
    ensures TruncatesTo(x, n)
  {
    if x >= 0.0 then x.Floor else -((-x).Floor)
  }

  /** The truncation is unique, so `TruncatesTo` specifies `int(x)`. */
  lemma TruncationUnique(x: real, n: int, m: int)
    requires TruncatesTo(x, n) && TruncatesTo(x, m)
    ensures n == m
  {
  }

  /** One entry of the response. The yearly amount, a float, is not part of
      this model. */
  datatype Entry = Entry(
    id: Option<nat>, kind: Option<string>, monthAmount: int, monthCredit: int, yearCredit: int,
    description: seq<Json>, period: Option<string>)

  /** The response: the list (200), `No products found` (404), or `Failed to
      fetch products` (500) when something raised. */
  datatype ListResponse = Listed(entries: seq<Entry>) | NoProducts | FetchFailed

  function Status(r: ListResponse): nat {
    match r
    case Listed(_) => 200
    case NoProducts => 404
    case FetchFailed => 500
  }

  /** `[x] if x else []`. */
  function KeepTruthy(x: Json): seq<Json> {
    if IsTruthy(x) then [x] else []
  }

  /** The truthy feature fields, in field order. */
  function Description(p: Product): seq<Json> {
    KeepTruthy(p.first) + KeepTruthy(p.second) + KeepTruthy(p.third) + KeepTruthy(p.fourth)
  }

  /** The entry for one product; None when `float(None)` raises on a NULL
      amount or credit. */
  function EntryOf(p: Product): Option<Entry> {
    if p.amount.None? || p.credit.None? then None
    else
      var monthCredit := IntegerPart(p.credit.value);
      Some(Entry(p.id, p.kind, IntegerPart(p.amount.value), monthCredit, monthCredit * 12, Description(p), p.period))
  }

  /** The entries of a list of products, built front to back; None as soon
      as one raises. */
  function EntriesOf(ps: seq<Product>): Option<seq<Entry>> {
    if ps == [] then Some([])
    else
      match (EntriesOf(ps[..|ps| - 1]), EntryOf(ps[|ps| - 1]))
      case (Some(es), Some(e)) => Some(es + [e])
      case _ => None
  }

  /** The handler over the table's rows. */
  function ListOutcome(rows: seq<ProductRow>, parse: string -> Option<Json>): ListResponse {
    match ProductsOfRows(rows, parse)
    case None => FetchFailed
    case Some(ps) =>
      if ps == [] then NoProducts
      else
        match EntriesOf(ps)
        case None => FetchFailed
        case Some(es) => Listed(es)
  }

  /** The four `if product.x: description_list.append(product.x)`. */
  method BuildDescription(p: Product) returns (list: seq<Json>)
    ensures list == Description(p)
  {
    list := [];
    if IsTruthy(p.first) {
      list := list + [p.first];
    }
    if IsTruthy(p.second) {
      list := list + [p.second];
    }
    if IsTruthy(p.third) {
      list := list + [p.third];
    }
    if IsTruthy(p.fourth) {
      list := list + [p.fourth];
    }
  }

  /** `get_product_list`: the loop appends one entry per product; a raising
      conversion ends the request with the 500. */
  method GetProductList(rows: seq<ProductRow>, parse: string -> Option<Json>) returns (r: ListResponse)
    ensures r == ListOutcome(rows, parse)
  {
    var products := ProductsOfRows(rows, parse);
    if products.None? {
      return FetchFailed;
    }
    var ps := products.value;
    if ps == [] {
      return NoProducts;
    }
    var list: seq<Entry> := [];
    var i := 0;
    while i < |ps|
      invariant 0 <= i <= |ps|
      invariant EntriesOf(ps[..i]) == Some(list)
    {
      var p := ps[i];
      var description := BuildDescription(p);
      if p.amount.None? || p.credit.None? {
        assert ps[..i + 1][..i] == ps[..i];
        assert EntriesOf(ps[..i + 1]).None?;
        EntriesOfPrefixFails(ps, i + 1);
        return FetchFailed;
      }
      var monthCredit := IntegerPart(p.credit.value);
      list := list + [Entry(p.id, p.kind, IntegerPart(p.amount.value), monthCredit, monthCredit * 12, description, p.period)];
      assert ps[..i + 1][..i] == ps[..i];
      i := i + 1;
    }
    assert ps[..i] == ps;
    r := Listed(list);
  }

  /** Once a prefix raises, the whole list does. */
  lemma {:induction false} EntriesOfPrefixFails(ps: seq<Product>, n: nat)
    requires n <= |ps| && EntriesOf(ps[..n]).None?
    ensures EntriesOf(ps).None?
    decreases |ps| - n
  {
    if n < |ps| {
      assert ps[..n + 1][..n] == ps[..n];
      EntriesOfPrefixFails(ps, n + 1);
    } else {
      assert ps[..n] == ps;
    }
  }

  /** The entries exist exactly when every product has an amount and a
      credit, and then there is one per product, in order. */
  lemma {:induction false} EntriesInOrder(ps: seq<Product>)
    ensures EntriesOf(ps).Some? <==> forall k :: 0 <= k < |ps| ==> EntryOf(ps[k]).Some?
    ensures EntriesOf(ps).Some? ==>
      |EntriesOf(ps).value| == |ps| && forall k :: 0 <= k < |ps| ==> Some(EntriesOf(ps).value[k]) == EntryOf(ps[k])
  {
    if ps != [] {
      var init := ps[..|ps| - 1];
      EntriesInOrder(init);
      assert forall k :: 0 <= k < |init| ==> init[k] == ps[k];
    }
  }

  /** An entry's figures: amount and credit truncated toward zero, twelve
      months of credit a year, at most four features, all truthy. */
  lemma {:induction false} EntryFigures(p: Product)
    requires EntryOf(p).Some?
    ensures var e := EntryOf(p).value;
      && e.id == p.id && e.kind == p.kind && e.period == p.period
      && TruncatesTo(p.amount.value, e.monthAmount) && TruncatesTo(p.credit.value, e.monthCredit)
      && e.yearCredit == 12 * e.monthCredit
      && (forall x :: x in e.description ==> IsTruthy(x))
      && |e.description| <= 4
  {
    var a, b, c, d := KeepTruthy(p.first), KeepTruthy(p.second), KeepTruthy(p.third), KeepTruthy(p.fourth);
    assert Description(p) == a + b + c + d;
    assert forall x :: x in a + b + c + d ==> x in a || x in b || x in c || x in d;
  }

  /** Features that are all truthy are listed as they are. */
  lemma {:induction false} TruthyFeaturesListed(p: Product)
    requires forall x :: x in Features(p) ==> IsTruthy(x)
    ensures Description(p) == Features(p)
  {
    assert p.first in Features(p) && p.second in Features(p) && p.third in Features(p) && p.fourth in Features(p);
  }

  /** A falsy feature is left out and the rest keep their order. */
  lemma {:induction false} FalsyFeatureDropped(p: Product)
    requires !IsTruthy(p.second) && IsTruthy(p.first) && IsTruthy(p.third) && IsTruthy(p.fourth)
    ensures Description(p) == [p.first, p.third, p.fourth]
  {
  }

  /** The products endpoint answers 404 exactly for an empty table. */
  lemma {:induction false} EmptyTableNotFound(rows: seq<ProductRow>, parse: string -> Option<Json>)
    ensures ListOutcome(rows, parse) == NoProducts <==> rows == []
  {
  }

  /** A product whose description lists at least four non-empty strings as
      features, with the first two feature columns NULL, is listed with
      exactly those first four strings. */
  lemma {:induction false} DescriptionFromJsonFeatures(row: ProductRow, parse: string -> Option<Json>, names: seq<string>)
    requires ConsultsDescription(row) && row.amount.Some? && row.credit.Some?
    requires |names| >= 4 && forall k :: 0 <= k < |names| ==> names[k] != ""
    requires parse(row.description.value) == Some(JObject(map["features" := JArray(seq(|names|, k requires 0 <= k < |names| => JString(names[k])))]))
    ensures NewProduct(row, parse).Some?
    ensures EntryOf(NewProduct(row, parse).value).Some?
    ensures EntryOf(NewProduct(row, parse).value).value.description
         == [JString(names[0]), JString(names[1]), JString(names[2]), JString(names[3])]
  {
    var items := seq(|names|, k requires 0 <= k < |names| => JString(names[k]));
    FeaturesFromDescription(row, parse, items);
    var p := NewProduct(row, parse).value;
    assert Features(p) == [items[0], items[1], items[2], items[3]];
    TruthyFeaturesListed(p);
  }
}
