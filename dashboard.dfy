/** The dashboard: six list requests whose first three records fill six
    summary cards, and a low-stock banner fetched only when a record bound to
    `productsRes` has at most three items in stock. */
module Dashboard {
  import opened Common
  import opened Decimal

  /** One record of a list response, with the properties the dashboard reads;
      None is a property the record does not have. */
  datatype Entry = Entry(id: int, name: Option<string>, total: Option<string>, stockQuantity: Option<int>)

  /** `overviewData`. */
  datatype Overview = Overview(customers: seq<Entry>, categories: seq<Entry>, products: seq<Entry>,
                               suppliers: seq<Entry>, purchases: seq<Entry>, sales: seq<Entry>)

  const EmptyOverview := Overview([], [], [], [], [], [])

  /** The six list requests, in the order they are given to `Promise.all`. */
  const ListPaths: seq<string> := ["api/customers/", "api/categories/", "api/products/",
                                   "api/suppliers/", "api/purchases/", "api/sales/"]

  const LowStockPath := "api/products/low-stock/"

  function ListCalls(): (calls: seq<Call>)
    ensures |calls| == 6
    ensures forall i :: 0 <= i < 6 ==> calls[i] == Call(Get, ListPaths[i], map[])
  {
    seq(6, i requires 0 <= i < 6 => Call(Get, ListPaths[i], map[]))
  }

  /** `data.slice(0, 3)`. */
  function FirstThree(s: seq<Entry>): (r: seq<Entry>)
    ensures |r| == if |s| < 3 then |s| else 3
    ensures forall i :: 0 <= i < |r| ==> r[i] == s[i]
  {
    if |s| <= 3 then s else s[..3]
  }

  /** `item.stockQuantity <= 3`; a missing quantity is undefined, and
      `undefined <= 3` is false. */
  predicate LowStock(e: Entry)
  {
    e.stockQuantity.Some? && e.stockQuantity.value <= 3
  }

  /** `data.some(item => item.stockQuantity <= 3)`, scanning from the front. */
  function AnyLowStock(s: seq<Entry>): (b: bool)
    ensures b <==> exists i :: 0 <= i < |s| && LowStock(s[i])
  {
    if s == [] then false
    else
      var rest := AnyLowStock(s[1..]);
      assert forall i :: 1 <= i < |s| ==> s[i] == s[1..][i - 1];
      LowStock(s[0]) || rest
  }

  /** The six names the result of `Promise.all` is destructured into. */
  datatype Bound = Bound(customersRes: seq<Entry>, suppliersRes: seq<Entry>, categoriesRes: seq<Entry>,
                         productsRes: seq<Entry>, purchasesRes: seq<Entry>, salesRes: seq<Entry>)

  /** How the names meet the responses: by position, as the code is written
      (names in the order customers, suppliers, categories, products against
      requests in the order customers, categories, products, suppliers), or by
      the resource each name speaks of. */
  datatype Binding = Positional | ByResource

  /** `data` holds the response data in request order. */
  function Bind(binding: Binding, data: seq<seq<Entry>>): (b: Bound)
    requires |data| == 6
    ensures binding == Positional ==>
              b.suppliersRes == data[1] && b.categoriesRes == data[2] && b.productsRes == data[3]
    ensures binding == ByResource ==>
              b.suppliersRes == data[3] && b.categoriesRes == data[1] && b.productsRes == data[2]
    ensures b.customersRes == data[0] && b.purchasesRes == data[4] && b.salesRes == data[5]
  {
    match binding
    case Positional => Bound(data[0], data[1], data[2], data[3], data[4], data[5])
    case ByResource => Bound(data[0], data[3], data[1], data[2], data[4], data[5])
  }

  function OverviewOf(b: Bound): Overview
  {
    Overview(FirstThree(b.customersRes), FirstThree(b.categoriesRes), FirstThree(b.productsRes),
             FirstThree(b.suppliersRes), FirstThree(b.purchasesRes), FirstThree(b.salesRes))
  }

  predicate AllResolved(responses: seq<Response<seq<Entry>>>)
  {
    forall i :: 0 <= i < |responses| ==> responses[i].Ok?
  }

  function DataOf(responses: seq<Response<seq<Entry>>>): (data: seq<seq<Entry>>)
    requires AllResolved(responses)
    ensures |data| == |responses|
    ensures forall i :: 0 <= i < |data| ==> data[i] == responses[i].data
  {
    seq(|responses|, i requires 0 <= i < |responses| => responses[i].data)
  }

  /** The state after `getAllData` and the calls it issued. */
  datatype Refresh = Refresh(overview: Overview, lowStockAlert: seq<Entry>, sent: seq<Call>)

  /** `getAllData` under a binding, from the current state and the outcomes of
      the six list calls (in request order) and of the low-stock call. */
  function Load(binding: Binding, overview: Overview, alert: seq<Entry>,
                      responses: seq<Response<seq<Entry>>>, lowStock: Response<seq<Entry>>): (r: Refresh)
    requires |responses| == 6
    ensures 6 <= |r.sent| <= 7 && r.sent[..6] == ListCalls()
    ensures !AllResolved(responses) ==> r == Refresh(overview, alert, ListCalls())
    ensures AllResolved(responses) ==> r.overview == OverviewOf(Bind(binding, DataOf(responses)))
    ensures AllResolved(responses) ==>
              (|r.sent| == 7 <==> AnyLowStock(Bind(binding, DataOf(responses)).productsRes))
    ensures |r.sent| == 7 ==> r.sent[6] == Call(Get, LowStockPath, map[])
    ensures AllResolved(responses) && |r.sent| == 6 ==> r.lowStockAlert == []
    ensures |r.sent| == 7 ==> r.lowStockAlert == if lowStock.Ok? then lowStock.data else alert
  {
    if !AllResolved(responses) then Refresh(overview, alert, ListCalls())
    else
      var bound := Bind(binding, DataOf(responses));
      var shown := OverviewOf(bound);
      if AnyLowStock(bound.productsRes) then
        var sent := ListCalls() + [Call(Get, LowStockPath, map[])];
        match lowStock
        case Ok(_, data) => Refresh(shown, data, sent)
        case Fail => Refresh(shown, alert, sent)
      else Refresh(shown, [], ListCalls())
  }

  /** As written, each card of the three middle sections shows another
      resource: categories show the products response, products the suppliers
      response, suppliers the categories response. */
  lemma PositionalCardsShowOtherResources(responses: seq<Response<seq<Entry>>>, overview: Overview,
                                          alert: seq<Entry>, lowStock: Response<seq<Entry>>)
    requires |responses| == 6 && AllResolved(responses)
    ensures var o := Load(Positional, overview, alert, responses, lowStock).overview;
            && o.customers == FirstThree(responses[0].data)
            && o.categories == FirstThree(responses[2].data)
            && o.products == FirstThree(responses[3].data)
            && o.suppliers == FirstThree(responses[1].data)
            && o.purchases == FirstThree(responses[4].data)
            && o.sales == FirstThree(responses[5].data)
  {
  }

  /** As written, a product with one item in stock does not bring the banner
      when the suppliers have no stock quantities: the check reads the
      suppliers response. Bound by resource, the same responses fetch it. */
  lemma LowStockMissedAsWritten()
    ensures var low := Entry(7, Some("bolt"), None, Some(1));
            var responses: seq<Response<seq<Entry>>> := [Ok(200, []), Ok(200, []), Ok(200, [low]), Ok(200, []), Ok(200, []), Ok(200, [])];
            && |Load(Positional, EmptyOverview, [], responses, Ok(200, [low])).sent| == 6
            && Load(Positional, EmptyOverview, [], responses, Ok(200, [low])).lowStockAlert == []
            && Load(ByResource, EmptyOverview, [], responses, Ok(200, [low])).lowStockAlert == [low]
  {
    var low := Entry(7, Some("bolt"), None, Some(1));
    var responses: seq<Response<seq<Entry>>> := [Ok(200, []), Ok(200, []), Ok(200, [low]), Ok(200, []), Ok(200, []), Ok(200, [])];
    assert AllResolved(responses);
    var data := DataOf(responses);
    assert Bind(Positional, data).productsRes == [];
    assert Bind(ByResource, data).productsRes == [low];
    assert LowStock(Bind(ByResource, data).productsRes[0]);
  }

  /** Bound by resource, every card shows its own response and the banner is
      fetched exactly when some product is low on stock. */
  lemma ByResourceMatchesRequests(responses: seq<Response<seq<Entry>>>, overview: Overview,
                                  alert: seq<Entry>, lowStock: Response<seq<Entry>>)
    requires |responses| == 6 && AllResolved(responses)
    ensures var r := Load(ByResource, overview, alert, responses, lowStock);
            && r.overview == Overview(FirstThree(responses[0].data), FirstThree(responses[1].data),
                                      FirstThree(responses[2].data), FirstThree(responses[3].data),
                                      FirstThree(responses[4].data), FirstThree(responses[5].data))
            && (|r.sent| == 7 <==> exists i :: 0 <= i < |responses[2].data| && LowStock(responses[2].data[i]))
  {
  }

  class DashboardPage {
    var overviewData: Overview
    var lowStockAlert: seq<Entry>

    constructor ()
      ensures overviewData == EmptyOverview && lowStockAlert == []
    {
      overviewData, lowStockAlert := EmptyOverview, [];
    }

    /** `getAllData` as written: positional binding. */
    method GetAllData(responses: seq<Response<seq<Entry>>>, lowStock: Response<seq<Entry>>)
      returns (sent: seq<Call>)
      requires |responses| == 6
      modifies this
      ensures var r := Load(Positional, old(overviewData), old(lowStockAlert), responses, lowStock);
              overviewData == r.overview && lowStockAlert == r.lowStockAlert && sent == r.sent
    {
      sent := ListCalls();
      if !AllResolved(responses) {
        return;  // the catch: only logged
      }
      var customersRes, suppliersRes, categoriesRes, productsRes, purchasesRes, salesRes :=
        responses[0].data, responses[1].data, responses[2].data, responses[3].data, responses[4].data, responses[5].data;
      overviewData := Overview(FirstThree(customersRes), FirstThree(categoriesRes), FirstThree(productsRes),
                               FirstThree(suppliersRes), FirstThree(purchasesRes), FirstThree(salesRes));
      if AnyLowStock(productsRes) {
        sent := sent + [Call(Get, LowStockPath, map[])];
        if lowStock.Ok? {
          lowStockAlert := lowStock.data;
        }
      } else {
        lowStockAlert := [];
      }
    }
  }

  /** What a section's entries show. */
  datatype Display = ByName | ByTotal

  /** The overview key a section reads. */
  datatype Resource = Customers | Categories | Products | Suppliers | Purchases | Sales

  datatype Section = Section(title: string, key: Resource, link: string, display: Display)

  /** The six sections, in the order the grid renders them (the order of the
      requests as well). */
  const Sections: seq<Section> := [
    Section("Customers", Customers, "/Customer", ByName),
    Section("Categories", Categories, "/Category", ByName),
    Section("Products", Products, "/Product", ByName),
    Section("Suppliers", Suppliers, "/Supplier", ByName),
    Section("Purchases", Purchases, "/Purchase", ByTotal),
    Section("Sales", Sales, "/Sales", ByTotal)
  ]

  /** `overviewData[section.key]`. */
  function EntriesOf(overview: Overview, key: Resource): seq<Entry>
  {
    match key
    case Customers => overview.customers
    case Categories => overview.categories
    case Products => overview.products
    case Suppliers => overview.suppliers
    case Purchases => overview.purchases
    case Sales => overview.sales
  }

  /** The label of one entry: `Total: <total>` for purchases and sales, the
      name for the others, or `ID: <id>` when the name is missing or empty. */
  function EntryLabel(display: Display, e: Entry): (text: string)
    ensures display == ByTotal ==> text == "Total: " + JsString(e.total)
    ensures display == ByName && Truthy(e.name) ==> text == e.name.value
    ensures display == ByName && !Truthy(e.name) ==> text == "ID: " + ShowInt(e.id)
  {
    match display
    case ByTotal => "Total: " + JsString(e.total)
    case ByName => if Truthy(e.name) then e.name.value else "ID: " + ShowInt(e.id)
  }

  /** The list of a card: the "No data available." line, or one line per entry. */
  datatype CardList = NoData | Lines(labels: seq<string>)

  /** A rendered card: its title, its list and the link of its "View All". */
  datatype Card = Card(title: string, list: CardList, viewAll: Option<string>)

  function CardOf(section: Section, entries: seq<Entry>): (card: Card)
    ensures card.title == section.title
    ensures card.list.NoData? <==> |entries| == 0
    ensures card.list.Lines? ==>
              |card.list.labels| == |entries| &&
              forall i :: 0 <= i < |entries| ==> card.list.labels[i] == EntryLabel(section.display, entries[i])
    ensures card.viewAll.Some? <==> |entries| > 0
    ensures card.viewAll.Some? ==> card.viewAll.value == section.link
  {
    if |entries| == 0 then Card(section.title, NoData, None)
    else
      var labels := seq(|entries|, i requires 0 <= i < |entries| => EntryLabel(section.display, entries[i]));
      Card(section.title, Lines(labels), Some(section.link))
  }

  /** `sections.map(...)`: one card per section, in order, each from the
      overview entries under the section's key. */
  function Grid(overview: Overview): (cards: seq<Card>)
    ensures |cards| == |Sections|
    ensures forall i :: 0 <= i < |Sections| ==>
              cards[i].title == Sections[i].title && (cards[i].list.NoData? <==> |EntriesOf(overview, Sections[i].key)| == 0)
  {
    seq(|Sections|, i requires 0 <= i < |Sections| => CardOf(Sections[i], EntriesOf(overview, Sections[i].key)))
  }

  /** As written, the Categories, Products and Suppliers cards render the first
      three records of the products, suppliers and categories responses. */
  lemma PositionalGridShowsOtherResources(responses: seq<Response<seq<Entry>>>, overview: Overview,
                                          alert: seq<Entry>, lowStock: Response<seq<Entry>>)
    requires |responses| == 6 && AllResolved(responses)
    ensures var cards := Grid(Load(Positional, overview, alert, responses, lowStock).overview);
            && cards[1] == CardOf(Sections[1], FirstThree(responses[2].data))
            && cards[2] == CardOf(Sections[2], FirstThree(responses[3].data))
            && cards[3] == CardOf(Sections[3], FirstThree(responses[1].data))
  {
    PositionalCardsShowOtherResources(responses, overview, alert, lowStock);
  }

  /** Bound by resource, card `i` renders the first three records of request
      `i`: the sections and the requests share one order. */
  lemma ByResourceGridShowsOwnRequests(responses: seq<Response<seq<Entry>>>, overview: Overview,
                                       alert: seq<Entry>, lowStock: Response<seq<Entry>>)
    requires |responses| == 6 && AllResolved(responses)
    ensures var cards := Grid(Load(ByResource, overview, alert, responses, lowStock).overview);
            forall i :: 0 <= i < 6 ==> cards[i] == CardOf(Sections[i], FirstThree(responses[i].data))
  {
    ByResourceMatchesRequests(responses, overview, alert, lowStock);
  }

  /** The fallback label names the entry: its id can be read back from it. */
  lemma FallbackLabelCarriesId(e: Entry)
    requires !Truthy(e.name)
    ensures var text := EntryLabel(ByName, e);
            text[..4] == "ID: " && ParseInt(text[4..]) == Some(e.id)
  {
    var text := EntryLabel(ByName, e);
    assert text[4..] == ShowInt(e.id);
    ParseShowInt(e.id);
  }
}
