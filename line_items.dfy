/** The line-item editor of the purchase and sales pages: a list of rows
    (product, amount, unit price) edited by add, change-field and remove,
    with a subtotal kept equal to the sum of price times amount, and a submit
    that posts a header record and one item per row. The two pages differ only
    in the price they look up (`costPrice` or `sellingPrice`), the name of the
    party field and the endpoints. Prices are whole numbers of cents. */
module LineItems {
  import opened Common
  import opened Decimal

  /** The value of the amount input (`type="number"`): blank or whole units. */
  datatype Amount = Blank | Units(n: int)

  /** One row of `selectedProducts`. */
  datatype Row = Row(productId: string, amount: Amount, price: int)

  /** One product of the catalogue, as the list endpoint returns it. */
  datatype Product = Product(id: int, costPrice: int, sellingPrice: int)

  /** Which page: purchases look up `costPrice`, sales `sellingPrice`. */
  datatype Ledger = Purchases | Sales

  /** The two ways the rows' inputs call `handleProductChange`. */
  datatype Edit = SetProductId(choice: string) | SetAmount(quantity: Amount)

  /** The row `handleAddProduct` appends: no product, blank amount, price 0. */
  const BlankRow := Row("", Blank, 0)

  /** A blank amount multiplies as 0 (`"" * price` is 0). */
  function Quantity(amount: Amount): int
  {
    match amount
    case Blank => 0
    case Units(n) => n
  }

  function LineTotal(row: Row): int
  {
    row.price * Quantity(row.amount)
  }

  /** `calculateSubtotal`: the reduce from the left, starting at 0. Its sum is
      the same taken from the front: the first row's line total plus the
      subtotal of the others. */
  function Subtotal(rows: seq<Row>): (total: int)
    ensures rows == [] ==> total == 0
    ensures rows != [] ==> total == LineTotal(rows[0]) + Subtotal(rows[1..])
  {
    if rows == [] then 0
    else
      var init := rows[..|rows| - 1];
      assert |rows| > 1 ==> init[1..] == rows[1..][..|rows| - 2];
      Subtotal(init) + LineTotal(rows[|rows| - 1])
  }

  function UnitPrice(ledger: Ledger, product: Product): int
  {
    match ledger
    case Purchases => product.costPrice
    case Sales => product.sellingPrice
  }

  /** The price a row takes when its product select changes to `value`:
      the price of the first product whose id equals `parseInt(value)`, or 0
      when there is none (`parseInt("")` is NaN and equals no id). */
  function LookupPrice(ledger: Ledger, catalogue: seq<Product>, value: string): (price: int)
    ensures (forall i :: 0 <= i < |catalogue| ==> Some(catalogue[i].id) != ParseInt(value)) ==> price == 0
    ensures (exists i :: 0 <= i < |catalogue| && Some(catalogue[i].id) == ParseInt(value)) ==>
              exists i :: 0 <= i < |catalogue| && Some(catalogue[i].id) == ParseInt(value) &&
                          (forall j :: 0 <= j < i ==> Some(catalogue[j].id) != ParseInt(value)) &&
                          price == UnitPrice(ledger, catalogue[i])
    ensures value == "" ==> price == 0
  {
    var id := ParseInt(value);
    match Find(catalogue, (p: Product) => Some(p.id) == id)
    case Some(found) => UnitPrice(ledger, found)
    case None => 0
  }

  /** One call of `handleProductChange` on one row: the named field takes the
      value, and a new product also brings its price. */
  function ApplyEdit(ledger: Ledger, catalogue: seq<Product>, row: Row, edit: Edit): (r: Row)
    ensures edit.SetAmount? ==> r == Row(row.productId, edit.quantity, row.price)
    ensures edit.SetProductId? ==>
              r == Row(edit.choice, row.amount, LookupPrice(ledger, catalogue, edit.choice))
  {
    match edit
    case SetProductId(value) => row.(productId := value).(price := LookupPrice(ledger, catalogue, value))
    case SetAmount(value) => row.(amount := value)
  }

  /** `rows.filter((_, i) => i !== index)`, walking the positions in order. */
  function WithoutIndex(rows: seq<Row>, index: int): (r: seq<Row>)
    ensures 0 <= index < |rows| ==> r == rows[..index] + rows[index + 1..]
    ensures !(0 <= index < |rows|) ==> r == rows
  {
    if rows == [] then []
    else
      var rest := WithoutIndex(rows[1..], index - 1);
      if index == 0 then rest
      else
        assert 0 < index < |rows| ==> rows[1..][..index - 1] == rows[1..index];
        [rows[0]] + rest
  }

  lemma SubtotalAppend(rows: seq<Row>, row: Row)
    ensures Subtotal(rows + [row]) == Subtotal(rows) + LineTotal(row)
  {
    assert (rows + [row])[..|rows|] == rows;
  }

  lemma {:induction false} SubtotalConcat(a: seq<Row>, b: seq<Row>)
    ensures Subtotal(a + b) == Subtotal(a) + Subtotal(b)
    decreases |b|
  {
    if b == [] {
      assert a + b == a;
    } else {
      var init := b[..|b| - 1];
      var last := b[|b| - 1];
      assert a + b == (a + init) + [last];
      assert b == init + [last];
      SubtotalAppend(a + init, last);
      SubtotalAppend(init, last);
      SubtotalConcat(a, init);
    }
  }

  /** Removing row `index` takes exactly its line total off the subtotal. */
  lemma SubtotalWithout(rows: seq<Row>, index: int)
    requires 0 <= index < |rows|
    ensures Subtotal(WithoutIndex(rows, index)) == Subtotal(rows) - LineTotal(rows[index])
  {
    var before, after := rows[..index], rows[index + 1..];
    var withRow := before + [rows[index]];
    assert rows == withRow + after;
    assert WithoutIndex(rows, index) == before + after;
    SubtotalConcat(withRow, after);
    SubtotalAppend(before, rows[index]);
    SubtotalConcat(before, after);
  }

  /** Replacing row `index` changes the subtotal by the difference of the
      two line totals. */
  lemma SubtotalReplace(rows: seq<Row>, index: int, row: Row)
    requires 0 <= index < |rows|
    ensures Subtotal(rows[index := row]) == Subtotal(rows) - LineTotal(rows[index]) + LineTotal(row)
  {
    var before, after := rows[..index], rows[index + 1..];
    assert rows == before + [rows[index]] + after;
    assert rows[index := row] == before + [row] + after;
    SubtotalConcat(before + [rows[index]], after);
    SubtotalConcat(before + [row], after);
    SubtotalAppend(before, rows[index]);
    SubtotalAppend(before, row);
  }

  /** With distinct ids, choosing a listed product in the select (its option
      value is `${id}`) sets the row's price to that product's price. */
  lemma SelectingListedProduct(ledger: Ledger, catalogue: seq<Product>, k: nat)
    requires k < |catalogue|
    requires forall i, j :: 0 <= i < |catalogue| && 0 <= j < |catalogue| && catalogue[i].id == catalogue[j].id ==> i == j
    ensures LookupPrice(ledger, catalogue, ShowInt(catalogue[k].id)) == UnitPrice(ledger, catalogue[k])
  {
    var id := ParseInt(ShowInt(catalogue[k].id));
    ParseShowInt(catalogue[k].id);
    FindUnique(catalogue, (p: Product) => Some(p.id) == id, k);
  }

  /** The text a row's amount input holds. */
  function AmountText(amount: Amount): Value
  {
    match amount
    case Blank => Str("")
    case Units(n) => Str(ShowInt(n))
  }

  function HeaderCall(ledger: Ledger, party: string): Call
  {
    match ledger
    case Purchases => Call(Post, "api/purchases/", map["supplier" := Str(party)])
    case Sales => Call(Post, "api/sales/", map["customer" := Str(party)])
  }

  /** The item property that names the header record. */
  function HeaderRef(ledger: Ledger): string
  {
    match ledger
    case Purchases => "purchase"
    case Sales => "sale"
  }

  function ItemCall(ledger: Ledger, id: int, row: Row): Call
  {
    var body := map[HeaderRef(ledger) := Num(id), "product" := Str(row.productId), "quantity" := AmountText(row.amount)];
    match ledger
    case Purchases => Call(Post, "api/purchases/items/", body)
    case Sales => Call(Post, "api/sales/items/", body)
  }

  /** `rows.map(... => post item)`: one item call per row, in row order, each
      carrying the new header id. */
  function ItemCalls(ledger: Ledger, id: int, rows: seq<Row>): (calls: seq<Call>)
    ensures |calls| == |rows|
    ensures forall i :: 0 <= i < |rows| ==> calls[i] == ItemCall(ledger, id, rows[i])
    ensures forall i :: 0 <= i < |rows| ==>
              HeaderRef(ledger) in calls[i].body && calls[i].body[HeaderRef(ledger)] == Num(id)
  {
    if rows == [] then []
    else [ItemCall(ledger, id, rows[0])] + ItemCalls(ledger, id, rows[1..])
  }

  function ListCall(ledger: Ledger): Call
  {
    match ledger
    case Purchases => Call(Get, "api/purchases/", map[])
    case Sales => Call(Get, "api/sales/", map[])
  }

  /** The header call resolved and every item call resolved. */
  predicate Succeeded(header: Response<int>, items: seq<bool>)
  {
    header.Ok? && false !in items
  }

  class LineItemEditor {
    const ledger: Ledger
    var catalogue: seq<Product>
    var rows: seq<Row>
    var subtotal: int
    /** `selectedSupplier` or `selectedCustomer`. */
    var party: string
    /** `purchaseRecords` or `salesList`. */
    var records: seq<Body>

    ghost predicate Valid()
      reads this
    {
      subtotal == Subtotal(rows)
    }

    constructor (ledger: Ledger)
      ensures Valid() && this.ledger == ledger
      ensures catalogue == [] && rows == [] && subtotal == 0 && party == "" && records == []
    {
      this.ledger := ledger;
      catalogue, rows, subtotal, party, records := [], [], 0, "", [];
    }

    /** The product list arriving from the page's initial fetch. */
    method ReceiveCatalogue(response: Response<seq<Product>>)
      modifies this`catalogue
      ensures response.Ok? ==> catalogue == response.data
      ensures response.Fail? ==> catalogue == old(catalogue)
    {
      if response.Ok? {
        catalogue := response.data;
      }
    }

    method SetParty(value: string)
      modifies this`party
      ensures party == value
    {
      party := value;
    }

    /** `handleAddProduct`: the subtotal is not recomputed, and stays right
        because a blank row adds 0. */
    method AddRow()
      requires Valid()
      modifies this`rows
      ensures Valid()
      ensures rows == old(rows) + [BlankRow]
      ensures |rows| == |old(rows)| + 1 && rows[..|old(rows)|] == old(rows)
    {
      SubtotalAppend(rows, BlankRow);
      rows := rows + [BlankRow];
    }

    /** `handleProductChange(index, field, value)`. */
    method ChangeField(index: nat, edit: Edit)
      requires Valid()
      requires index < |rows|
      modifies this`rows, this`subtotal
      ensures Valid()
      ensures rows == old(rows)[index := ApplyEdit(ledger, catalogue, old(rows)[index], edit)]
      ensures subtotal == old(subtotal) - LineTotal(old(rows)[index]) + LineTotal(rows[index])
    {
      var updated := rows;
      var row := updated[index];
      match edit {
        case SetProductId(value) =>
          row := row.(productId := value);
          row := row.(price := LookupPrice(ledger, catalogue, value));
        case SetAmount(value) =>
          row := row.(amount := value);
      }
      updated := updated[index := row];
      SubtotalReplace(rows, index, row);
      rows := updated;
      subtotal := Subtotal(updated);
    }

    /** `handleRemoveProduct(index)`. */
    method RemoveRow(index: int)
      requires Valid()
      modifies this`rows, this`subtotal
      ensures Valid()
      ensures rows == WithoutIndex(old(rows), index)
      ensures 0 <= index < |old(rows)| ==> subtotal == old(subtotal) - LineTotal(old(rows)[index])
      ensures !(0 <= index < |old(rows)|) ==> rows == old(rows) && subtotal == old(subtotal)
    {
      var updated := WithoutIndex(rows, index);
      if 0 <= index < |rows| {
        SubtotalWithout(rows, index);
      }
      rows := updated;
      subtotal := Subtotal(updated);
    }

    /** `handleSubmit`: post the header, then every item at once with the
        header's id; once all have resolved, clear the form and fetch the list
        again. A rejection anywhere before that leaves the form as it was. */
    method Submit(header: Response<int>, items: seq<bool>, refreshed: Response<seq<Body>>)
      returns (sent: seq<Call>)
      requires Valid()
      requires |items| == |rows|
      modifies this`rows, this`subtotal, this`party, this`records
      ensures Valid()
      ensures |sent| == if header.Fail? then 1 else if Succeeded(header, items) then |old(rows)| + 2 else |old(rows)| + 1
      ensures sent[0] == HeaderCall(ledger, old(party))
      ensures header.Ok? ==> sent[1..|old(rows)| + 1] == ItemCalls(ledger, header.data, old(rows))
      ensures Succeeded(header, items) ==> sent[|sent| - 1] == ListCall(ledger)
      ensures Succeeded(header, items) ==> rows == [] && subtotal == 0 && party == ""
      ensures Succeeded(header, items) && refreshed.Ok? ==> records == refreshed.data
      ensures !Succeeded(header, items) || refreshed.Fail? ==> records == old(records)
      ensures !Succeeded(header, items) ==> rows == old(rows) && subtotal == old(subtotal) && party == old(party)
    {
      sent := [HeaderCall(ledger, party)];
      if header.Fail? {
        return;
      }
      sent := sent + ItemCalls(ledger, header.data, rows);
      if false in items {
        return;
      }
      rows := [];
      subtotal := 0;
      party := "";
      sent := sent + [ListCall(ledger)];
      if refreshed.Ok? {
        records := refreshed.data;
      }
    }
  }
}
