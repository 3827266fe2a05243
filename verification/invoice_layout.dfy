/** What the three invoice templates (professional, modern and simple under
    src/components/invoice-templates/) compute alike: the subtotal, tax and
    total, the table body with its empty-list placeholder, the document type
    label, and the placeholder text that stands in for empty parties.
    Amounts are exact reals; the browser's floating point is not modelled. */
module InvoiceLayout {
  import opened Wrappers
  import opened Records
  import Seqs
  import Text
  import InvoiceForm

  /** One row's amount, `item.quantity * item.price`. */
  function Amount(item: InvoiceItem): real
  {
    item.quantity * item.price
  }

  /** `items.reduce((acc, item) => acc + item.quantity * item.price, acc)`:
      a left fold that adds one amount at a time. */
  function Reduce(acc: real, items: seq<InvoiceItem>): real
    decreases |items|
  {
    if items == [] then acc else Reduce(acc + Amount(items[0]), items[1..])
  }

  /** The plain sum of a list of amounts, the reference the fold is held to. */
  function Sum(amounts: seq<real>): real
  {
    if amounts == [] then 0.0 else amounts[0] + Sum(amounts[1..])
  }

  /** The amount column: one entry per item, in item order. */
  function RowAmounts(items: seq<InvoiceItem>): (r: seq<real>)
    ensures |r| == |items|
    ensures forall i :: 0 <= i < |items| ==> r[i] == items[i].quantity * items[i].price
  {
    Seqs.Map(Amount, items)
  }

  /** The fold started at `acc` adds the sum of the row amounts to `acc`. */
  lemma {:induction false} ReduceIsSum(acc: real, items: seq<InvoiceItem>)
    ensures Reduce(acc, items) == acc + Sum(RowAmounts(items))
    decreases |items|
  {
    if items != [] {
      assert RowAmounts(items)[1..] == RowAmounts(items[1..]);
      ReduceIsSum(acc + Amount(items[0]), items[1..]);
    }
  }

  lemma {:induction false} SumConcat(a: seq<real>, b: seq<real>)
    ensures Sum(a + b) == Sum(a) + Sum(b)
  {
    if a == [] {
      assert a + b == b;
    } else {
      assert (a + b)[1..] == a[1..] + b;
      SumConcat(a[1..], b);
    }
  }

  datatype Totals = Totals(subtotal: real, taxAmount: real, total: real)

  /** The three figures under the table: the subtotal is the sum of the row
      amounts, the tax is the rate as a percentage of it, and the total is
      their sum, that is the subtotal grown by the rate. */
  function ComputeTotals(items: seq<InvoiceItem>, taxRate: real): (t: Totals)
    ensures t.subtotal == Sum(RowAmounts(items))
    ensures t.taxAmount == t.subtotal * taxRate / 100.0
    ensures t.total == t.subtotal + t.taxAmount
    ensures t.total == t.subtotal * (1.0 + taxRate / 100.0)
  {
    var subtotal := Reduce(0.0, items);
    ReduceIsSum(0.0, items);
    var taxAmount := subtotal * (taxRate / 100.0);
    Totals(subtotal, taxAmount, subtotal + taxAmount)
  }

  /** No items: every figure is zero, whatever the rate. */
  lemma EmptyTotals(taxRate: real)
    ensures ComputeTotals([], taxRate) == Totals(0.0, 0.0, 0.0)
  {
  }

  /** Appending an item adds its amount to the subtotal. */
  lemma AppendItemTotals(items: seq<InvoiceItem>, item: InvoiceItem, taxRate: real)
    ensures ComputeTotals(items + [item], taxRate).subtotal
         == ComputeTotals(items, taxRate).subtotal + item.quantity * item.price
  {
    assert RowAmounts(items + [item]) == RowAmounts(items) + [Amount(item)];
    SumConcat(RowAmounts(items), [Amount(item)]);
  }

  /** The row `addItem` appends has quantity 1 and price 0, so adding a row
      leaves every figure as it was. */
  lemma AddItemKeepsTotals(inv: Invoice, now: nat)
    ensures ComputeTotals(InvoiceForm.AddItem(inv, now).items, inv.taxRate)
         == ComputeTotals(inv.items, inv.taxRate)
  {
    var added := InvoiceForm.AddItem(inv, now);
    assert added.items == inv.items + [added.items[|inv.items|]];
    AppendItemTotals(inv.items, added.items[|inv.items|], inv.taxRate);
  }

  /** With no negative quantity, price or rate, the figures are ordered:
      0 <= subtotal <= total. */
  lemma {:induction false} TotalsNonNegative(items: seq<InvoiceItem>, taxRate: real)
    requires forall i :: 0 <= i < |items| ==> items[i].quantity >= 0.0 && items[i].price >= 0.0
    requires taxRate >= 0.0
    ensures 0.0 <= ComputeTotals(items, taxRate).subtotal <= ComputeTotals(items, taxRate).total
  {
    SumNonNegative(RowAmounts(items));
  }

  lemma {:induction false} SumNonNegative(amounts: seq<real>)
    requires forall i :: 0 <= i < |amounts| ==> amounts[i] >= 0.0
    ensures Sum(amounts) >= 0.0
  {
    if amounts != [] {
      SumNonNegative(amounts[1..]);
    }
  }

  const NoItemsText := "No items added yet."

  /** A row of the items table: an item with its amount, or the single
      placeholder row of an empty list. */
  datatype BodyRow = ItemRow(name: string, quantity: real, price: real, amount: real) | PlaceholderRow(text: string)

  function ItemRowOf(item: InvoiceItem): BodyRow
  {
    ItemRow(item.name, item.quantity, item.price, Amount(item))
  }

  /** `items.length > 0 ? items.map(row) : placeholder`: exactly one
      placeholder row when there are no items, otherwise one row per item in
      item order, each showing its item and quantity times price. */
  function BodyRows(items: seq<InvoiceItem>): (rows: seq<BodyRow>)
    ensures items == [] ==> rows == [PlaceholderRow("No items added yet.")]
    ensures items != [] ==> |rows| == |items|
    ensures items != [] ==> forall i :: 0 <= i < |items| ==>
      rows[i] == ItemRow(items[i].name, items[i].quantity, items[i].price, items[i].quantity * items[i].price)
  {
    if |items| > 0 then
      var rows := Seqs.Map(ItemRowOf, items);
      assert forall i :: 0 <= i < |items| ==> rows[i] == ItemRowOf(items[i]);
      rows
    else [PlaceholderRow(NoItemsText)]
  }

  /** The amounts shown in the rows, skipping the placeholder. */
  function ShownAmounts(rows: seq<BodyRow>): seq<real>
  {
    if rows == [] then []
    else (if rows[0].ItemRow? then [rows[0].amount] else []) + ShownAmounts(rows[1..])
  }

  /** The amounts shown in the table add up to the subtotal shown below it,
      with or without items. */
  lemma RowsAddUpToSubtotal(items: seq<InvoiceItem>, taxRate: real)
    ensures Sum(ShownAmounts(BodyRows(items))) == ComputeTotals(items, taxRate).subtotal
  {
    if items == [] {
      assert ShownAmounts([PlaceholderRow(NoItemsText)]) == [];
    } else {
      ShownAmountsOfItems(items);
    }
  }

  lemma {:induction false} ShownAmountsOfItems(items: seq<InvoiceItem>)
    ensures ShownAmounts(Seqs.Map(ItemRowOf, items)) == RowAmounts(items)
  {
    if items != [] {
      var rows := Seqs.Map(ItemRowOf, items);
      assert rows[1..] == Seqs.Map(ItemRowOf, items[1..]);
      ShownAmountsOfItems(items[1..]);
      assert RowAmounts(items) == [Amount(items[0])] + RowAmounts(items[1..]);
    }
  }

  /** The document-type heading of the modern and simple templates. */
  function DocType(isQuotation: bool): (r: string)
    ensures r == "QUOTATION" <==> isQuotation
    ensures r == "INVOICE" <==> !isQuotation
  {
    if isQuotation then "QUOTATION" else "INVOICE"
  }

  /** A block naming one party of the document. */
  datatype Party = Party(name: string, email: string, address: string)

  /** The client block: each empty field shows its placeholder, so no line
      of the block is ever blank. */
  function ClientParty(inv: Invoice): (p: Party)
    ensures p.name == (if inv.clientName == [] then "Client Name" else inv.clientName)
    ensures p.email == (if inv.clientEmail == [] then "client@email.com" else inv.clientEmail)
    ensures p.address == (if inv.clientAddress == [] then "Client Address" else inv.clientAddress)
    ensures p.name != [] && p.email != [] && p.address != []
  {
    Party(Text.OrElse(inv.clientName, "Client Name"),
          Text.OrElse(inv.clientEmail, "client@email.com"),
          Text.OrElse(inv.clientAddress, "Client Address"))
  }

  /** The sender block with its placeholders, used where a template falls
      back for the company (the professional "From:" block and the simple
      template's header). */
  function CompanyParty(inv: Invoice): (p: Party)
    ensures p.name == (if inv.companyName == [] then "Your Company Inc." else inv.companyName)
    ensures p.email == (if inv.companyEmail == [] then "your-email@company.com" else inv.companyEmail)
    ensures p.address == (if inv.companyAddress == [] then "123 Business Rd, Suite 100\nBusiness City, 12345" else inv.companyAddress)
    ensures p.name != [] && p.email != [] && p.address != []
  {
    Party(Text.OrElse(inv.companyName, "Your Company Inc."),
          Text.OrElse(inv.companyEmail, "your-email@company.com"),
          Text.OrElse(inv.companyAddress, "123 Business Rd, Suite 100\nBusiness City, 12345"))
  }

  /** `invoice.notes && (...)`: the notes block, present exactly when there
      are notes. */
  function NotesBlock(notes: string): (r: Option<string>)
    ensures r.Some? <==> notes != []
    ensures r.Some? ==> r.value == notes
  {
    if notes == [] then None else Some(notes)
  }

  /** `isQuotation && validUntil && (...)`: the Valid Until line, present
      exactly for a quotation that has the date. */
  function ValidUntilLine(isQuotation: bool, validUntil: Option<Date>): (r: Option<Date>)
    ensures r.Some? <==> isQuotation && validUntil.Some?
    ensures r.Some? ==> r == validUntil
  {
    if isQuotation then validUntil else None
  }
}
