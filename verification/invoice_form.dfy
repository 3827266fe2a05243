/** The invoice form's handlers (src/components/invoice-form.tsx). Each one
    builds a new invoice from the old one and hands it to `setInvoice`; here
    each is a function from the old invoice to the new one. */
module InvoiceForm {
  import opened Wrappers
  import opened Records
  import Seqs
  import Text

  /** The text inputs wired to `handleInputChange`, by their `name`
      attribute. The form has no input for the company fields or the logo. */
  datatype InputName = InvoiceNumber | ClientName | ClientEmail | ClientAddress | Notes

  /** The invoice field that the input called `name` edits. */
  function Field(inv: Invoice, name: InputName): string
  {
    match name
    case InvoiceNumber => inv.invoiceNumber
    case ClientName => inv.clientName
    case ClientEmail => inv.clientEmail
    case ClientAddress => inv.clientAddress
    case Notes => inv.notes
  }

  /** The invoice with every form-editable text field emptied: two invoices
      with the same blank agree on everything `handleInputChange` leaves alone. */
  function Blank(inv: Invoice): Invoice
  {
    inv.(invoiceNumber := "", clientName := "", clientEmail := "", clientAddress := "", notes := "")
  }

  /** `handleInputChange`: the named field takes the typed value and every
      other field, named or not, keeps its value. */
  function HandleInputChange(inv: Invoice, name: InputName, value: string): (r: Invoice)
    ensures forall n :: Field(r, n) == (if n == name then value else Field(inv, n))
    ensures Blank(r) == Blank(inv)
  {
    match name
    case InvoiceNumber => inv.(invoiceNumber := value)
    case ClientName => inv.(clientName := value)
    case ClientEmail => inv.(clientEmail := value)
    case ClientAddress => inv.(clientAddress := value)
    case Notes => inv.(notes := value)
  }

  /** `parsed || 0` for a number input: `None` stands for NaN. NaN and 0 are
      the falsy numbers, and both are stored as 0; any other number is kept. */
  function OrZero(parsed: Option<real>): (r: real)
    ensures r == 0.0 <==> parsed.None? || parsed.value == 0.0
    ensures r != 0.0 ==> parsed == Some(r)
  {
    match parsed
    case None => 0.0
    case Some(x) => if x == 0.0 then 0.0 else x
  }

  /** The value a row input hands to `handleItemChange`: the typed name, or a
      parsed quantity or price after the `|| 0` fallback. */
  datatype ItemEdit = SetName(name: string) | SetQuantity(quantity: Option<real>) | SetPrice(price: Option<real>)

  /** `{ ...item, [field]: value }`. */
  function ApplyItemEdit(item: InvoiceItem, e: ItemEdit): (r: InvoiceItem)
    ensures r.id == item.id
    ensures e.SetName? ==> r == item.(name := e.name)
    ensures e.SetQuantity? ==> r == item.(quantity := OrZero(e.quantity))
    ensures e.SetPrice? ==> r == item.(price := OrZero(e.price))
  {
    match e
    case SetName(n) => item.(name := n)
    case SetQuantity(q) => item.(quantity := OrZero(q))
    case SetPrice(p) => item.(price := OrZero(p))
  }

  /** `handleItemChange`: same length and order; every item carrying `id` is
      edited, every other item is left as it was, and nothing outside the
      items changes. */
  function HandleItemChange(inv: Invoice, id: string, e: ItemEdit): (r: Invoice)
    ensures |r.items| == |inv.items|
    ensures forall i :: 0 <= i < |inv.items| ==>
      r.items[i] == if inv.items[i].id == id then ApplyItemEdit(inv.items[i], e) else inv.items[i]
    ensures r.(items := inv.items) == inv
  {
    inv.(items := Seqs.UpdateWhere(inv.items, (it: InvoiceItem) => it.id == id, (it: InvoiceItem) => ApplyItemEdit(it, e)))
  }

  /** The tax-rate input: `parseFloat(value) || 0`. */
  function HandleTaxRateChange(inv: Invoice, parsed: Option<real>): (r: Invoice)
    ensures r.(taxRate := inv.taxRate) == inv
    ensures r.taxRate == 0.0 <==> parsed.None? || parsed.value == 0.0
  {
    inv.(taxRate := OrZero(parsed))
  }

  /** The calendar's `onSelect`: `date && setInvoice(...)`, so clearing the
      selection leaves the invoice as it was. */
  function SelectDate(inv: Invoice, picked: Option<Date>): (r: Invoice)
    ensures picked.None? ==> r == inv
    ensures picked.Some? ==> r.date == picked.value && r.(date := inv.date) == inv
  {
    match picked
    case None => inv
    case Some(d) => inv.(date := d)
  }

  /** The blank row `addItem` appends; its id is the clock reading in decimal. */
  function NewItem(now: nat): InvoiceItem
  {
    InvoiceItem(Text.NatToString(now), "", 1.0, 0.0)
  }

  /** `addItem`: exactly one blank item (quantity 1, price 0) at the end, the
      old items untouched in front of it, and nothing else changed. */
  function AddItem(inv: Invoice, now: nat): (r: Invoice)
    ensures |r.items| == |inv.items| + 1
    ensures r.items[..|inv.items|] == inv.items
    ensures r.items[|inv.items|] == InvoiceItem(Text.NatToString(now), "", 1.0, 0.0)
    ensures r.(items := inv.items) == inv
  {
    inv.(items := inv.items + [NewItem(now)])
  }

  /** The test `removeItem` filters with. */
  function KeepUnless(id: string): InvoiceItem -> bool
  {
    (it: InvoiceItem) => it.id != id
  }

  /** `removeItem`: no item with `id` remains, every item with another id
      remains, the survivors are the `filter` of the old items (so they keep
      their order), and nothing outside the items changes. */
  function RemoveItem(inv: Invoice, id: string): (r: Invoice)
    ensures r.items == Seqs.Filter(KeepUnless(id), inv.items)
    ensures forall i :: 0 <= i < |r.items| ==> r.items[i].id != id && r.items[i] in inv.items
    ensures forall i :: 0 <= i < |inv.items| && inv.items[i].id != id ==> inv.items[i] in r.items
    ensures r.(items := inv.items) == inv
  {
    inv.(items := Seqs.Filter(KeepUnless(id), inv.items))
  }

  /** Removing the same id twice is removing it once. */
  lemma RemoveItemIdempotent(inv: Invoice, id: string)
    ensures RemoveItem(RemoveItem(inv, id), id) == RemoveItem(inv, id)
  {
    Seqs.FilterIdempotent(KeepUnless(id), inv.items);
  }

  /** Removing an id no item carries changes nothing. */
  lemma RemoveAbsentItem(inv: Invoice, id: string)
    requires forall i :: 0 <= i < |inv.items| ==> inv.items[i].id != id
    ensures RemoveItem(inv, id) == inv
  {
    Seqs.FilterKeepsAll(KeepUnless(id), inv.items);
  }

  /** Removal acts on each item by itself: removing from a concatenation is
      removing from each part, which is what "in their original order" means. */
  lemma RemoveItemSplits(inv: Invoice, id: string, k: nat)
    requires k <= |inv.items|
    ensures RemoveItem(inv, id).items
         == RemoveItem(inv.(items := inv.items[..k]), id).items
          + RemoveItem(inv.(items := inv.items[k..]), id).items
  {
    assert inv.items == inv.items[..k] + inv.items[k..];
    Seqs.FilterConcat(KeepUnless(id), inv.items[..k], inv.items[k..]);
  }

  /** A new row's id differs from every existing id as long as the clock
      reading was not used before, so rows stay individually addressable. */
  lemma AddItemKeepsIdsUnique(inv: Invoice, now: nat, earlier: seq<nat>)
    requires |earlier| == |inv.items|
    requires forall i :: 0 <= i < |inv.items| ==> inv.items[i].id == Text.NatToString(earlier[i]) && earlier[i] < now
    requires forall i, j :: 0 <= i < j < |inv.items| ==> inv.items[i].id != inv.items[j].id
    ensures forall i, j :: 0 <= i < j < |AddItem(inv, now).items| ==>
      AddItem(inv, now).items[i].id != AddItem(inv, now).items[j].id
  {
    var r := AddItem(inv, now).items;
    forall i | 0 <= i < |inv.items|
      ensures r[i].id != r[|inv.items|].id
    {
      if r[i].id == r[|inv.items|].id {
        Text.NatToStringInjective(earlier[i], now);
      }
    }
  }

  /** Everything the form can do to an invoice. */
  datatype FormEdit =
    | Input(name: InputName, value: string)
    | Item(id: string, edit: ItemEdit)
    | Add(now: nat)
    | Remove(id: string)
    | TaxRate(parsed: Option<real>)
    | PickDate(picked: Option<Date>)

  /** One form edit. None of them reaches the company fields, the logo or the
      currency, which only the editor page sets. */
  function Apply(inv: Invoice, e: FormEdit): (r: Invoice)
    ensures r.companyLogo == inv.companyLogo && r.companyName == inv.companyName
    ensures r.companyEmail == inv.companyEmail && r.companyAddress == inv.companyAddress
    ensures r.currency == inv.currency
  {
    match e
    case Input(n, v) => HandleInputChange(inv, n, v)
    case Item(id, ed) => HandleItemChange(inv, id, ed)
    case Add(now) => AddItem(inv, now)
    case Remove(id) => RemoveItem(inv, id)
    case TaxRate(p) => HandleTaxRateChange(inv, p)
    case PickDate(d) => SelectDate(inv, d)
  }
}
