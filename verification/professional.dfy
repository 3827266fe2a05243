/** The professional invoice template
    (src/components/invoice-templates/professional.tsx). It takes only the
    invoice: it has no quotation mode, so its heading always reads INVOICE. */
module ProfessionalInvoice {
  import opened Wrappers
  import opened Records
  import Text
  import opened InvoiceLayout

  /** The top-left corner: the logo, or the company name when there is none. */
  datatype Heading = Logo(url: string) | CompanyHeading(name: string)

  /** What the template shows, top to bottom. */
  datatype View = View(
    heading: Heading,
    docType: string,
    numberLine: string,
    date: Date,
    billedTo: Party,
    from: Party,
    rows: seq<BodyRow>,
    taxRate: real,
    totals: Totals,
    notes: Option<string>,
    footer: string)

  /** The two characters backslash and `n`, which is what the string
      literal `'\\n'` in the footer denotes. */
  const EscapedNewline: string := "\\n"

  /** The footer's address: `companyAddress.replace('\\n', ', ')`. */
  function FooterAddress(address: string): string
  {
    Text.ReplaceFirst(address, EscapedNewline, ", ")
  }

  /** The footer line: the company name, its address and its email,
      separated by " | ". */
  function Footer(inv: Invoice): string
  {
    inv.companyName + " | " + FooterAddress(inv.companyAddress) + " | " + inv.companyEmail
  }

  /** The rendered invoice: the logo when there is one and the company name
      otherwise; the heading INVOICE whatever the data; the parties with their
      placeholders; the table body, the totals and the notes block as every
      invoice template computes them. */
  function Render(inv: Invoice): (v: View)
    ensures v.heading.Logo? <==> inv.companyLogo != []
    ensures v.heading.Logo? ==> v.heading.url == inv.companyLogo
    ensures v.heading.CompanyHeading? ==> v.heading.name == inv.companyName
    ensures v.docType == "INVOICE"
    ensures v.numberLine == "#" + inv.invoiceNumber
    ensures v.date == inv.date && v.taxRate == inv.taxRate
    ensures v.billedTo == ClientParty(inv) && v.from == CompanyParty(inv)
    ensures v.rows == BodyRows(inv.items)
    ensures v.totals == ComputeTotals(inv.items, inv.taxRate)
    ensures v.notes == NotesBlock(inv.notes)
    ensures v.footer == Footer(inv)
  {
    View(
      if inv.companyLogo != [] then Logo(inv.companyLogo) else CompanyHeading(inv.companyName),
      "INVOICE",
      "#" + inv.invoiceNumber,
      inv.date,
      ClientParty(inv),
      CompanyParty(inv),
      BodyRows(inv.items),
      inv.taxRate,
      ComputeTotals(inv.items, inv.taxRate),
      NotesBlock(inv.notes),
      Footer(inv))
  }

  /** No position before the first backslash can start the pattern. */
  lemma NoEscapeBefore(s: string, k: nat)
    requires k <= |s| && '\\' !in s[..k]
    ensures forall j :: 0 <= j < k ==> !Text.OccursAt(s, EscapedNewline, j)
  {
    forall j | 0 <= j < k
      ensures !Text.OccursAt(s, EscapedNewline, j)
    {
      assert s[..k][j] == s[j];
      if j + 2 <= |s| {
        assert s[j..j + 2][0] == s[j];
      }
    }
  }

  /** An address without the escaped sequence, real line breaks included,
      reaches the footer unchanged. */
  lemma FooterKeepsPlainAddress(address: string)
    requires '\\' !in address
    ensures FooterAddress(address) == address
  {
    assert address[..|address|] == address;
    NoEscapeBefore(address, |address|);
  }

  /** Only the first escaped sequence becomes ", ": whatever follows it,
      further escaped sequences included, is kept as it is. */
  lemma FooterReplacesFirstOnly(before: string, after: string)
    requires '\\' !in before
    ensures FooterAddress(before + EscapedNewline + after) == before + ", " + after
  {
    var s := before + EscapedNewline + after;
    var k := |before|;
    assert s[..k] == before;
    assert s[k..k + 2] == EscapedNewline;
    NoEscapeBefore(s, k);
    assert Text.OccursAt(s, EscapedNewline, k);
    var found := Text.FindFrom(s, EscapedNewline, 0);
    assert found == Some(k);
    assert s[k + 2..] == after;
  }

  /** An address without the escaped sequence reaches the footer as it is,
      between the company name and the email. */
  lemma PlainFooter(inv: Invoice)
    requires '\\' !in inv.companyAddress
    ensures Render(inv).footer == inv.companyName + " | " + inv.companyAddress + " | " + inv.companyEmail
  {
    FooterKeepsPlainAddress(inv.companyAddress);
  }
}
