/** The contract preview (src/components/contract-preview.tsx): three
    templates drawn from the same contract, a lookup with the formal template
    as the fallback, and a container that sets the `--primary-contract`
    colour. */
module ContractPreview {
  import opened Wrappers
  import opened Records
  import Text

  datatype Template = Formal | Modern | Simple

  function Name(t: Template): string
  {
    match t
    case Formal => "formal"
    case Modern => "modern"
    case Simple => "simple"
  }

  /** `templates[template]`: defined exactly for the three names. */
  function Lookup(key: string): (r: Option<Template>)
    ensures r.Some? <==> key == "formal" || key == "modern" || key == "simple"
    ensures r.Some? ==> Name(r.value) == key
  {
    if key == "formal" then Some(Formal)
    else if key == "modern" then Some(Modern)
    else if key == "simple" then Some(Simple)
    else None
  }

  /** `templates[template] || FormalTemplate`. */
  function Select(key: string): (t: Template)
    ensures Lookup(key).Some? ==> t == Lookup(key).value
    ensures Lookup(key).None? ==> t == Formal
  {
    Lookup(key).GetOr(Formal)
  }

  lemma SelectByName(t: Template)
    ensures Select(Name(t)) == t
  {
  }

  /** One numbered or unnumbered clause: its heading and its text. */
  datatype Section = Section(heading: string, body: string)

  /** What a contract template shows: the optional logo, the title, the two
      parties as named in the parties block, the clauses in order, and the
      names above the signature lines. */
  datatype View = View(
    logo: Option<string>,
    title: string,
    client: string,
    contractor: string,
    sections: seq<Section>,
    clientSignature: string,
    contractorSignature: string)

  function LogoBlock(c: ContractData): (r: Option<string>)
    ensures r.Some? <==> c.companyLogo != []
    ensures r.Some? ==> r.value == c.companyLogo
  {
    if c.companyLogo != [] then Some(c.companyLogo) else None
  }

  /** `FormalTemplate`: the title and both parties fall back to placeholder
      text; the signature lines show the names as they are. */
  function RenderFormal(c: ContractData): (v: View)
    ensures v.logo == LogoBlock(c)
    ensures Headings(v.sections) == ["1. Scope of Work", "2. Payment Terms", "3. Terms and Conditions"]
    ensures Bodies(v.sections) == [c.scopeOfWork, c.paymentTerms, c.termsAndConditions]
    ensures v.title == Text.OrElse(c.title, "Contract Agreement")
    ensures v.client == Text.OrElse(c.clientName, "Client Name")
    ensures v.contractor == Text.OrElse(c.contractorName, "Contractor Name")
    ensures v.title != [] && v.client != [] && v.contractor != []
    ensures v.clientSignature == c.clientName && v.contractorSignature == c.contractorName
  {
    View(LogoBlock(c),
         Text.OrElse(c.title, "Contract Agreement"),
         Text.OrElse(c.clientName, "Client Name"),
         Text.OrElse(c.contractorName, "Contractor Name"),
         [Section("1. Scope of Work", c.scopeOfWork),
          Section("2. Payment Terms", c.paymentTerms),
          Section("3. Terms and Conditions", c.termsAndConditions)],
         c.clientName, c.contractorName)
  }

  /** `ModernTemplate`: no placeholder text anywhere, and "&" in the third
      heading. */
  function RenderModern(c: ContractData): (v: View)
    ensures v.logo == LogoBlock(c)
    ensures v.title == c.title && v.client == c.clientName && v.contractor == c.contractorName
    ensures Headings(v.sections) == ["1. Scope of Work", "2. Payment Terms", "3. Terms & Conditions"]
    ensures Bodies(v.sections) == [c.scopeOfWork, c.paymentTerms, c.termsAndConditions]
    ensures v.clientSignature == c.clientName && v.contractorSignature == c.contractorName
  {
    View(LogoBlock(c), c.title, c.clientName, c.contractorName,
         [Section("1. Scope of Work", c.scopeOfWork),
          Section("2. Payment Terms", c.paymentTerms),
          Section("3. Terms & Conditions", c.termsAndConditions)],
         c.clientName, c.contractorName)
  }

  /** `SimpleTemplate`: no placeholder text and unnumbered headings. */
  function RenderSimple(c: ContractData): (v: View)
    ensures v.logo == LogoBlock(c)
    ensures v.title == c.title && v.client == c.clientName && v.contractor == c.contractorName
    ensures Headings(v.sections) == ["Scope of Work", "Payment Terms", "Terms and Conditions"]
    ensures Bodies(v.sections) == [c.scopeOfWork, c.paymentTerms, c.termsAndConditions]
    ensures v.clientSignature == c.clientName && v.contractorSignature == c.contractorName
  {
    View(LogoBlock(c), c.title, c.clientName, c.contractorName,
         [Section("Scope of Work", c.scopeOfWork),
          Section("Payment Terms", c.paymentTerms),
          Section("Terms and Conditions", c.termsAndConditions)],
         c.clientName, c.contractorName)
  }

  function Render(t: Template, c: ContractData): View
  {
    match t
    case Formal => RenderFormal(c)
    case Modern => RenderModern(c)
    case Simple => RenderSimple(c)
  }

  /** The clause texts, in the order shown. */
  function Bodies(sections: seq<Section>): (r: seq<string>)
    ensures |r| == |sections|
    ensures forall i :: 0 <= i < |sections| ==> r[i] == sections[i].body
  {
    if sections == [] then [] else [sections[0].body] + Bodies(sections[1..])
  }

  /** The section headings, in the order shown. */
  function Headings(sections: seq<Section>): (r: seq<string>)
    ensures |r| == |sections|
    ensures forall i :: 0 <= i < |sections| ==> r[i] == sections[i].heading
  {
    if sections == [] then [] else [sections[0].heading] + Headings(sections[1..])
  }

  /** The headings are what sets the three layouts apart: no two templates
      head their sections alike. */
  lemma HeadingsTellTemplatesApart(t1: Template, t2: Template, c: ContractData)
    requires t1 != t2
    ensures Headings(Render(t1, c).sections) != Headings(Render(t2, c).sections)
  {
    var h1 := Headings(Render(t1, c).sections);
    var h2 := Headings(Render(t2, c).sections);
    if t1 == Simple || t2 == Simple {
      assert h1[0] != h2[0] by {
        assert "Scope of Work" != "1. Scope of Work" by {
          assert "Scope of Work"[0] != "1. Scope of Work"[0];
        }
      }
    } else {
      assert h1[2] != h2[2] by {
        assert "3. Terms and Conditions" != "3. Terms & Conditions" by {
          assert "3. Terms and Conditions"[9] != "3. Terms & Conditions"[9];
        }
      }
    }
  }

  /** Every template shows the logo exactly when there is one, and lists the
      scope of work, then the payment terms, then the terms and conditions. */
  lemma EveryTemplateSameClauses(t: Template, c: ContractData)
    ensures Render(t, c).logo.Some? <==> c.companyLogo != []
    ensures Bodies(Render(t, c).sections) == [c.scopeOfWork, c.paymentTerms, c.termsAndConditions]
  {
  }

  datatype Styled = Styled(cssVariable: string, cssValue: string, view: View)

  /** The preview: the selected template draws the contract, and the colour
      goes unchanged into `--primary-contract`. */
  function Preview(c: ContractData, key: string, primaryColor: string): (s: Styled)
    ensures s.cssVariable == "--primary-contract" && s.cssValue == primaryColor
    ensures s.view == Render(Select(key), c)
  {
    Styled("--primary-contract", primaryColor, Render(Select(key), c))
  }
}
