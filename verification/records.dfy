/** The records the document tools edit and render (src/lib/types.ts), plus
    the two shapes the editors use that the type file does not declare in
    full: the cover letter, and the contract with its company name and logo.

    Optional strings of the source (`companyLogo?`, `logoUrl?`) are plain
    strings here: "" stands for both the empty string and `undefined`, which
    every reader in the source treats alike (both are falsy). */
module Records {

  /** A calendar instant; only its identity matters to the model. */
  datatype Date = Date(millis: int)

  datatype InvoiceItem = InvoiceItem(id: string, name: string, quantity: real, price: real)

  datatype Invoice = Invoice(
    invoiceNumber: string,
    date: Date,
    clientName: string,
    clientEmail: string,
    clientAddress: string,
    items: seq<InvoiceItem>,
    taxRate: real,
    notes: string,
    companyLogo: string,
    companyName: string,
    companyEmail: string,
    companyAddress: string,
    currency: string)

  /** `Quotation extends Invoice`: the inherited fields are `base`. */
  datatype Quotation = Quotation(base: Invoice, quotationNumber: string, validUntil: Date)

  datatype PersonalInfo = PersonalInfo(
    name: string,
    email: string,
    phone: string,
    address: string,
    website: string,
    profileImage: string)

  datatype Experience = Experience(
    id: string,
    company: string,
    title: string,
    startDate: string,
    endDate: string,
    description: string)

  datatype Education = Education(
    id: string,
    school: string,
    degree: string,
    startDate: string,
    endDate: string)

  datatype CvData = CvData(
    personalInfo: PersonalInfo,
    summary: string,
    experience: seq<Experience>,
    education: seq<Education>,
    skills: seq<string>)

  datatype BusinessCardData = BusinessCardData(
    name: string,
    title: string,
    companyName: string,
    email: string,
    phone: string,
    website: string,
    address: string,
    logoUrl: string,
    accentColor: string)

  /** The contract as the contract editor holds it: the declared fields plus
      `companyName` and `companyLogo`, which the editor and the preview use. */
  datatype ContractData = ContractData(
    title: string,
    clientName: string,
    contractorName: string,
    effectiveDate: Date,
    scopeOfWork: string,
    paymentTerms: string,
    termsAndConditions: string,
    companyName: string,
    companyLogo: string)

  datatype RecipientInfo = RecipientInfo(name: string, title: string, company: string, address: string)

  /** The cover letter as the cover-letter editor builds it. */
  datatype CoverLetterData = CoverLetterData(
    personalInfo: PersonalInfo,
    recipientInfo: RecipientInfo,
    date: Date,
    subject: string,
    body: string,
    closing: string)
}
