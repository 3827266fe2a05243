/** The home page (src/app/page.tsx): the list of tools and the category tabs
    that filter it. */
module Home {
  import Seqs

  /** A tool card: where it links, its title and its category. */
  datatype Tool = Tool(href: string, title: string, category: string)

  const Tools: seq<Tool> := [
    Tool("/invoice", "Invoice Maker", "document"),
    Tool("/cv", "CV Maker", "document"),
    Tool("/quotation", "Quotation Generator", "document"),
    Tool("/business-card", "Business Card Maker", "graphic"),
    Tool("/contract", "Contract Generator", "document"),
    Tool("/qr-code", "QR Code Generator", "productive")
  ]

  /** The categories the tools use. */
  const Categories: set<string> := {"document", "graphic", "productive"}

  lemma ToolCategories()
    ensures forall i :: 0 <= i < |Tools| ==> Tools[i].category in Categories
  {
  }

  /** Whether a card is shown under the selected tab. */
  predicate Shown(filter: string, t: Tool)
  {
    filter == "all" || t.category == filter
  }

  /** `filteredTools`: the tools shown under the tab, in the list's order. */
  function FilteredTools(filter: string): (r: seq<Tool>)
    ensures |r| <= |Tools|
    ensures forall t :: t in r <==> t in Tools && Shown(filter, t)
    ensures Seqs.IsSubsequence(r, Tools)
  {
    var keep := (t: Tool) => Shown(filter, t);
    var r := Seqs.Filter(keep, Tools);
    Seqs.FilterIsSubsequence(keep, Tools);
    r
  }

  /** The "all" tab shows every tool, in order. */
  lemma AllShowsEveryTool()
    ensures FilteredTools("all") == Tools
  {
    var keep := (t: Tool) => Shown("all", t);
    Seqs.FilterKeepsAll(keep, Tools);
  }

  /** A category that no tool has shows nothing. */
  lemma UnknownCategoryShowsNothing(filter: string)
    requires filter != "all" && filter !in Categories
    ensures FilteredTools(filter) == []
  {
    ToolCategories();
    assert forall t :: t in Tools ==> !Shown(filter, t);
  }
}
