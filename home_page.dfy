/** The home (templates) page: the catalog response turned into templates, and the summary
    line under the filtered list. Filtering and the badges are those of the templates page. */
module HomePage {
  import opened Wrappers
  import opened Strings
  import opened Seqs
  import opened WhatsAppApi
  import opened TemplatesPage

  /** A component as the catalog returns it. */
  datatype ApiComponent = ApiComponent(componentType: string, text: Option<string>, format: Option<string>)

  /** A template as the catalog returns it. */
  datatype ApiTemplate = ApiTemplate(
    name: string,
    parameter_format: Option<string>,
    components: seq<ApiComponent>,
    language: string,
    status: string,
    category: string,
    sub_category: Option<string>,
    id: string)

  /** A component keeps its type and text; `format` is kept only when truthy. */
  function ToComponent(c: ApiComponent): (t: TemplateComponent)
    ensures t.componentType == c.componentType && t.text == c.text
    ensures Truthy(c.format) ==> t.format == c.format
    ensures !Truthy(c.format) ==> t.format.None?
  {
    TemplateComponent(c.componentType, if Truthy(c.format) then c.format else None, c.text)
  }

  function ToTemplate(a: ApiTemplate): (t: WhatsAppTemplate)
    ensures t.id == a.id && t.name == a.name && t.language == a.language
    ensures t.status == a.status && t.category == a.category
    ensures |t.components| == |a.components|
    ensures forall j :: 0 <= j < |a.components| ==> t.components[j] == ToComponent(a.components[j])
  {
    WhatsAppTemplate(a.id, a.name, a.language, a.status, a.category,
      seq(|a.components|, j requires 0 <= j < |a.components| => ToComponent(a.components[j])))
  }

  /** `realTemplates`: one template per catalog entry, in order. */
  function RealTemplates(data: seq<ApiTemplate>): (templates: seq<WhatsAppTemplate>)
    ensures |templates| == |data|
    ensures forall i :: 0 <= i < |data| ==> templates[i] == ToTemplate(data[i])
  {
    seq(|data|, i requires 0 <= i < |data| => ToTemplate(data[i]))
  }

  /** Converting does not change the placeholders: each component still contributes the
      placeholders of its own text. */
  lemma ConversionKeepsPlaceholders(a: ApiTemplate)
    ensures forall j :: 0 <= j < |a.components| ==>
      ComponentTokens(ToTemplate(a).components[j]) ==
        (if Truthy(a.components[j].text) then TokensFrom(a.components[j].text.value, 0) else [])
  {
  }

  /** "Showing X of Y templates": X counts the filtered templates and Y all of them; X reaches
      Y exactly when every template passes the search and the status filter. */
  function ShowingCounts(templates: seq<WhatsAppTemplate>, searchTerm: string, statusFilter: string)
    : (counts: (nat, nat))
    ensures counts.0 == |FilteredTemplates(templates, searchTerm, statusFilter)|
    ensures counts.1 == |templates|
    ensures counts.0 == counts.1 <==>
      forall t :: t in templates ==> MatchesSearch(t, searchTerm) && MatchesStatus(t, statusFilter)
  {
    AllShownIff(templates, searchTerm, statusFilter);
    (|FilteredTemplates(templates, searchTerm, statusFilter)|, |templates|)
  }

  /** With an empty search and every status the summary reads "Showing Y of Y". */
  lemma ShowingAllUnfiltered(templates: seq<WhatsAppTemplate>)
    ensures ShowingCounts(templates, "", "all").0 == |templates|
  {
    UnfilteredShowsAll(templates);
  }
}
