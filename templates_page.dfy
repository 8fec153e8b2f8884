/** The templates page: searching and filtering the template list, and what each row shows
    (language tag, placeholder badges, whether "Use Template" is enabled). */
module TemplatesPage {
  import opened Wrappers
  import opened Strings
  import opened Seqs
  import opened WhatsAppApi

  /** The search box matches a case-insensitive substring of the template name. */
  predicate MatchesSearch(t: WhatsAppTemplate, searchTerm: string) {
    Contains(ToLower(t.name), ToLower(searchTerm))
  }

  /** The status selector: `'all'` or one exact status. */
  predicate MatchesStatus(t: WhatsAppTemplate, statusFilter: string) {
    statusFilter == "all" || t.status == statusFilter
  }

  /** `filteredTemplates`. */
  function FilteredTemplates(templates: seq<WhatsAppTemplate>, searchTerm: string, statusFilter: string)
    : (shown: seq<WhatsAppTemplate>)
    ensures forall t :: t in shown <==>
      t in templates && MatchesSearch(t, searchTerm) && MatchesStatus(t, statusFilter)
    ensures |shown| <= |templates|
  {
    Filter(templates, (t: WhatsAppTemplate) => MatchesSearch(t, searchTerm) && MatchesStatus(t, statusFilter))
  }

  /** The filtered list keeps the order of the full list. */
  lemma FilterKeepsOrder(templates: seq<WhatsAppTemplate>, searchTerm: string, statusFilter: string)
    ensures IsSubsequence(FilteredTemplates(templates, searchTerm, statusFilter), templates)
  {
    FilterIsSubsequence(templates, (t: WhatsAppTemplate) => MatchesSearch(t, searchTerm) && MatchesStatus(t, statusFilter));
  }

  /** Every template is shown exactly when every template passes both filters. */
  lemma AllShownIff(templates: seq<WhatsAppTemplate>, searchTerm: string, statusFilter: string)
    ensures |FilteredTemplates(templates, searchTerm, statusFilter)| == |templates| <==>
      forall t :: t in templates ==> MatchesSearch(t, searchTerm) && MatchesStatus(t, statusFilter)
  {
    FilterLengthIff(templates, (t: WhatsAppTemplate) => MatchesSearch(t, searchTerm) && MatchesStatus(t, statusFilter));
  }

  /** With an empty search and every status, all templates are shown. */
  lemma UnfilteredShowsAll(templates: seq<WhatsAppTemplate>)
    ensures FilteredTemplates(templates, "", "all") == templates
  {
    forall t | t in templates ensures MatchesSearch(t, "") && MatchesStatus(t, "all") {
      assert ToLower("") == "";
    }
    FilterAll(templates, (t: WhatsAppTemplate) => MatchesSearch(t, "") && MatchesStatus(t, "all"));
  }

  /** A search matches exactly when the lowercased term occurs somewhere in the lowercased name. */
  lemma SearchIsSubstring(t: WhatsAppTemplate, searchTerm: string)
    ensures MatchesSearch(t, searchTerm) <==> exists k: nat :: OccursAt(ToLower(t.name), ToLower(searchTerm), k)
  {
    ContainsIff(ToLower(t.name), ToLower(searchTerm));
  }

  /** The language column: the first `'_'` becomes `'-'`, then the tag is uppercased. */
  function LanguageLabel(language: string): (tag: string)
    ensures |tag| == |language|
    ensures '_' !in language ==> tag == ToUpper(language)
  {
    ToUpper(ReplaceFirst(language, '_', '-'))
  }

  /** Only the first underscore changes: `en_US` is shown as `EN-US`. */
  lemma LanguageLabelAt(language: string, k: nat)
    requires k < |language| && language[k] == '_' && '_' !in language[..k]
    ensures LanguageLabel(language) == ToUpper(language[..k] + "-" + language[k + 1..])
  {
    ReplaceFirstAt(language, '_', '-', k);
  }

  /** "Use Template" is enabled for approved templates only, the ones with the success badge. */
  predicate UseTemplateEnabled(t: WhatsAppTemplate) {
    t.status == "APPROVED"
  }

  lemma UseTemplateMatchesBadge(t: WhatsAppTemplate)
    ensures UseTemplateEnabled(t) <==> StatusBadgeVariant(t.status) == "success"
  {
  }

  const MaxBadges := 3

  /** The placeholders column: "None", or the first three placeholders and a `+N more` badge. */
  datatype PlaceholderColumn = NoPlaceholders | Badges(shown: seq<string>, more: Option<string>)

  function PlaceholderBadges(placeholders: seq<string>): (column: PlaceholderColumn)
    ensures column.NoPlaceholders? <==> placeholders == []
    ensures column.Badges? ==> column.shown <= placeholders
    ensures column.Badges? ==> |column.shown| == if |placeholders| < MaxBadges then |placeholders| else MaxBadges
    ensures column.Badges? ==> (column.more.Some? <==> |placeholders| > MaxBadges)
    ensures column.Badges? && column.more.Some? ==>
      column.more.value == "+" + NatToString(|placeholders| - MaxBadges) + " more"
  {
    if |placeholders| == 0 then NoPlaceholders
    else
      var shown := if |placeholders| < MaxBadges then placeholders else placeholders[..MaxBadges];
      Badges(shown, if |placeholders| > MaxBadges then Some("+" + NatToString(|placeholders| - MaxBadges) + " more") else None)
  }

  /** Past three placeholders, the badges shown and the hidden ones make up the whole list,
      and `+N more` counts the hidden ones. */
  lemma HiddenPlaceholdersCounted(placeholders: seq<string>)
    requires |placeholders| > MaxBadges
    ensures var column := PlaceholderBadges(placeholders);
      column.Badges? && column.shown + placeholders[MaxBadges..] == placeholders &&
      column.more == Some("+" + NatToString(|placeholders[MaxBadges..]|) + " more")
  {
  }
}
