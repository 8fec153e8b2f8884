/** The template picker of the campaign wizard: it offers the approved templates and reports
    the chosen template's name and language. */
module TemplateSelect {
  import opened Wrappers
  import opened Seqs
  import opened WhatsAppApi

  predicate IsApproved(t: WhatsAppTemplate) {
    t.status == "APPROVED"
  }

  /** The templates offered: the approved ones, in catalogue order. */
  function ApprovedTemplates(templates: seq<WhatsAppTemplate>): (offered: seq<WhatsAppTemplate>)
    ensures forall t :: t in offered <==> t in templates && t.status == "APPROVED"
  {
    Filter(templates, IsApproved)
  }

  /** The offered templates keep the catalogue's order. */
  lemma ApprovedKeepsOrder(templates: seq<WhatsAppTemplate>)
    ensures IsSubsequence(ApprovedTemplates(templates), templates)
  {
    FilterIsSubsequence(templates, IsApproved);
  }

  /** The test `find` applies: the template has the name. */
  function HasName(name: string): WhatsAppTemplate -> bool {
    (t: WhatsAppTemplate) => t.name == name
  }

  /** `templates.find(t => t.name === name)`. */
  function FindByName(templates: seq<WhatsAppTemplate>, name: string): (r: Option<WhatsAppTemplate>)
    ensures r.None? <==> forall i :: 0 <= i < |templates| ==> templates[i].name != name
    ensures r.Some? ==> r.value in templates && r.value.name == name
  {
    Find(templates, HasName(name))
  }

  /** `find` returns the first template with the name. */
  lemma FindByNameFirst(templates: seq<WhatsAppTemplate>, name: string, k: nat)
    requires k < |templates| && templates[k].name == name
    requires forall j :: 0 <= j < k ==> templates[j].name != name
    ensures FindByName(templates, name) == Some(templates[k])
  {
    FindFirst(templates, HasName(name), k);
  }

  /** `handleTemplateSelect`: the callback's arguments (name, language), or nothing when the
      name is not among the offered templates. */
  function HandleTemplateSelect(offered: seq<WhatsAppTemplate>, templateName: string): (call: Option<(string, string)>)
    ensures call.None? <==> forall i :: 0 <= i < |offered| ==> offered[i].name != templateName
    ensures call.Some? ==>
      call.value.0 == templateName && call.value.1 == FindByName(offered, templateName).value.language
  {
    match FindByName(offered, templateName)
    case None => None
    case Some(t) => Some((templateName, t.language))
  }

  /** A template reported by the picker is an approved one of the catalogue. */
  lemma SelectedIsApproved(templates: seq<WhatsAppTemplate>, templateName: string)
    requires HandleTemplateSelect(ApprovedTemplates(templates), templateName).Some?
    ensures exists t :: t in templates && t.status == "APPROVED" && t.name == templateName
  {
    var t := FindByName(ApprovedTemplates(templates), templateName).value;
    assert t in templates && t.status == "APPROVED";
  }

  predicate IsBody(c: TemplateComponent) {
    c.componentType == "BODY"
  }

  /** The preview shows the BODY components only, in order. */
  function PreviewComponents(t: WhatsAppTemplate): (shown: seq<TemplateComponent>)
    ensures forall c :: c in shown <==> c in t.components && c.componentType == "BODY"
  {
    Filter(t.components, IsBody)
  }
}
