/*
 * The label templates offered for printing, and the lookup by id that
 * falls back to the first template.
 */
module LabelTemplates {
  import opened Text

  datatype LabelTemplate = LabelTemplate(id: string, name: string, layout: string)

  const DefaultTemplate: LabelTemplate := LabelTemplate("default", "Default Template",
    "<div class=\"label\"><span class=\"barcode\">{barcode}</span></div>")

  const DetailedTemplate: LabelTemplate := LabelTemplate("detailed", "Detailed Template",
    "<div class=\"label\"><span class=\"barcode\">{barcode}</span><span class=\"details\">{details}</span></div>")

  /** The templates in the order the page lists them. */
  const Templates: seq<LabelTemplate> := [DefaultTemplate, DetailedTemplate]

  /** Array.prototype.find: the first template with the id, if any. */
  function FindById(ts: seq<LabelTemplate>, id: string): (r: Option<LabelTemplate>)
    ensures r.Some? ==> r.value in ts && r.value.id == id
    ensures r.None? <==> forall k :: 0 <= k < |ts| ==> ts[k].id != id
  {
    if ts == [] then None
    else if ts[0].id == id then Some(ts[0])
    else FindById(ts[1..], id)
  }

  /** getTemplateById: the template with the id, or the first one. */
  function GetTemplateById(id: string): LabelTemplate
  {
    match FindById(Templates, id)
    case Some(t) => t
    case None => Templates[0]
  }

  /** No two templates share an id. */
  lemma TemplateIdsDistinct(i: nat, j: nat)
    requires i < j < |Templates|
    ensures Templates[i].id != Templates[j].id
  {
  }

  /** Looking up a template's own id gives back that template. */
  lemma {:induction false} GetTemplateByIdKnown(i: nat)
    requires i < |Templates|
    ensures GetTemplateById(Templates[i].id) == Templates[i]
  {
    if i == 1 {
      assert Templates[0].id != Templates[1].id;
    }
  }

  /** The result is always one of the templates; it has the id asked for
    * when some template has it, and otherwise it is the default template. */
  lemma GetTemplateByIdResult(id: string)
    ensures GetTemplateById(id) in Templates
    ensures (exists k :: 0 <= k < |Templates| && Templates[k].id == id) ==> GetTemplateById(id).id == id
    ensures (forall k :: 0 <= k < |Templates| ==> Templates[k].id != id) ==> GetTemplateById(id) == DefaultTemplate
  {
  }
}
