/** The optional AI-prompt picker of the campaign wizard. */
module PromptSelect {
  import opened Wrappers
  import opened Strings
  import opened Seqs
  import opened PromptsApi

  /** The sentinel option meaning "no prompt". */
  const NoPrompt := "none"

  /** The test `find` applies: the prompt has the id. */
  function HasId(id: string): Prompt -> bool {
    (p: Prompt) => p.id == id
  }

  /** `prompts.find(p => p.id === id)`. */
  function FindById(prompts: seq<Prompt>, id: string): (r: Option<Prompt>)
    ensures r.None? <==> forall i :: 0 <= i < |prompts| ==> prompts[i].id != id
    ensures r.Some? ==> r.value in prompts && r.value.id == id
  {
    Find(prompts, HasId(id))
  }

  /** `find` returns the first prompt with the id. */
  lemma FindByIdFirst(prompts: seq<Prompt>, id: string, k: nat)
    requires k < |prompts| && prompts[k].id == id
    requires forall j :: 0 <= j < k ==> prompts[j].id != id
    ensures FindById(prompts, id) == Some(prompts[k])
  {
    FindFirst(prompts, HasId(id), k);
  }

  /** `handlePromptChange`: the callback's arguments (id, name), or nothing for an unknown id. */
  function HandlePromptChange(prompts: seq<Prompt>, promptId: string): (call: Option<(string, string)>)
    ensures promptId == NoPrompt ==> call == Some(("", ""))
    ensures promptId != NoPrompt ==>
      (call.None? <==> forall i :: 0 <= i < |prompts| ==> prompts[i].id != promptId)
    ensures promptId != NoPrompt && call.Some? ==>
      exists p :: p in prompts && p.id == promptId && call.value == (promptId, p.name)
  {
    if promptId == NoPrompt then Some(("", ""))
    else
      match FindById(prompts, promptId)
      case None => None
      case Some(p) => Some((promptId, p.name))
  }

  /** The value the control shows: the selected id, or the sentinel when there is none. */
  function DisplayedValue(selectedPromptId: Option<string>): (v: string)
    ensures Truthy(selectedPromptId) ==> v == selectedPromptId.value
    ensures !Truthy(selectedPromptId) ==> v == NoPrompt
  {
    if Truthy(selectedPromptId) then selectedPromptId.value else NoPrompt
  }

  /** A known id reports the name of the first prompt with that id. */
  lemma HandlePromptChangeFirst(prompts: seq<Prompt>, promptId: string, k: nat)
    requires promptId != NoPrompt
    requires k < |prompts| && prompts[k].id == promptId
    requires forall j :: 0 <= j < k ==> prompts[j].id != promptId
    ensures HandlePromptChange(prompts, promptId) == Some((promptId, prompts[k].name))
  {
    FindByIdFirst(prompts, promptId, k);
  }

  /** Selecting the shown sentinel clears the selection, which shows the sentinel again. */
  lemma NoneRoundTrip(prompts: seq<Prompt>)
    ensures var call := HandlePromptChange(prompts, NoPrompt);
      call.Some? && DisplayedValue(Some(call.value.0)) == NoPrompt
  {
  }
}
