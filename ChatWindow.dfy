/** The input side of src/components/ChatWindow.jsx: the submit guard, the text
    field's state, which controls are disabled, and the diagnostics line under an
    assistant reply. */
module ChatWindow {
  import opened Js
  import Text
  import Api

  const QuickPrompts: seq<string> := [
    "¿Inspeccionan grúas torre?",
    "Necesito curso de autoelevador",
    "¿Hacen ensayos no destructivos?",
    "Quiero coordinar por WhatsApp",
    "Estoy en Mendoza, ¿a quién contacto?"
  ]

  /** What `handleSubmit` passes to `onSendMessage`: the trimmed input, and nothing
      when that is empty or a reply is still pending. */
  function AcceptedInput(input: string, isLoading: bool): (r: Option<string>)
    ensures r.Some? <==> !Text.AllWhitespace(input) && !isLoading
    ensures r.Some? ==> r.value == Text.Trim(input)
    ensures r.Some? ==> r.value != "" && !Text.IsWhitespace(r.value[0]) && !Text.IsWhitespace(r.value[|r.value| - 1])
  {
    Text.TrimEmptyIffAllWhitespace(input);
    Text.TrimEndsAreNotWhitespace(input);
    var text := Text.Trim(input);
    if text != "" && !isLoading then Some(text) else None
  }

  /** The quick-prompt buttons are disabled while a reply is pending. */
  predicate QuickPromptsDisabled(isLoading: bool) {
    isLoading
  }

  /** The text field is disabled while a reply is pending. */
  predicate InputDisabled(isLoading: bool) {
    isLoading
  }

  /** The send button is disabled for blank input or while a reply is pending. */
  predicate SubmitDisabled(input: string, isLoading: bool): (r: bool)
    ensures r <==> Text.AllWhitespace(input) || isLoading
  {
    Text.TrimEmptyIffAllWhitespace(input);
    Text.Trim(input) == "" || isLoading
  }

  /** The send button is enabled exactly when submitting would send something, and
      every way to send is disabled while a reply is pending. */
  lemma SubmitEnabledExactlyWhenAccepted(input: string, isLoading: bool)
    ensures !SubmitDisabled(input, isLoading) <==> AcceptedInput(input, isLoading).Some?
    ensures isLoading ==> QuickPromptsDisabled(isLoading) && InputDisabled(isLoading) && SubmitDisabled(input, isLoading)
  {
  }

  /** The chat window's own state: the text typed so far. */
  class Composer {
    var input: string

    constructor ()
      ensures input == ""
    {
      input := "";
    }

    /** The field's `onChange`; the field is disabled, so takes no typing, while a reply
        is pending. */
    method Type(text: string, isLoading: bool)
      modifies this
      ensures input == if InputDisabled(isLoading) then old(input) else text
    {
      if !InputDisabled(isLoading) {
        input := text;
      }
    }

    /** `handleSubmit`: an accepted submit hands over the trimmed text and empties the
        field; a rejected one sends nothing and keeps the field as it was. */
    method Submit(isLoading: bool) returns (sent: Option<string>)
      modifies this
      ensures sent == AcceptedInput(old(input), isLoading)
      ensures input == if sent.Some? then "" else old(input)
    {
      sent := AcceptedInput(input, isLoading);
      if sent.Some? {
        input := "";
      }
    }
  }

  /** `run_id?.split('_').pop()`: the part of the run id after its last '_', the whole
      id when it has none, and undefined when there is no run id. */
  function RunIdSuffix(runId: Option<string>): (r: Option<string>)
    ensures r.Some? <==> runId.Some?
    ensures r.Some? ==> var id, p := runId.value, r.value;
      && |p| <= |id| && p == id[|id| - |p|..] && '_' !in p
      && (|p| < |id| ==> id[|id| - |p| - 1] == '_')
  {
    match runId
    case None => None
    case Some(id) =>
      Text.LastPieceFollowsLastSeparator(id, '_');
      Some(Text.Last(Text.Split(id, '_')))
  }

  /** An id without '_' is shown whole. */
  lemma RunIdWithoutUnderscoreShownWhole(id: string)
    requires '_' !in id
    ensures RunIdSuffix(Some(id)) == Some(id)
  {
  }

  /** The diagnostics line: the raw duration and the shortened run id. */
  datatype MetaLine = MetaLine(durationMs: int, runIdSuffix: Option<string>)

  /** The line is shown only when diagnostics are switched on and the message has them. */
  function MetaLineFor(showMeta: bool, meta: Option<Api.Meta>): (r: Option<MetaLine>)
    ensures r.Some? <==> showMeta && meta.Some?
    ensures r.Some? ==>
      r.value.durationMs == meta.value.durationMs && r.value.runIdSuffix == RunIdSuffix(meta.value.runId)
  {
    if showMeta && meta.Some? then Some(MetaLine(meta.value.durationMs, RunIdSuffix(meta.value.runId)))
    else None
  }
}
