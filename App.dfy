/** The `App` component of src/App.jsx as an object: its state hooks are fields, and
    each handler updates them in place as the transition of the same name in module
    AppState prescribes. */
module App {
  import opened Js
  import Api
  import Checklist
  import ChatWindow
  import opened AppState

  class Session {
    var messages: seq<Message>
    var threadId: Option<string>
    var isLoading: bool
    var error: Option<string>
    var scriptQueue: seq<string>
    var testMode: string
    var testObjective: string
    var evaluation: Checklist.Evaluation
    var showMeta: bool
    /** Sends started and not yet settled. */
    ghost var inFlight: nat

    /** The conversation state as a value. */
    function Snapshot(): State
      reads this
    {
      State(messages, threadId, isLoading, error, scriptQueue)
    }

    /** The in-flight flag is up exactly while one send is pending, and never more than one is. */
    ghost predicate Serialized()
      reads this
    {
      inFlight <= 1 && (isLoading <==> inFlight == 1)
    }

    /** Start-up: the lazy initial values of the state hooks. `savedMessages` and
        `savedEvaluation` are the decoded stored values, `None` when absent or empty. */
    constructor (store: map<string, string>, savedMessages: Option<seq<Message>>, savedEvaluation: Option<Checklist.Evaluation>)
      ensures Serialized()
      ensures Snapshot() == Initial(store, savedMessages)
      ensures testMode == LoadTestMode(store) && testObjective == LoadTestObjective(store)
      ensures evaluation == savedEvaluation.GetOr(Checklist.EmptyEvaluation) && !showMeta
    {
      messages := savedMessages.GetOr([]);
      threadId := LoadThreadId(store);
      isLoading := false;
      error := None;
      scriptQueue := [];
      testMode := LoadTestMode(store);
      testObjective := LoadTestObjective(store);
      evaluation := savedEvaluation.GetOr(Checklist.EmptyEvaluation);
      showMeta := false;
      inFlight := 0;
    }

    /** `handleSendMessage` up to its `await`. It has no guard of its own: sending while
        a reply is pending starts a second request. */
    method SendMessage(text: string, now: int) returns (request: Api.SendParams)
      modifies this`messages, this`isLoading, this`error, this`inFlight
      ensures Snapshot() == Begin(old(Snapshot()), text, now)
      ensures request == Outgoing(old(Snapshot()), text)
      ensures inFlight == old(inFlight) + 1
      ensures old(Serialized()) && !old(isLoading) ==> Serialized()
    {
      request := Outgoing(Snapshot(), text);
      messages := messages + [UserMessage(text, now)];
      isLoading := true;
      error := None;
      inFlight := inFlight + 1;
    }

    /** `handleSendMessage` after its `await`: the `try`, `catch` and `finally` parts. */
    method Receive(outcome: Result<Api.Reply, string>, now: int)
      requires inFlight > 0
      modifies this`messages, this`threadId, this`isLoading, this`error, this`scriptQueue, this`inFlight
      ensures Snapshot() == Resolve(old(Snapshot()), outcome, now)
      ensures inFlight == old(inFlight) - 1
      ensures old(Serialized()) ==> Serialized()
    {
      match outcome {
        case Ok(reply) =>
          messages := messages + [AssistantMessage(reply, now)];
          if Truthy(reply.threadId) {
            threadId := reply.threadId;
          }
        case Err(message) =>
          error := Some(ErrorText(message));
          scriptQueue := [];
      }
      isLoading := false;
      inFlight := inFlight - 1;
    }

    /** `handleRunScenario`. */
    method RunScenario(sequence: Option<seq<string>>, now: int) returns (request: Option<Api.SendParams>)
      modifies this`messages, this`isLoading, this`error, this`scriptQueue, this`inFlight
      ensures Snapshot() == AppState.RunScenario(old(Snapshot()), sequence, now)
      ensures request.Some? <==> sequence.Some? && sequence.value != []
      ensures request.Some? ==> request.value == Outgoing(old(Snapshot()), sequence.value[0])
      ensures inFlight == old(inFlight) + (if request.Some? then 1 else 0)
      ensures old(Serialized()) && !old(isLoading) ==> Serialized()
    {
      if sequence.None? || sequence.value == [] {
        request := None;
        return;
      }
      scriptQueue := sequence.value[1..];
      var sent := SendMessage(sequence.value[0], now);
      request := Some(sent);
    }

    /** The scenario effect's timer firing with the state it was scheduled for. */
    method FireContinuation(now: int) returns (request: Option<Api.SendParams>)
      modifies this`messages, this`isLoading, this`error, this`scriptQueue, this`inFlight
      ensures Snapshot() == Continue(old(Snapshot()), now)
      ensures request.Some? <==> ContinuationReady(old(Snapshot()))
      ensures request.Some? ==> request.value == Outgoing(old(Snapshot()), old(scriptQueue)[0])
      ensures old(Serialized()) ==> Serialized()
    {
      if ContinuationReady(Snapshot()) {
        var next := scriptQueue[0];
        var sent := SendMessage(next, now);
        scriptQueue := scriptQueue[1..];
        request := Some(sent);
      } else {
        request := None;
      }
    }

    /** `handleReset`, with the tester's answer to the confirmation as `confirmed`. */
    method Reset(confirmed: bool)
      modifies this`messages, this`threadId, this`scriptQueue
      ensures Snapshot() == AppState.Reset(old(Snapshot()), confirmed)
      ensures old(Serialized()) ==> Serialized()
    {
      if confirmed {
        messages := [];
        threadId := None;
        scriptQueue := [];
      }
    }

    /** The chat window's form submit, wired to `handleSendMessage`: the guard lives in
        the window, so a blank input or a pending reply sends nothing. */
    method Submit(composer: ChatWindow.Composer, now: int) returns (request: Option<Api.SendParams>)
      modifies this`messages, this`isLoading, this`error, this`inFlight, composer
      ensures var sent := ChatWindow.AcceptedInput(old(composer.input), old(isLoading));
        && (sent.None? ==> Snapshot() == old(Snapshot()) && request.None? && composer.input == old(composer.input))
        && (sent.Some? ==>
              && Snapshot() == Begin(old(Snapshot()), sent.value, now)
              && request == Some(Outgoing(old(Snapshot()), sent.value))
              && composer.input == "")
      ensures old(Serialized()) ==> Serialized()
    {
      var sent := composer.Submit(isLoading);
      if sent.Some? {
        var r := SendMessage(sent.value, now);
        request := Some(r);
      } else {
        request := None;
      }
    }

    /** A click on quick prompt `index`; the button is disabled while a reply is pending.
        The prompt is sent as written, without trimming. */
    method SendQuickPrompt(index: nat, now: int) returns (request: Option<Api.SendParams>)
      requires index < |ChatWindow.QuickPrompts|
      modifies this`messages, this`isLoading, this`error, this`inFlight
      ensures old(isLoading) ==> Snapshot() == old(Snapshot()) && request.None?
      ensures !old(isLoading) ==>
        && Snapshot() == Begin(old(Snapshot()), ChatWindow.QuickPrompts[index], now)
        && request == Some(Outgoing(old(Snapshot()), ChatWindow.QuickPrompts[index]))
      ensures old(Serialized()) ==> Serialized()
    {
      if ChatWindow.QuickPromptsDisabled(isLoading) {
        request := None;
      } else {
        var r := SendMessage(ChatWindow.QuickPrompts[index], now);
        request := Some(r);
      }
    }

    method ToggleCheck(id: string)
      modifies this`evaluation
      ensures evaluation == Checklist.ToggleCheck(old(evaluation), id)
    {
      evaluation := Checklist.ToggleCheck(evaluation, id);
    }

    method SetScore(score: Option<string>)
      modifies this`evaluation
      ensures evaluation == Checklist.SetScore(old(evaluation), score)
    {
      evaluation := Checklist.SetScore(evaluation, score);
    }

    method SetObservations(text: string)
      modifies this`evaluation
      ensures evaluation == Checklist.SetObservations(old(evaluation), text)
    {
      evaluation := Checklist.SetObservations(evaluation, text);
    }

    /** The text `handleCopyAll` copies. */
    function CopyAllText(): (r: string)
      reads this
      ensures r == CopyText(messages)
      ensures r == "" <==> messages == []
    {
      CopyText(messages)
    }

    /** The document `handleExportJSON` downloads, stamped with `exportedAt`. */
    function ExportDocument(exportedAt: string): (d: AppState.ExportDocument)
      reads this
      ensures d.conversation == messages && d.threadId == threadId
      ensures d.context == TestContext(testMode, testObjective) && d.evaluation == evaluation
      ensures d.metadata.exportedAt == exportedAt
    {
      Export(TestContext(testMode, testObjective), evaluation, Snapshot(), exportedAt)
    }
  }

  /** A three-prompt scenario whose every send is answered sends its prompts in order,
      one per reply, and then nothing more. */
  method ScenarioAnsweredThroughout(a: string, b: string, c: string, reply: Api.Reply, now: int)
    returns (sent: seq<string>, idle: bool)
    ensures sent == [a, b, c]
    ensures idle
  {
    var session := new Session(map[], None, None);
    var first := session.RunScenario(Some([a, b, c]), now);
    sent := [first.value.message];
    session.Receive(Ok(reply), now);
    var next := session.FireContinuation(now);
    sent := sent + [next.value.message];
    session.Receive(Ok(reply), now);
    next := session.FireContinuation(now);
    sent := sent + [next.value.message];
    session.Receive(Ok(reply), now);
    next := session.FireContinuation(now);
    idle := next.None? && session.scriptQueue == [] && !session.isLoading;
  }

  /** If the second prompt's send fails, the third is never sent and the error is shown. */
  method ScenarioBrokenBySecondFailure(a: string, b: string, c: string, reply: Api.Reply, failure: string, now: int)
    returns (sent: seq<string>, resumed: bool, shown: Option<string>)
    ensures sent == [a, b] && !resumed
    ensures shown == Some(ErrorText(failure))
  {
    var session := new Session(map[], None, None);
    var first := session.RunScenario(Some([a, b, c]), now);
    sent := [first.value.message];
    session.Receive(Ok(reply), now);
    var next := session.FireContinuation(now);
    sent := sent + [next.value.message];
    session.Receive(Err(failure), now);
    next := session.FireContinuation(now);
    resumed := next.Some? || session.scriptQueue != [];
    shown := session.error;
  }
}
