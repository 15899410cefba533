/** The conversation and scenario state machine of src/App.jsx, as values: the state
    the component keeps, one function per transition, and what the tester can copy,
    export and find again after a reload. The class `App.Session` performs these
    transitions in place. */
module AppState {
  import opened Js
  import Text
  import Api
  import Checklist

  /** `API_CONFIG`: where the console sends its messages. */
  const ConfigBaseUrl: string := "https://asistentes-5e8m.onrender.com"
  const ConfigAssistantId: string := "asst_kGfLr7tpbJp5oNpsFWJ9HyfO"

  const ErrorPrefix: string := "Error: "
  const ConnectionError: string := "Error de conexión"

  datatype Role = User | Assistant

  /** One turn of the log; only assistant turns carry diagnostics. */
  datatype Message = Message(role: Role, content: string, timestamp: int, meta: Option<Api.Meta>)

  /** The five pieces of state the send and scenario logic works on. */
  datatype State = State(
    messages: seq<Message>,
    threadId: Option<string>,
    isLoading: bool,
    error: Option<string>,
    scriptQueue: seq<string>)

  function UserMessage(text: string, now: int): Message {
    Message(User, text, now, None)
  }

  function AssistantMessage(reply: Api.Reply, now: int): Message {
    Message(Assistant, reply.answer, now, reply.meta)
  }

  /** The arguments `handleSendMessage` hands to `sendMessage`: the text, the thread id
      as it stands when the send starts, and the fixed configuration, never the mock. */
  function Outgoing(s: State, text: string): (p: Api.SendParams)
    ensures p.message == text && p.threadId == s.threadId && !p.mock
    ensures Api.RequestUrl(p) == Api.ChatUrl(ConfigBaseUrl)
    ensures Api.RequestBody(p) == Api.ChatRequest(ConfigAssistantId, text, s.threadId)
  {
    Api.SendParams(text, s.threadId, Some(ConfigAssistantId), Some(ConfigBaseUrl), false)
  }

  /** The synchronous start of `handleSendMessage`: the user turn is logged at once, the
      in-flight flag goes up and any earlier error is cleared. */
  function Begin(s: State, text: string, now: int): (r: State)
    ensures r.messages == s.messages + [UserMessage(text, now)]
    ensures r.isLoading && r.error.None?
    ensures r.threadId == s.threadId && r.scriptQueue == s.scriptQueue
  {
    s.(messages := s.messages + [UserMessage(text, now)], isLoading := true, error := None)
  }

  /** The error line shown for a failed send: the prefix, then the failure's message,
      or a fixed connection message when that is empty. */
  function ErrorText(message: string): (r: string)
    ensures |r| > |ErrorPrefix| && r[..|ErrorPrefix|] == ErrorPrefix
    ensures message != "" ==> r[|ErrorPrefix|..] == message
    ensures message == "" ==> r[|ErrorPrefix|..] == ConnectionError
  {
    ErrorPrefix + OrElse(message, ConnectionError)
  }

  /** The rest of `handleSendMessage` once `sendMessage` settles. A reply adds exactly
      one assistant turn and adopts its thread id only when that is truthy; a failure
      adds no turn (the user turn stays), shows the error and drops the scenario. Either
      way the in-flight flag comes down. */
  function Resolve(s: State, outcome: Result<Api.Reply, string>, now: int): (r: State)
    ensures outcome.Ok? ==> r.messages == s.messages + [AssistantMessage(outcome.value, now)]
    ensures outcome.Ok? ==> r.threadId == (if Truthy(outcome.value.threadId) then outcome.value.threadId else s.threadId)
    ensures outcome.Ok? ==> r.error == s.error && r.scriptQueue == s.scriptQueue
    ensures outcome.Err? ==> r.messages == s.messages && r.threadId == s.threadId
    ensures outcome.Err? ==> r.error == Some(ErrorText(outcome.error)) && r.scriptQueue == []
    ensures !r.isLoading
  {
    match outcome
    case Ok(reply) =>
      s.(messages := s.messages + [AssistantMessage(reply, now)],
         threadId := if Truthy(reply.threadId) then reply.threadId else s.threadId,
         isLoading := false)
    case Err(message) =>
      s.(error := Some(ErrorText(message)), scriptQueue := [], isLoading := false)
  }

  /** The guard of the scenario effect: prompts are queued, nothing is pending, and the
      last turn is the assistant's. */
  predicate ContinuationReady(s: State) {
    |s.scriptQueue| > 0 && !s.isLoading && |s.messages| > 0 && s.messages[|s.messages| - 1].role == Assistant
  }

  /** The scheduled continuation, taken when it fires: send the head of the queue and
      drop exactly that one prompt. It cannot fire twice in a row, since the send
      raises the in-flight flag. */
  function Continue(s: State, now: int): (r: State)
    ensures !ContinuationReady(s) ==> r == s
    ensures ContinuationReady(s) ==> r == Begin(s, s.scriptQueue[0], now).(scriptQueue := s.scriptQueue[1..])
    ensures ContinuationReady(s) ==> |r.scriptQueue| == |s.scriptQueue| - 1 && !ContinuationReady(r)
  {
    if ContinuationReady(s) then Begin(s, s.scriptQueue[0], now).(scriptQueue := s.scriptQueue[1..]) else s
  }

  /** `handleRunScenario`: a missing or empty sequence does nothing; otherwise the rest
      is queued and the first prompt is sent at once. */
  function RunScenario(s: State, sequence: Option<seq<string>>, now: int): (r: State)
    ensures sequence.None? || sequence.value == [] ==> r == s
    ensures sequence.Some? && sequence.value != [] ==>
      && r.scriptQueue == sequence.value[1..]
      && r.messages == s.messages + [UserMessage(sequence.value[0], now)]
      && r.isLoading && r.error.None? && r.threadId == s.threadId
  {
    if sequence.None? || sequence.value == [] then s
    else Begin(s.(scriptQueue := sequence.value[1..]), sequence.value[0], now)
  }

  /** `handleReset`: on confirmation the log, the thread and the queue are cleared
      together; the in-flight flag and the error are left as they are. Declined, it
      changes nothing. */
  function Reset(s: State, confirmed: bool): (r: State)
    ensures confirmed ==> r.messages == [] && r.threadId.None? && r.scriptQueue == []
    ensures confirmed ==> r.isLoading == s.isLoading && r.error == s.error
    ensures !confirmed ==> r == s
  {
    if confirmed then s.(messages := [], threadId := None, scriptQueue := []) else s
  }

  /** A reply that arrives after a confirmed reset is still logged and its thread id
      still adopted: nothing tells a stale reply from a current one. */
  lemma LateReplyAfterResetIsKept(s: State, reply: Api.Reply, now: int)
    ensures var t := Resolve(Reset(s, true), Ok(reply), now);
      && t.messages == [AssistantMessage(reply, now)]
      && t.threadId == (if Truthy(reply.threadId) then reply.threadId else None)
  {
  }

  // Scenario replay: every pending send settles, then the continuation fires if ready.

  /** One settlement of the pending send: its outcome, the clock when it settled (the
      reply's timestamp), and the clock when the scenario timer scheduled after it
      fires (the next prompt's timestamp). */
  datatype Settle = Settle(outcome: Result<Api.Reply, string>, settledAt: int, firedAt: int)

  predicate AllAnswered(settles: seq<Settle>) {
    forall i :: 0 <= i < |settles| ==> settles[i].outcome.Ok?
  }

  /** One settled send followed by the continuation check, with what it sends. */
  function Step(s: State, e: Settle): (r: (State, Option<string>))
    ensures r.1.Some? ==> e.outcome.Ok? && s.scriptQueue != [] && r.1.value == s.scriptQueue[0] && r.0.scriptQueue == s.scriptQueue[1..]
    ensures r.1.None? ==> r.0.scriptQueue == s.scriptQueue || r.0.scriptQueue == []
    ensures e.outcome.Err? ==> r.1.None? && r.0.scriptQueue == []
    ensures !ContinuationReady(r.0)
  {
    var r := Resolve(s, e.outcome, e.settledAt);
    if ContinuationReady(r) then (Continue(r, e.firedAt), Some(r.scriptQueue[0])) else (r, None)
  }

  /** The sends settle as `settles` says, in turn; the result is the final state and
      the prompts the continuation sent along the way. */
  function Replay(s: State, settles: seq<Settle>): (r: (State, seq<string>))
    ensures |r.1| <= |settles|
    ensures |r.1| <= |s.scriptQueue| && r.1 == s.scriptQueue[..|r.1|]
    decreases |settles|
  {
    if settles == [] then (s, [])
    else
      var (s1, fired) := Step(s, settles[0]);
      var (s2, sent) := Replay(s1, settles[1..]);
      (s2, (if fired.Some? then [fired.value] else []) + sent)
  }

  /** The turns a scenario adds when every send is answered: each reply, stamped when
      it settled, followed by the next queued prompt, stamped when its timer fired,
      while there is one. */
  function Exchange(queue: seq<string>, settles: seq<Settle>): seq<Message>
    requires |settles| == |queue| + 1 && AllAnswered(settles)
    decreases |queue|
  {
    var e := settles[0];
    [AssistantMessage(e.outcome.value, e.settledAt)]
      + if queue == [] then [] else [UserMessage(queue[0], e.firedAt)] + Exchange(queue[1..], settles[1..])
  }

  /** An answered send with prompts still queued: the reply is logged and the head of
      the queue is sent when the timer fires, leaving a send pending again. */
  lemma AnsweredStepSendsHead(s: State, reply: Api.Reply, settledAt: int, firedAt: int)
    requires s.scriptQueue != []
    ensures var (s1, fired) := Step(s, Settle(Ok(reply), settledAt, firedAt));
      && fired == Some(s.scriptQueue[0])
      && s1.messages == s.messages + [AssistantMessage(reply, settledAt), UserMessage(s.scriptQueue[0], firedAt)]
      && s1.scriptQueue == s.scriptQueue[1..] && s1.isLoading
  {
  }

  /** The answer to the last prompt of a scenario ends it: nothing more is sent and the
      console is idle. */
  lemma LastAnswerEndsScenario(s: State, reply: Api.Reply, settledAt: int, firedAt: int)
    requires s.scriptQueue == []
    ensures var (t, fired) := Step(s, Settle(Ok(reply), settledAt, firedAt));
      && fired.None? && t.messages == s.messages + [AssistantMessage(reply, settledAt)]
      && t.scriptQueue == [] && !t.isLoading && !ContinuationReady(t)
  {
  }

  /** From a state whose latest send is pending, with `settles` settling that send and
      each one after it: when every send is answered, the queue is sent in order, one
      prompt per reply, and the scenario ends idle with an empty queue. */
  lemma {:induction false} ScenarioSendsQueueInOrder(s: State, settles: seq<Settle>)
    requires s.isLoading
    requires |settles| == |s.scriptQueue| + 1 && AllAnswered(settles)
    ensures var t := Replay(s, settles).0;
      && Replay(s, settles).1 == s.scriptQueue
      && t.scriptQueue == [] && !t.isLoading && !ContinuationReady(t)
    decreases |settles|
  {
    var q := s.scriptQueue;
    var e := settles[0];
    if q == [] {
      LastAnswerEndsScenario(s, e.outcome.value, e.settledAt, e.firedAt);
      assert settles[1..] == [];
    } else {
      AnsweredStepSendsHead(s, e.outcome.value, e.settledAt, e.firedAt);
      var s1 := Step(s, e).0;
      ScenarioSendsQueueInOrder(s1, settles[1..]);
      var rest := Replay(s1, settles[1..]);
      assert Replay(s, settles) == (rest.0, [q[0]] + rest.1);
    }
  }

  /** From a state whose latest send is pending: when every send is answered, the log
      grows by each reply followed by the next queued prompt, in queue order, each
      turn stamped with its own clock reading. */
  lemma {:induction false} ScenarioLogAlternates(s: State, settles: seq<Settle>)
    requires s.isLoading
    requires |settles| == |s.scriptQueue| + 1 && AllAnswered(settles)
    ensures Replay(s, settles).0.messages == s.messages + Exchange(s.scriptQueue, settles)
    decreases |settles|
  {
    var q := s.scriptQueue;
    var e := settles[0];
    if q == [] {
      LastAnswerEndsScenario(s, e.outcome.value, e.settledAt, e.firedAt);
      assert settles[1..] == [];
    } else {
      var head := [AssistantMessage(e.outcome.value, e.settledAt), UserMessage(q[0], e.firedAt)];
      AnsweredStepSendsHead(s, e.outcome.value, e.settledAt, e.firedAt);
      var s1 := Step(s, e).0;
      ScenarioLogAlternates(s1, settles[1..]);
      var rest := Replay(s1, settles[1..]);
      assert Replay(s, settles).0 == rest.0;
      var ex := Exchange(q[1..], settles[1..]);
      assert Exchange(q, settles) == head + ex;
      calc {
        rest.0.messages;
        s1.messages + ex;
        (s.messages + head) + ex;
        s.messages + (head + ex);
      }
    }
  }

  /** From a state whose latest send is pending: when the send after `k` answered ones
      fails, exactly the first `k` queued prompts went out, the queue is dropped and the
      error is shown, so the scenario never resumes. */
  lemma {:induction false} ScenarioStopsAtFirstFailure(s: State, settles: seq<Settle>, k: nat)
    requires s.isLoading
    requires |settles| == k + 1 && k <= |s.scriptQueue|
    requires forall i :: 0 <= i < k ==> settles[i].outcome.Ok?
    requires settles[k].outcome.Err?
    ensures var (t, sent) := Replay(s, settles);
      && sent == s.scriptQueue[..k]
      && t.scriptQueue == [] && !t.isLoading && !ContinuationReady(t)
      && t.error == Some(ErrorText(settles[k].outcome.error))
    decreases k
  {
    var q := s.scriptQueue;
    var e := settles[0];
    var r := Resolve(s, e.outcome, e.settledAt);
    if k == 0 {
      assert Step(s, e) == (r, None);
      assert settles[1..] == [];
    } else {
      var s1 := Continue(r, e.firedAt);
      assert Step(s, e) == (s1, Some(q[0]));
      ScenarioStopsAtFirstFailure(s1, settles[1..], k - 1);
      var (t, sent) := Replay(s1, settles[1..]);
      assert Replay(s, settles) == (t, [q[0]] + sent);
      assert [q[0]] + q[1..][..k - 1] == q[..k];
    }
  }

  /** Who spoke each turn, in order: all of the log that a guard reads. */
  function Roles(messages: seq<Message>): (r: seq<Role>)
    ensures |r| == |messages| && forall i :: 0 <= i < |r| ==> r[i] == messages[i].role
  {
    seq(|messages|, i requires 0 <= i < |messages| => messages[i].role)
  }

  /** Two states that differ at most in the text and timestamps of their turns. */
  predicate SameControl(s: State, t: State) {
    Roles(s.messages) == Roles(t.messages) && s.threadId == t.threadId && s.isLoading == t.isLoading
      && s.error == t.error && s.scriptQueue == t.scriptQueue
  }

  /** A step taken with the same outcome at other clock readings keeps states that
      agree on everything but timestamps in agreement, and sends the same prompt. */
  lemma StepIgnoresClock(s: State, t: State, a: Settle, b: Settle)
    requires SameControl(s, t) && a.outcome == b.outcome
    ensures SameControl(Step(s, a).0, Step(t, b).0) && Step(s, a).1 == Step(t, b).1
  {
    var rs, rt := Resolve(s, a.outcome, a.settledAt), Resolve(t, b.outcome, b.settledAt);
    assert Roles(rs.messages) == Roles(rt.messages) by {
      if a.outcome.Ok? {
        assert Roles(rs.messages) == Roles(s.messages) + [Assistant];
        assert Roles(rt.messages) == Roles(t.messages) + [Assistant];
      }
    }
    assert ContinuationReady(rs) == ContinuationReady(rt) by {
      if |rs.messages| > 0 {
        assert rs.messages[|rs.messages| - 1].role == Roles(rs.messages)[|rs.messages| - 1];
        assert rt.messages[|rt.messages| - 1].role == Roles(rt.messages)[|rt.messages| - 1];
      }
    }
    if ContinuationReady(rs) {
      assert Roles(Continue(rs, a.firedAt).messages) == Roles(rs.messages) + [User];
      assert Roles(Continue(rt, b.firedAt).messages) == Roles(rt.messages) + [User];
    }
  }

  /** No guard reads a timestamp: replays with the same outcomes send the same prompts
      whenever the sends settle and the timers fire. */
  lemma {:induction false} SentPromptsIgnoreClock(s: State, a: seq<Settle>, b: seq<Settle>)
    requires |a| == |b| && forall i :: 0 <= i < |a| ==> a[i].outcome == b[i].outcome
    ensures Replay(s, a).1 == Replay(s, b).1
  {
    ReplayIgnoresClock(s, s, a, b);
  }

  lemma {:induction false} ReplayIgnoresClock(s: State, t: State, a: seq<Settle>, b: seq<Settle>)
    requires SameControl(s, t)
    requires |a| == |b| && forall i :: 0 <= i < |a| ==> a[i].outcome == b[i].outcome
    ensures SameControl(Replay(s, a).0, Replay(t, b).0) && Replay(s, a).1 == Replay(t, b).1
    decreases |a|
  {
    if a != [] {
      StepIgnoresClock(s, t, a[0], b[0]);
      ReplayIgnoresClock(Step(s, a[0]).0, Step(t, b[0]).0, a[1..], b[1..]);
    }
  }

  /** A scenario started at `startedAt` while no send is pending and answered throughout
      sends its whole sequence in order: the first prompt at once, the rest by
      continuation. With no other send pending, `settles` are the settlements of the
      scenario's own sends, one per prompt. */
  lemma ScenarioRunsWholeSequence(s: State, sequence: seq<string>, startedAt: int, settles: seq<Settle>)
    requires !s.isLoading
    requires |sequence| >= 1 && |settles| == |sequence| && AllAnswered(settles)
    ensures var start := RunScenario(s, Some(sequence), startedAt);
      && start.messages == s.messages + [UserMessage(sequence[0], startedAt)]
      && var (t, sent) := Replay(start, settles);
      && [sequence[0]] + sent == sequence
      && t.scriptQueue == [] && !t.isLoading
  {
    var start := RunScenario(s, Some(sequence), startedAt);
    ScenarioSendsQueueInOrder(start, settles);
  }

  // Copy-all text.

  function RoleName(role: Role): string {
    match role
    case User => "user"
    case Assistant => "assistant"
  }

  /** `role.toUpperCase()`. */
  function RoleTag(role: Role): (r: string)
    ensures r == if role == User then "USER" else "ASSISTANT"
  {
    var r := Text.AsciiUpper(RoleName(role));
    if role == User then
      assert r == [r[0], r[1], r[2], r[3]];
      r
    else
      assert r == [r[0], r[1], r[2], r[3], r[4], r[5], r[6], r[7], r[8]];
      r
  }

  /** The copied block for one turn. */
  function Block(m: Message): string {
    "[" + RoleTag(m.role) + "] " + m.content
  }

  function Blocks(messages: seq<Message>): (r: seq<string>)
    ensures |r| == |messages| && forall i :: 0 <= i < |r| ==> r[i] == Block(messages[i])
  {
    seq(|messages|, i requires 0 <= i < |messages| => Block(messages[i]))
  }

  /** The text `handleCopyAll` puts on the clipboard: one block per turn, in log order,
      separated by blank lines. */
  function CopyText(messages: seq<Message>): (r: string)
    ensures r == "" <==> messages == []
  {
    Text.Join(Blocks(messages), "\n\n")
  }

  /** A turn added to the log adds its block at the end of the copy, after a blank line. */
  lemma CopyTextGrowsWithLog(messages: seq<Message>, m: Message)
    ensures CopyText(messages + [m]) == if messages == [] then Block(m) else CopyText(messages) + "\n\n" + Block(m)
  {
    assert Blocks(messages + [m]) == Blocks(messages) + [Block(m)];
    Text.JoinSnoc(Blocks(messages), Block(m), "\n\n");
  }

  /** After a send starts, the copy ends with the new user turn. */
  lemma SendExtendsCopyText(s: State, text: string, now: int)
    ensures CopyText(Begin(s, text, now).messages)
      == (if s.messages == [] then "" else CopyText(s.messages) + "\n\n") + "[USER] " + text
  {
    CopyTextGrowsWithLog(s.messages, UserMessage(text, now));
  }

  // Export document.

  const ExportEnvironment: string := "Mr. Lift Functional Validation Panel"
  const ExportVersion: string := "2.0"

  datatype ExportMetadata = ExportMetadata(exportedAt: string, environment: string, version: string)
  datatype TestContext = TestContext(testMode: string, testObjective: string)

  /** The object `handleExportJSON` serialises. */
  datatype ExportDocument = ExportDocument(
    metadata: ExportMetadata,
    context: TestContext,
    evaluation: Checklist.Evaluation,
    conversation: seq<Message>,
    threadId: Option<string>)

  /** The export carries the log and the thread id as they stand, with the tester's
      context and evaluation and the export time. */
  function Export(context: TestContext, evaluation: Checklist.Evaluation, s: State, exportedAt: string): (d: ExportDocument)
    ensures d.conversation == s.messages && d.threadId == s.threadId
    ensures d.context == context && d.evaluation == evaluation
    ensures d.metadata == ExportMetadata(exportedAt, ExportEnvironment, ExportVersion)
  {
    ExportDocument(ExportMetadata(exportedAt, ExportEnvironment, ExportVersion), context, evaluation, s.messages, s.threadId)
  }

  /** `iso.slice(0, 19).replace(/:/g, '-')` inside the download name. */
  function ExportFileName(isoTimestamp: string): (r: string)
    ensures var n := if |isoTimestamp| < 19 then |isoTimestamp| else 19;
      && |r| == |"mrlift-test-"| + n + |".json"|
      && r[..|"mrlift-test-"|] == "mrlift-test-" && r[|r| - |".json"|..] == ".json"
      && forall i :: 0 <= i < n ==>
           r[|"mrlift-test-"| + i] == (if isoTimestamp[i] == ':' then '-' else isoTimestamp[i])
  {
    var stamp := if |isoTimestamp| < 19 then isoTimestamp else isoTimestamp[..19];
    var dashed := seq(|stamp|, i requires 0 <= i < |stamp| => if stamp[i] == ':' then '-' else stamp[i]);
    "mrlift-test-" + dashed + ".json"
  }

  // Persistence: the string-valued keys of the local store.

  const ThreadIdKey: string := "ml_thread_id"
  const TestModeKey: string := "ml_test_mode"
  const TestObjectiveKey: string := "ml_test_objective"
  const DefaultTestMode: string := "new_client"

  /** The thread id read at start-up: whatever is stored, or null when nothing is. */
  function LoadThreadId(store: map<string, string>): (r: Option<string>)
    ensures r.Some? <==> ThreadIdKey in store
    ensures r.Some? ==> r.value == store[ThreadIdKey]
  {
    if ThreadIdKey in store then Some(store[ThreadIdKey]) else None
  }

  /** The thread-id effect: a truthy id is stored, anything else removes the key. */
  function PersistThreadId(store: map<string, string>, threadId: Option<string>): (r: map<string, string>)
    ensures ThreadIdKey in r <==> Truthy(threadId)
    ensures forall k :: k in store && k != ThreadIdKey ==> k in r && r[k] == store[k]
    ensures forall k :: k in r && k != ThreadIdKey ==> k in store
  {
    if Truthy(threadId) then store[ThreadIdKey := threadId.value] else store - {ThreadIdKey}
  }

  /** After a reload the console continues a truthy thread and starts without one
      otherwise: an empty id never survives. */
  lemma ThreadIdSurvivesReload(store: map<string, string>, threadId: Option<string>)
    ensures LoadThreadId(PersistThreadId(store, threadId)) == if Truthy(threadId) then threadId else None
  {
  }

  function LoadTestMode(store: map<string, string>): (r: string)
    ensures r != ""
    ensures TestModeKey in store && store[TestModeKey] != "" ==> r == store[TestModeKey]
    ensures TestModeKey !in store || store[TestModeKey] == "" ==> r == DefaultTestMode
  {
    OrElse(if TestModeKey in store then store[TestModeKey] else "", DefaultTestMode)
  }

  function LoadTestObjective(store: map<string, string>): (r: string)
    ensures TestObjectiveKey in store ==> r == store[TestObjectiveKey]
    ensures TestObjectiveKey !in store ==> r == ""
  {
    if TestObjectiveKey in store then store[TestObjectiveKey] else ""
  }

  /** The test context survives a reload, except that an empty test mode comes back as
      the default one. */
  lemma ContextSurvivesReload(store: map<string, string>, mode: string, objective: string)
    ensures LoadTestMode(store[TestModeKey := mode]) == if mode == "" then DefaultTestMode else mode
    ensures LoadTestObjective(store[TestObjectiveKey := objective]) == objective
  {
  }

  /** The state at start-up: the saved log (absent or empty storage gives an empty one),
      the saved thread id, nothing pending, no error and no scenario. */
  function Initial(store: map<string, string>, savedMessages: Option<seq<Message>>): (r: State)
    ensures r.messages == savedMessages.GetOr([]) && r.threadId == LoadThreadId(store)
    ensures !r.isLoading && r.error.None? && r.scriptQueue == []
  {
    State(savedMessages.GetOr([]), LoadThreadId(store), false, None, [])
  }
}
