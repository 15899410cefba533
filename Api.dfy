/** The transport client of src/api.js: one chat message out, one reply back,
    with a single immediate retry when an attempt fails. */
module Api {
  import opened Js
  import Text

  const DefaultBaseUrl: string := "https://asistentes-5e8m.onrender.com"
  const DefaultAssistantId: string := "asst_kGfLr7tpbJp5oNpsFWJ9HyfO"
  const ChatPath: string := "/api/v1/chat"

  /** Diagnostics the assistant attaches to a reply. */
  datatype Meta = Meta(runId: Option<string>, durationMs: int)

  /** The decoded JSON of a successful reply. */
  datatype Reply = Reply(answer: string, threadId: Option<string>, meta: Option<Meta>)

  /** The named arguments of `sendMessage`; `None` stands for an argument left undefined. */
  datatype SendParams = SendParams(
    message: string,
    threadId: Option<string>,
    assistantId: Option<string>,
    baseUrl: Option<string>,
    mock: bool)

  /** The JSON body posted to the chat endpoint. */
  datatype ChatRequest = ChatRequest(assistantId: string, message: string, threadId: Option<string>)

  /** What `response.json()` yields: a reply, or the parse error it throws. */
  datatype Body = Parsed(reply: Reply) | Unparsable(reason: string)

  /** The outcome of one call to `fetch`: a rejected promise, or an HTTP response. */
  datatype Attempt = NetworkFailure(message: string) | HttpResponse(status: nat, body: Body)

  /** What `performFetch` settles to, and how many calls to `fetch` it made in total. */
  datatype FetchOutcome = FetchOutcome(result: Result<Reply, string>, attempts: nat)

  /** `baseUrl.replace(/\/+$/, "")`: the longest prefix of `s` that does not end in '/'. */
  function StripTrailingSlashes(s: string): (r: string)
    ensures |r| <= |s| && r == s[..|r|]
    ensures forall i :: |r| <= i < |s| ==> s[i] == '/'
    ensures r == [] || r[|r| - 1] != '/'
  {
    if s != [] && s[|s| - 1] == '/' then StripTrailingSlashes(s[..|s| - 1]) else s
  }

  /** A base URL without a trailing slash is left as it is, and only such a base. */
  lemma StripLeavesCleanBase(s: string)
    ensures StripTrailingSlashes(s) == s <==> (s == [] || s[|s| - 1] != '/')
  {
  }

  /** Normalising a normalised base changes nothing. */
  lemma StripIsIdempotent(s: string)
    ensures StripTrailingSlashes(StripTrailingSlashes(s)) == StripTrailingSlashes(s)
  {
    StripLeavesCleanBase(StripTrailingSlashes(s));
  }

  function Slashes(n: nat): (r: string)
    ensures |r| == n && forall i :: 0 <= i < n ==> r[i] == '/'
  {
    seq(n, i => '/')
  }

  /** However many slashes end the base, they all go. */
  lemma {:induction false} StripIgnoresExtraSlashes(s: string, n: nat)
    ensures StripTrailingSlashes(s + Slashes(n)) == StripTrailingSlashes(s)
    decreases n
  {
    if n > 0 {
      var t := s + Slashes(n);
      assert t[..|t| - 1] == s + Slashes(n - 1);
      StripIgnoresExtraSlashes(s, n - 1);
    } else {
      assert s + Slashes(0) == s;
    }
  }

  /** The endpoint URL: the normalised base followed by the chat path. */
  function ChatUrl(baseUrl: string): (r: string)
    ensures |r| >= |ChatPath| && r[|r| - |ChatPath|..] == ChatPath
    ensures var base := r[..|r| - |ChatPath|];
      && |base| <= |baseUrl| && base == baseUrl[..|base|]
      && (base == [] || base[|base| - 1] != '/')
      && (forall i :: |base| <= i < |baseUrl| ==> baseUrl[i] == '/')
  {
    var base := StripTrailingSlashes(baseUrl);
    assert (base + ChatPath)[..|base|] == base;
    base + ChatPath
  }

  /** Two base URLs that differ only in trailing slashes reach the same endpoint. */
  lemma ChatUrlIgnoresTrailingSlashes(baseUrl: string, n: nat)
    ensures ChatUrl(baseUrl + Slashes(n)) == ChatUrl(baseUrl)
  {
    StripIgnoresExtraSlashes(baseUrl, n);
  }

  /** The URL a send posts to: the given base, or the default one when undefined. */
  function RequestUrl(p: SendParams): (r: string)
    ensures p.baseUrl.Some? ==> r == ChatUrl(p.baseUrl.value)
    ensures p.baseUrl.None? ==> r == DefaultBaseUrl + ChatPath
  {
    StripLeavesCleanBase(DefaultBaseUrl);
    ChatUrl(p.baseUrl.GetOr(DefaultBaseUrl))
  }

  /** The posted body carries the message and thread id as given; the assistant id
      falls back to the default only when the argument is undefined. */
  function RequestBody(p: SendParams): (r: ChatRequest)
    ensures r.message == p.message && r.threadId == p.threadId
    ensures p.assistantId.Some? ==> r.assistantId == p.assistantId.value
    ensures p.assistantId.None? ==> r.assistantId == DefaultAssistantId
  {
    ChatRequest(p.assistantId.GetOr(DefaultAssistantId), p.message, p.threadId)
  }

  /** `response.ok`: the status is in the 2xx range. */
  predicate StatusOk(status: nat) {
    200 <= status <= 299
  }

  function HttpErrorMessage(status: nat): (r: string)
    ensures |r| > 20 && r[..20] == "HTTP error! status: "
  {
    "HTTP error! status: " + Text.Decimal(status)
  }

  /** The status named in an HTTP error message can be read back from it, so two
      different statuses never give the same message. */
  lemma HttpErrorNamesStatus(status: nat)
    ensures var m := HttpErrorMessage(status); var prefix := "HTTP error! status: ";
      && |m| > |prefix| && m[..|prefix|] == prefix
      && (forall i :: |prefix| <= i < |m| ==> Text.IsDigit(m[i]))
      && Text.DecimalValue(m[|prefix|..]) == status
  {
    var m := HttpErrorMessage(status);
    assert m[|"HTTP error! status: "|..] == Text.Decimal(status);
    Text.DecimalRoundTrip(status);
  }

  /** The body of the `try` block in `performFetch` for one attempt: a non-2xx status
      and an unparsable body throw just as a network failure does. */
  function AttemptResult(a: Attempt): (r: Result<Reply, string>)
    ensures r.Ok? <==> a.HttpResponse? && StatusOk(a.status) && a.body.Parsed?
    ensures r.Ok? ==> r.value == a.body.reply
    ensures a.NetworkFailure? ==> r == Err(a.message)
    ensures a.HttpResponse? && !StatusOk(a.status) ==> r == Err(HttpErrorMessage(a.status))
  {
    match a
    case NetworkFailure(message) => Err(message)
    case HttpResponse(status, body) =>
      if !StatusOk(status) then Err(HttpErrorMessage(status))
      else match body
        case Parsed(reply) => Ok(reply)
        case Unparsable(reason) => Err(reason)
  }

  /** `performFetch(retry)`, where `network(i)` is what the `i`-th call to `fetch`
      yields and `made` calls have been made already. The first failure is retried
      once with `retry` false; the second is what the caller sees. */
  function PerformFetch(network: nat -> Attempt, retry: bool, made: nat): (r: FetchOutcome)
    ensures made + 1 <= r.attempts <= made + (if retry then 2 else 1)
    ensures r.attempts == made + 2 <==> retry && AttemptResult(network(made)).Err?
    ensures r.result == AttemptResult(network(r.attempts - 1))
    decreases retry
  {
    match AttemptResult(network(made))
    case Ok(reply) => FetchOutcome(Ok(reply), made + 1)
    case Err(e) =>
      if retry then PerformFetch(network, false, made + 1)
      else FetchOutcome(Err(e), made + 1)
  }

  /** `sendMessage` as the console calls it: at most two attempts, and it fails only
      when both fail, with the error of the second. */
  lemma SendRetriesOnce(network: nat -> Attempt)
    ensures var r := PerformFetch(network, true, 0);
      && (AttemptResult(network(0)).Ok? ==> r == FetchOutcome(AttemptResult(network(0)), 1))
      && (AttemptResult(network(0)).Err? ==> r == FetchOutcome(AttemptResult(network(1)), 2))
      && (r.result.Err? <==> AttemptResult(network(0)).Err? && AttemptResult(network(1)).Err?)
  {
  }

  /** The mock reply: it echoes the message, keeps a truthy thread id and otherwise
      invents one from `randomSuffix` (the `Math.random()` digits). */
  function MockReply(message: string, threadId: Option<string>, randomSuffix: string): (r: Reply)
    ensures Truthy(threadId) ==> r.threadId == threadId
    ensures !Truthy(threadId) ==> r.threadId == Some("thread_mock_" + randomSuffix)
    ensures Truthy(r.threadId)
  {
    Reply(
      "[MOCK RESPONSE] Me preguntaste: \"" + message + "\". Esta es una simulación del backend.",
      Some(if Truthy(threadId) then threadId.value else "thread_mock_" + randomSuffix),
      Some(Meta(Some("run_mock_123"), 1234)))
  }

  /** `sendMessage(p)`: the mock answers directly; otherwise `network` gives the outcomes
      of posting `RequestBody(p)` to `RequestUrl(p)`. */
  function SendMessage(p: SendParams, network: nat -> Attempt, randomSuffix: string): (r: Result<Reply, string>)
    ensures p.mock ==> r == Ok(MockReply(p.message, p.threadId, randomSuffix))
    ensures p.mock ==> r.Ok? && r.value.threadId.Some?
    ensures !p.mock ==> r == PerformFetch(network, true, 0).result
  {
    if p.mock then Ok(MockReply(p.message, p.threadId, randomSuffix))
    else PerformFetch(network, true, 0).result
  }
}
