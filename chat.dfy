/**
 * The Pinia chat store (src/stores/chat.js): the conversation history, the
 * in-flight flag, the selected model and the fixed model catalog, with the
 * actions `setModel` and `sendMessage`.
 *
 * `sendMessage` is an async function. It is modelled as two methods split at
 * its suspension point: `BeginSend` runs everything up to the `fetch` (and,
 * when the API key is missing, everything, since the throw then happens before
 * anything is awaited), and `FinishSend` runs the continuation once the
 * exchange has an outcome. The network exchange itself is an `Outcome` value
 * supplied by the caller.
 */
module Chat {
  import opened Wrappers
  import opened JsText

  datatype Role = User | Assistant

  /** One turn of the conversation as the store keeps it. */
  datatype Message = Message(role: Role, content: string)

  /** One turn as it appears in the request body: the role is its JSON string. */
  datatype WireMessage = WireMessage(role: string, content: string)

  /** An entry of the model catalog offered to the UI. */
  datatype ModelOption = ModelOption(id: string, name: string)

  /**
   * The parts of the POST the store builds: endpoint, bearer header, and the
   * JSON body's `model`, `messages` and `stream` fields. The body's
   * `temperature` (a floating-point constant) is not modelled.
   */
  datatype Request = Request(url: string, authorization: string, model: string,
                             messages: seq<WireMessage>, stream: bool)

  /**
   * The response body as `response.json()` sees it: not JSON (the parser's
   * error message), or a JSON value whose `message` field and whose
   * `choices[k].message.content` strings are given when present.
   */
  datatype Body =
    | NotJson(syntaxError: string)
    | Json(message: Option<string>, choices: Option<seq<string>>)

  /** How the HTTP exchange ended: a response with a status and body, or a rejected `fetch`. */
  datatype Outcome =
    | Responded(status: nat, body: Body)
    | FetchFailed(reason: string)

  /** What `sendMessage` did before its first suspension. */
  datatype Dispatch =
    | Dropped                  // guard fired: nothing changed
    | SettledWithoutRequest    // key missing: both turns appended, flag released
    | Issued(request: Request) // request sent, flag held until FinishSend

  const Greeting: Message :=
    Message(Assistant, "你好！我是阿里百炼智能助手 (Qwen)，有什么可以帮你的吗？")

  const DefaultModel: string := "qwen-plus"

  const Catalog: seq<ModelOption> := [
    ModelOption("qwen-turbo", "Qwen Turbo (快速)"),
    ModelOption("qwen-plus", "Qwen Plus (均衡)"),
    ModelOption("qwen-max", "Qwen Max (最强)")
  ]

  const ApiUrl: string := "https://dashscope.aliyuncs.com/compatible-mode/v1/chat/completions"

  /** Prefix of every assistant turn written by the catch block. */
  const ErrorPrefix: string := "出错了: "
  const MissingKeyReason: string := "未找到 API Key，请检查 .env 文件"
  const ApiFailurePrefix: string := "API Request Failed: "
  const UnknownError: string := "Unknown error"
  /** V8's TypeError texts for `data.choices[0]` with no `choices`, and for `.message` of a missing first choice. */
  const NoChoicesReason: string := "Cannot read properties of undefined (reading '0')"
  const EmptyChoicesReason: string := "Cannot read properties of undefined (reading 'message')"

  function RoleName(role: Role): string
  {
    match role
    case User => "user"
    case Assistant => "assistant"
  }

  /** The role a JSON role string names, if any. */
  function RoleOf(name: string): Option<Role>
  {
    if name == "user" then Some(User)
    else if name == "assistant" then Some(Assistant)
    else None
  }

  /** `messages.map(({ role, content }) => ({ role, content }))`: every turn, in order, with nothing lost. */
  function Project(history: seq<Message>): (wire: seq<WireMessage>)
    ensures |wire| == |history|
    ensures forall i :: 0 <= i < |history| ==>
      RoleOf(wire[i].role) == Some(history[i].role) && wire[i].content == history[i].content
  {
    if history == [] then []
    else [WireMessage(RoleName(history[0].role), history[0].content)] + Project(history[1..])
  }

  /** Projecting a longer history extends the projection of the shorter one. */
  lemma {:induction false} ProjectAppend(history: seq<Message>, extra: seq<Message>)
    ensures Project(history + extra) == Project(history) + Project(extra)
  {
    if history != [] {
      assert (history + extra)[1..] == history[1..] + extra;
      ProjectAppend(history[1..], extra);
    }
  }

  /** `!API_KEY`: an unset variable and an empty string both count as missing. */
  predicate KeyPresent(apiKey: Option<string>)
  {
    apiKey.Some? && apiKey.value != ""
  }

  /** `response.ok`. */
  predicate IsOk(status: nat)
  {
    200 <= status <= 299
  }

  /** The assistant turn the catch block appends for an error with the given message. */
  function ErrorTurn(reason: string): (m: Message)
    ensures m.role == Assistant
    ensures |m.content| == |ErrorPrefix| + |reason|
    ensures m.content[..|ErrorPrefix|] == ErrorPrefix && m.content[|ErrorPrefix|..] == reason
  {
    Message(Assistant, ErrorPrefix + reason)
  }

  /** `errData?.message || 'Unknown error'`, where an unparsable body reads as `{}`. */
  function ErrorDetail(body: Body): (detail: string)
    ensures detail != ""
    ensures detail == UnknownError || (body.Json? && body.message == Some(detail))
    ensures body.Json? && body.message.Some? && body.message.value != "" ==>
      detail == body.message.value
  {
    match body
    case Json(Some(m), _) => if m != "" then m else UnknownError
    case _ => UnknownError
  }

  /** The message of the error thrown for a non-ok status: the status, then the detail. */
  function ApiFailure(status: nat, body: Body): string
  {
    ApiFailurePrefix + Decimal(status) + " - " + ErrorDetail(body)
  }

  /** Reads the number written right after `prefix` at the start of `text`, if there is one. */
  function NumberAfter(prefix: string, text: string): Option<nat>
  {
    if |text| >= |prefix| && text[..|prefix|] == prefix then
      var digits := LeadingDigits(text[|prefix|..]);
      if digits == [] then None else Some(ParseDecimal(digits))
    else None
  }

  /** A number written after a prefix and before a non-digit is read back exactly. */
  lemma NumberAfterDecimal(prefix: string, n: nat, rest: string)
    requires rest == [] || !IsDigit(rest[0])
    ensures NumberAfter(prefix, prefix + Decimal(n) + rest) == Some(n)
  {
    var text := prefix + Decimal(n) + rest;
    assert text[..|prefix|] == prefix;
    assert text[|prefix|..] == Decimal(n) + rest;
    LeadingDigitsOf(Decimal(n), rest);
    DecimalRoundTrip(n);
  }

  /** The failure message names the HTTP status exactly and ends with the detail. */
  lemma ApiFailureNamesStatus(status: nat, body: Body)
    ensures NumberAfter(ApiFailurePrefix, ApiFailure(status, body)) == Some(status)
    ensures var reason := ApiFailure(status, body); var detail := ErrorDetail(body);
      |reason| > |detail| && reason[|reason| - |detail|..] == detail
  {
    var rest := " - " + ErrorDetail(body);
    assert ApiFailure(status, body) == ApiFailurePrefix + Decimal(status) + rest;
    NumberAfterDecimal(ApiFailurePrefix, status, rest);
  }

  /** The exchange produced a usable answer: a 2xx JSON body with at least one choice. */
  predicate Answered(outcome: Outcome)
  {
    outcome.Responded? && IsOk(outcome.status) && outcome.body.Json? &&
    outcome.body.choices.Some? && outcome.body.choices.value != []
  }

  /**
   * The assistant turn the continuation of `sendMessage` appends: the first
   * choice's content on success; otherwise the catch block's error turn.
   */
  function Reply(outcome: Outcome): (m: Message)
    ensures m.role == Assistant
    ensures Answered(outcome) ==> m.content == outcome.body.choices.value[0]
    ensures !Answered(outcome) ==> |m.content| >= |ErrorPrefix| && m.content[..|ErrorPrefix|] == ErrorPrefix
    ensures outcome.Responded? && !IsOk(outcome.status) ==>
      m == ErrorTurn(ApiFailure(outcome.status, outcome.body))
  {
    match outcome
    case FetchFailed(reason) => ErrorTurn(reason)
    case Responded(status, body) =>
      if !IsOk(status) then ErrorTurn(ApiFailure(status, body))
      else
        match body
        case NotJson(syntaxError) => ErrorTurn(syntaxError)
        case Json(_, None) => ErrorTurn(NoChoicesReason)
        case Json(_, Some(choices)) =>
          if choices == [] then ErrorTurn(EmptyChoicesReason)
          else Message(Assistant, choices[0])
  }

  /** The role due at position `i` of the history: the greeting, then user/assistant pairs. */
  function TurnRole(i: nat): Role
  {
    if i % 2 == 0 then Assistant else User
  }

  /** A history that opens with the greeting and then alternates user and assistant turns. */
  ghost predicate Alternates(history: seq<Message>)
  {
    |history| >= 1 && history[0] == Greeting &&
    forall i :: 0 <= i < |history| ==> history[i].role == TurnRole(i)
  }

  /** Appending a turn whose role differs from the last one keeps the alternation. */
  lemma AlternatesPush(history: seq<Message>, m: Message)
    requires Alternates(history) && m.role != history[|history| - 1].role
    ensures Alternates(history + [m])
  {
    var n := |history|;
    assert TurnRole(n) != TurnRole(n - 1);
    var longer := history + [m];
    forall i | 0 <= i < |longer| ensures longer[i].role == TurnRole(i) {
      if i < n { assert longer[i] == history[i]; }
    }
  }

  class ChatStore {
    var messages: seq<Message>
    var isLoading: bool
    var currentModel: string
    const availableModels: seq<ModelOption>

    /**
     * The history opens with the greeting and then alternates user and
     * assistant turns; a trailing user turn is exactly the state of a send
     * in flight.
     */
    ghost predicate Valid()
      reads this
    {
      availableModels == Catalog && Alternates(messages) &&
      (isLoading <==> messages[|messages| - 1].role == User)
    }

    constructor ()
      ensures Valid()
      ensures messages == [Greeting] && !isLoading && currentModel == DefaultModel
      ensures availableModels == Catalog
    {
      messages := [Greeting];
      isLoading := false;
      currentModel := DefaultModel;
      availableModels := Catalog;
    }

    /** `setModel`: any id is accepted; the catalog is not consulted. */
    method SetModel(modelId: string)
      modifies this
      ensures currentModel == modelId
      ensures messages == old(messages) && isLoading == old(isLoading)
      ensures Valid() == old(Valid())
    {
      currentModel := modelId;
    }

    /** `sendMessage` up to the `fetch`: the guard, the user turn, the flag, the key check and the request. */
    method BeginSend(content: string, apiKey: Option<string>) returns (dispatch: Dispatch)
      requires Valid()
      modifies this
      ensures Valid() && currentModel == old(currentModel)
      ensures dispatch.Dropped? <==> Blank(content) || old(isLoading)
      ensures dispatch.Dropped? ==> messages == old(messages) && isLoading == old(isLoading)
      ensures dispatch.Issued? <==> !Blank(content) && !old(isLoading) && KeyPresent(apiKey)
      ensures dispatch.Issued? ==>
        messages == old(messages) + [Message(User, content)] && isLoading &&
        dispatch.request == Request(ApiUrl, "Bearer " + apiKey.value, currentModel, Project(messages), false)
      ensures dispatch.SettledWithoutRequest? ==>
        messages == old(messages) + [Message(User, content), ErrorTurn(MissingKeyReason)] && !isLoading
    {
      if TrimsToEmpty(content) || isLoading {
        return Dropped;
      }
      ghost var before := messages;
      var turn := Message(User, content);
      AlternatesPush(messages, turn);
      messages := messages + [turn];
      isLoading := true;
      assert messages[|messages| - 1] == turn;
      if !KeyPresent(apiKey) {
        var failure := ErrorTurn(MissingKeyReason);
        AlternatesPush(messages, failure);
        messages := messages + [failure];
        isLoading := false;
        assert messages[|messages| - 1] == failure;
        assert messages == before + [turn, failure];
        return SettledWithoutRequest;
      }
      dispatch := Issued(Request(ApiUrl, "Bearer " + apiKey.value, currentModel, Project(messages), false));
    }

    /** The continuation of `sendMessage`: one assistant turn for the outcome, then the `finally` release. */
    method FinishSend(outcome: Outcome)
      requires Valid() && isLoading
      modifies this
      ensures Valid() && !isLoading && currentModel == old(currentModel)
      ensures messages == old(messages) + [Reply(outcome)]
    {
      AlternatesPush(messages, Reply(outcome));
      messages := messages + [Reply(outcome)];
      isLoading := false;
    }

    /**
     * One whole `sendMessage` with nothing interleaved: a dropped call
     * changes nothing; an accepted one appends the user turn and then one
     * assistant turn and always releases the flag.
     */
    method SendMessage(content: string, apiKey: Option<string>, outcome: Outcome)
      returns (request: Option<Request>)
      requires Valid()
      modifies this
      ensures Valid() && currentModel == old(currentModel)
      ensures Blank(content) || old(isLoading) ==>
        messages == old(messages) && isLoading == old(isLoading) && request == None
      ensures !Blank(content) && !old(isLoading) ==>
        !isLoading && |messages| == |old(messages)| + 2 &&
        messages[..|old(messages)|] == old(messages) &&
        messages[|old(messages)|] == Message(User, content) &&
        messages[|old(messages)| + 1] ==
          (if KeyPresent(apiKey) then Reply(outcome) else ErrorTurn(MissingKeyReason))
      ensures request.Some? <==> !Blank(content) && !old(isLoading) && KeyPresent(apiKey)
      ensures request.Some? ==>
        request.value.model == old(currentModel) &&
        request.value.messages == Project(old(messages)) + [WireMessage("user", content)]
    {
      ghost var before := messages;
      var dispatch := BeginSend(content, apiKey);
      request := None;
      if dispatch.Issued? {
        request := Some(dispatch.request);
        ProjectAppend(before, [Message(User, content)]);
        FinishSend(outcome);
        assert messages == before + [Message(User, content), Reply(outcome)];
      }
    }
  }

  /** "Hello" is not blank: the check the scenarios below start from. */
  lemma HelloIsNotBlank()
    ensures !Blank("Hello")
  {
    assert !IsWhitespace("Hello"[0]);
  }

  /** A successful exchange leaves greeting, question and answer, and the store idle. */
  method ScenarioAnswered()
  {
    var store := new ChatStore();
    HelloIsNotBlank();
    var ok := Responded(200, Json(None, Some(["Hi there"])));
    var request := store.SendMessage("Hello", Some("sk-test"), ok);
    assert request.Some? && request.value.model == "qwen-plus";
    assert store.messages == [Greeting, Message(User, "Hello"), Message(Assistant, "Hi there")];
    assert !store.isLoading;
  }

  /** The message of the error thrown for a 500 whose body carries `message: "overloaded"`. */
  lemma OverloadedText()
    ensures ApiFailure(500, Json(Some("overloaded"), None)) == "API Request Failed: 500 - overloaded"
  {
    assert Decimal(500) == "500" by {
      assert Decimal(5) == "5";
      assert Decimal(50) == "50";
    }
    assert ErrorDetail(Json(Some("overloaded"), None)) == "overloaded";
  }

  /** A 500 with a message in its body becomes an error turn naming both. */
  method ScenarioServerError()
  {
    var store := new ChatStore();
    HelloIsNotBlank();
    var failed := Responded(500, Json(Some("overloaded"), None));
    var _ := store.SendMessage("Hello", Some("sk-test"), failed);
    assert store.messages[2] == Reply(failed) == ErrorTurn(ApiFailure(500, failed.body));
    OverloadedText();
    assert store.messages[2] == ErrorTurn("API Request Failed: 500 - overloaded");
    assert !store.isLoading;
  }

  /** A missing key settles the send at once, with no request. */
  method ScenarioMissingKey()
  {
    var store := new ChatStore();
    HelloIsNotBlank();
    var dispatch := store.BeginSend("Hello", Some(""));
    assert dispatch == SettledWithoutRequest;
    assert store.messages[2] == ErrorTurn(MissingKeyReason);
    assert !store.isLoading;
  }

  /** While a send is in flight a second one is dropped; the model chosen earlier is the one sent. */
  method ScenarioInFlight()
  {
    var store := new ChatStore();
    HelloIsNotBlank();
    store.SetModel("qwen-max");
    var first := store.BeginSend("Hello", Some("sk-test"));
    assert first.Issued? && first.request.model == "qwen-max";
    assert first.request.messages == [WireMessage("assistant", Greeting.content), WireMessage("user", "Hello")];
    var second := store.BeginSend("Again", Some("sk-test"));
    assert second == Dropped && |store.messages| == 2 && store.isLoading;
    var blank := store.BeginSend(" \t\n", Some("sk-test"));
    assert blank == Dropped;
    store.FinishSend(FetchFailed("Failed to fetch"));
    assert store.messages[2] == ErrorTurn("Failed to fetch");
    assert !store.isLoading;
  }
}
