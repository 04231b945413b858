/** The chat-completion client of `src/openai/chat.rs`: request arguments and
    their builders, the request loops that retry on server errors, the
    function-calling loop that retries on unparsable output, and the merge
    of streamed deltas into one accumulating response.

    The network is a `Transport` object whose replies are fixed in advance
    and which logs every request it is handed; sleeping is recorded as a
    list of delays in seconds; JSON parsing and SSE framing have already
    happened in the values handed to this module. */
module Chat {
  import opened Wrappers
  import opened Text

  /** The variants of `openai::Error` that the chat client raises. */
  datatype Error =
    | EncodingError
    | FormatError
    | FunctionParameterError
    | FunctionFormatError
    | NetworkError
    | InvalidChatCompletion
    | EmptyChatCompletion

  type u16 = x: int | 0 <= x < 0x1_0000

  datatype FinishReason = Stop | Length

  datatype Role = System | Assistant | User | Function

  datatype FunctionCall = FunctionCall(name: string, arguments: string)

  datatype FunctionCallArg = FunctionCallArg(name: string)

  /** A function offered to the model; `parameters` is its JSON schema, as text. */
  datatype FunctionArg = FunctionArg(name: string, description: Option<string>, parameters: string)

  datatype Message = Message(
    role: Role,
    content: Option<string>,
    name: Option<string>,
    functionCall: Option<FunctionCall>)

  datatype Choice = Choice(message: Message, finishReason: Option<FinishReason>)

  datatype Response = Response(choices: seq<Choice>)

  /** The streamed delta shapes: every field optional. */
  datatype FunctionCallUpdate = FunctionCallUpdate(name: Option<string>, arguments: Option<string>)

  datatype MessageUpdate = MessageUpdate(
    role: Option<Role>,
    content: Option<string>,
    name: Option<string>,
    functionCall: Option<FunctionCallUpdate>)

  datatype ChoiceUpdate = ChoiceUpdate(delta: MessageUpdate, finishReason: Option<FinishReason>)

  datatype ResponseUpdate = ResponseUpdate(choices: seq<ChoiceUpdate>)

  datatype Model = Gpt4 | Gpt35Turbo | Gpt35Turbo16k

  /** `ChatCompletionArgs` and its builders, each returning an updated copy. */
  datatype Args = Args(
    key: string,
    messages: seq<Message>,
    model: Model,
    maxTokens: Option<u16>,
    temperature: Option<real>,
    functions: Option<seq<FunctionArg>>,
    functionCall: Option<FunctionCallArg>)
  {
    function WithModel(model: Model): (r: Args)
      ensures r.model == model && r == this.(model := r.model)
    {
      this.(model := model)
    }

    function WithMessage(message: Message): (r: Args)
      ensures r.messages == messages + [message] && r == this.(messages := r.messages)
    {
      this.(messages := messages + [message])
    }

    function WithMessages(more: seq<Message>): (r: Args)
      ensures r.messages == messages + more && r == this.(messages := r.messages)
    {
      this.(messages := messages + more)
    }

    function WithTemperature(temperature: real): (r: Args)
      ensures r.temperature == Some(temperature) && r == this.(temperature := r.temperature)
    {
      this.(temperature := Some(temperature))
    }

    function WithNoFunctions(): (r: Args)
      ensures r.functions == None && r == this.(functions := None)
    {
      this.(functions := None)
    }

    function WithFunction(function_: FunctionArg): (r: Args)
      ensures r.functions == Some(functions.GetOr([]) + [function_])
      ensures r == this.(functions := r.functions)
    {
      if functions.Some? then this.(functions := Some(functions.value + [function_]))
      else
        assert [] + [function_] == [function_];
        this.(functions := Some([function_]))
    }

    function WithFunctionCall(functionCall: FunctionCallArg): (r: Args)
      ensures r.functionCall == Some(functionCall) && r == this.(functionCall := r.functionCall)
    {
      this.(functionCall := Some(functionCall))
    }
  }

  /** `ChatCompletionArgs::new`: GPT-3.5 Turbo, no messages, no options. */
  function NewArgs(key: string): (r: Args)
    ensures r.key == key && r.model == Gpt35Turbo && r.messages == []
    ensures r.maxTokens.None? && r.temperature.None? && r.functions.None? && r.functionCall.None?
  {
    Args(key, [], Gpt35Turbo, None, None, None, None)
  }

  /** Adding messages one at a time, as a reference for `WithMessages`. */
  function AddEach(args: Args, more: seq<Message>): Args
    decreases |more|
  {
    if more == [] then args else AddEach(args.WithMessage(more[0]), more[1..])
  }

  /** `with_messages` appends the whole list in order, exactly as adding the
      messages one by one with `with_message` would. */
  lemma {:induction false} WithMessagesIsEachMessage(args: Args, more: seq<Message>)
    ensures args.WithMessages(more) == AddEach(args, more)
    decreases |more|
  {
    if more != [] {
      WithMessagesIsEachMessage(args.WithMessage(more[0]), more[1..]);
      assert [more[0]] + more[1..] == more;
      assert args.messages + [more[0]] + more[1..] == args.messages + more;
    }
  }

  // ---------------------------------------------------------------------
  // Requests and the transport

  /** The JSON body of one request (`ChatCompletionRequest`) with the key
      that goes into the bearer header. */
  datatype Request = Request(
    key: string,
    model: Model,
    messages: seq<Message>,
    maxTokens: Option<u16>,
    temperature: Option<real>,
    stream: bool,
    functions: Option<seq<FunctionArg>>,
    functionCall: Option<FunctionCallArg>)

  function RequestFor(args: Args, stream: bool): Request
  {
    Request(args.key, args.model, args.messages, args.maxTokens, args.temperature, stream,
            args.functions, args.functionCall)
  }

  /** One server-sent event as the decoder yields it: a message carrying a
      payload, a retry directive, or a decoding failure. */
  datatype Event = MessageEvent(data: Payload) | RetryEvent | DecodeError

  /** A message payload: bytes that are not UTF-8, or the text together with
      what `serde_json` made of it (`None` when it is not a
      `ChatCompletionResponseUpdate`). */
  datatype Payload = NotUtf8 | Utf8(text: string, parsed: Option<ResponseUpdate>)

  /** A response body, read either as one JSON document (`None` when it is
      not a `ChatCompletionResponse`) or as a stream of events. */
  datatype Body = Body(json: Option<Response>, events: seq<Event>)

  /** What one `send` produced: a response, an error with a 5xx status, or
      any other error. */
  datatype SendOutcome = Delivered(body: Body) | ServerError | OtherError

  /** The network: replies fixed in advance, indexed by the number of
      requests sent before, and a log of what was sent. */
  class Transport {
    var sent: seq<Request>
    const replies: nat -> SendOutcome

    constructor (replies: nat -> SendOutcome)
      ensures sent == [] && this.replies == replies
    {
      sent := [];
      this.replies := replies;
    }

    method Send(request: Request) returns (outcome: SendOutcome)
      modifies this
      ensures sent == old(sent) + [request]
      ensures outcome == replies(|old(sent)|)
    {
      outcome := replies(|sent|);
      sent := sent + [request];
    }
  }

  function Pow2(k: nat): (r: nat)
    ensures r >= 1
  {
    if k == 0 then 1 else 2 * Pow2(k - 1)
  }

  /** The sleeps before the first `n` retries: 1, 2, 4, ... seconds. */
  function Backoff(n: nat): seq<nat>
  {
    seq(n, k requires 0 <= k => Pow2(k))
  }

  /** How many requests the retry loop sends and what it ends with. */
  datatype Attempts = Attempts(count: nat, result: Result<Body, Error>)

  /** The request loop of `chat_completion` and `new_stream` from its
      `nRetried`-th retry on, against the replies numbered from `base`. */
  function Retrying(replies: nat -> SendOutcome, base: nat, nRetried: nat, maxRetries: nat): (a: Attempts)
    requires nRetried <= maxRetries
    ensures nRetried < a.count
    decreases maxRetries - nRetried
  {
    match replies(base + nRetried)
    case Delivered(body) => Attempts(nRetried + 1, Success(body))
    case OtherError => Attempts(nRetried + 1, Failure(NetworkError))
    case ServerError =>
      if nRetried < maxRetries then Retrying(replies, base, nRetried + 1, maxRetries)
      else Attempts(nRetried + 1, Failure(NetworkError))
  }

  /** The retry policy: at most `maxRetries + 1` requests; every request but
      the last met a server error; the last decides the result, and a server
      error there means the retries ran out. */
  lemma {:induction false} RetryingPolicy(replies: nat -> SendOutcome, base: nat, nRetried: nat, maxRetries: nat)
    requires nRetried <= maxRetries
    ensures var a := Retrying(replies, base, nRetried, maxRetries);
      && nRetried < a.count <= maxRetries + 1
      && (forall k :: base + nRetried <= k < base + a.count - 1 ==> replies(k).ServerError?)
      && match replies(base + a.count - 1)
         case Delivered(body) => a.result == Success(body)
         case OtherError => a.result == Failure(NetworkError)
         case ServerError => a.count == maxRetries + 1 && a.result == Failure(NetworkError)
    decreases maxRetries - nRetried
  {
    if replies(base + nRetried).ServerError? && nRetried < maxRetries {
      RetryingPolicy(replies, base, nRetried + 1, maxRetries);
    }
  }

  /** Two server errors and then a response, with three retries allowed:
      the third request succeeds. */
  lemma RetrySucceedsAfterTwoServerErrors(body: Body)
    ensures var replies := (k: nat) => if k < 2 then ServerError else Delivered(body);
      Retrying(replies, 0, 0, 3) == Attempts(3, Success(body))
  {
  }

  /** Nothing but server errors, with two retries allowed: three requests,
      then a network error. */
  lemma RetryGivesUpAfterMaxRetries()
    ensures Retrying((k: nat) => ServerError, 0, 0, 2) == Attempts(3, Failure(NetworkError))
  {
  }

  /** The shared request loop of `chat_completion` and `new_stream`: send,
      and on a server error sleep `2^n` seconds before retry `n`. */
  method SendWithRetries(transport: Transport, request: Request, maxRetries: nat)
    returns (r: Result<Body, Error>, sleeps: seq<nat>)
    modifies transport
    ensures var a := Retrying(transport.replies, |old(transport.sent)|, 0, maxRetries);
      && r == a.result
      && transport.sent == old(transport.sent) + seq(a.count, _ => request)
      && sleeps == Backoff(a.count - 1)
  {
    ghost var base := |transport.sent|;
    var nRetried := 0;
    sleeps := [];
    while true
      invariant nRetried <= maxRetries
      invariant transport.sent == old(transport.sent) + seq(nRetried, _ => request)
      invariant sleeps == Backoff(nRetried)
      invariant Retrying(transport.replies, base, nRetried, maxRetries)
             == Retrying(transport.replies, base, 0, maxRetries)
      decreases maxRetries - nRetried
    {
      var outcome := transport.Send(request);
      assert transport.sent == old(transport.sent) + seq(nRetried + 1, _ => request);
      match outcome
      case Delivered(body) =>
        return Success(body), sleeps;
      case OtherError =>
        return Failure(NetworkError), sleeps;
      case ServerError =>
        if nRetried < maxRetries {
          sleeps := sleeps + [Pow2(nRetried)];
          nRetried := nRetried + 1;
        } else {
          return Failure(NetworkError), sleeps;
        }
    }
  }

  /** `response.json::<ChatCompletionResponse>()` on a delivered body. */
  function AsCompletion(sent: Result<Body, Error>): Result<Response, Error>
  {
    match sent
    case Failure(e) => Failure(e)
    case Success(body) =>
      if body.json.Some? then Success(body.json.value) else Failure(InvalidChatCompletion)
  }

  /** `chat_completion`: the retry loop with `stream: false`, then the body
      read as one response. */
  method ChatCompletion(transport: Transport, args: Args, maxRetries: nat)
    returns (r: Result<Response, Error>, sleeps: seq<nat>)
    modifies transport
    ensures var a := Retrying(transport.replies, |old(transport.sent)|, 0, maxRetries);
      && r == AsCompletion(a.result)
      && transport.sent == old(transport.sent) + seq(a.count, _ => RequestFor(args, false))
      && sleeps == Backoff(a.count - 1)
  {
    var sent;
    sent, sleeps := SendWithRetries(transport, RequestFor(args, false), maxRetries);
    r := AsCompletion(sent);
  }

  /** `ChatCompletionParts::new_stream`: the retry loop with `stream: true`,
      then the body read as events. */
  method NewStream(transport: Transport, args: Args, maxRetries: nat)
    returns (r: Result<seq<Event>, Error>, sleeps: seq<nat>)
    modifies transport
    ensures var a := Retrying(transport.replies, |old(transport.sent)|, 0, maxRetries);
      && (r.Success? <==> a.result.Success?)
      && (r.Success? ==> r.value == a.result.value.events)
      && (r.Failure? ==> r.error == a.result.error)
      && transport.sent == old(transport.sent) + seq(a.count, _ => RequestFor(args, true))
      && sleeps == Backoff(a.count - 1)
  {
    var sent;
    sent, sleeps := SendWithRetries(transport, RequestFor(args, true), maxRetries);
    match sent
    case Success(body) => r := Success(body.events);
    case Failure(e) => r := Failure(e);
  }

  // ---------------------------------------------------------------------
  // Function calling

  const RetryTemperature: real := 0.5

  /** The arguments of every attempt: the one function `name` is the only
      function offered and is forced. */
  function ForcedArgs(args: Args, name: string, description: Option<string>, parameters: string): Args
  {
    args.WithNoFunctions()
        .WithFunction(FunctionArg(name, description, parameters))
        .WithFunctionCall(FunctionCallArg(name))
  }

  /** The arguments of attempt `attempt` (0 for the first). */
  function AttemptArgs(args: Args, name: string, description: Option<string>, parameters: string, attempt: nat): Args
  {
    var forced := ForcedArgs(args, name, description, parameters);
    if attempt > 0 then forced.WithTemperature(RetryTemperature) else forced
  }

  /** Every attempt offers exactly the one function and forces it, keeps the
      caller's messages, model and limits, and from the second attempt on
      raises the temperature to 0.5. */
  lemma AttemptArgsForceOneFunction(args: Args, name: string, description: Option<string>, parameters: string, attempt: nat)
    ensures var a := AttemptArgs(args, name, description, parameters, attempt);
      && a.functions == Some([FunctionArg(name, description, parameters)])
      && a.functionCall == Some(FunctionCallArg(name))
      && a.temperature == (if attempt == 0 then args.temperature else Some(0.5))
      && a.key == args.key && a.messages == args.messages
      && a.model == args.model && a.maxTokens == args.maxTokens
  {
  }

  /** What `chat_completion_function` does with one completion: `Retry`, or
      return `result`. */
  datatype Verdict<T> = Retry | Return(result: Result<T, Error>)

  function Judge<T>(outcome: Result<Response, Error>, parse: string -> Option<T>, canRetry: bool): Verdict<T>
  {
    match outcome
    case Failure(e) => Return(Failure(e))
    case Success(response) =>
      if response.choices == [] || response.choices[0].message.functionCall.None? then
        Return(Failure(EmptyChatCompletion))
      else
        match parse(response.choices[0].message.functionCall.value.arguments)
        case Some(v) => Return(Success(v))
        case None => if canRetry then Retry else Return(Failure(FunctionFormatError))
  }

  /** Only arguments that fail to parse are retried; a transport error or a
      completion without a function call ends the call at once. */
  lemma JudgeRetriesOnlyParseFailures<T>(outcome: Result<Response, Error>, parse: string -> Option<T>, canRetry: bool)
    ensures Judge(outcome, parse, canRetry).Retry? <==>
      && canRetry && outcome.Success?
      && outcome.value.choices != []
      && outcome.value.choices[0].message.functionCall.Some?
      && parse(outcome.value.choices[0].message.functionCall.value.arguments).None?
    ensures outcome.Failure? ==> Judge(outcome, parse, canRetry) == Return(Failure(outcome.error))
  {
  }

  /** The number of requests one `chat_completion` call sends when its
      first request meets reply number `base`. */
  function RequestCount(replies: nat -> SendOutcome, base: nat, maxRetries: nat): nat
  {
    Retrying(replies, base, 0, maxRetries).count
  }

  /** The requests a run of `chat_completion` calls sends: call `k`, with
      arguments `calls[k]`, first meets reply number `bases[k]`. */
  function CallsSent(replies: nat -> SendOutcome, bases: seq<nat>, calls: seq<Args>, maxRetries: nat): seq<Request>
    requires |bases| == |calls|
  {
    if calls == [] then []
    else seq(RequestCount(replies, bases[0], maxRetries), _ => RequestFor(calls[0], false))
         + CallsSent(replies, bases[1..], calls[1..], maxRetries)
  }

  /** One more call appends its own requests to the log. */
  lemma {:induction false} CallsSentSnoc(replies: nat -> SendOutcome, bases: seq<nat>, calls: seq<Args>, maxRetries: nat, base: nat, call: Args)
    requires |bases| == |calls|
    ensures CallsSent(replies, bases + [base], calls + [call], maxRetries)
         == CallsSent(replies, bases, calls, maxRetries)
            + seq(RequestCount(replies, base, maxRetries), _ => RequestFor(call, false))
    decreases |calls|
  {
    if calls == [] {
      assert bases + [base] == [base] && calls + [call] == [call];
    } else {
      assert (bases + [base])[1..] == bases[1..] + [base];
      assert (calls + [call])[1..] == calls[1..] + [call];
      CallsSentSnoc(replies, bases[1..], calls[1..], maxRetries, base, call);
    }
  }

  /** The checks `chat_completion_function` makes on one completion, in the
      order it makes them. */
  method Inspect<T>(outcome: Result<Response, Error>, parse: string -> Option<T>, canRetry: bool)
    returns (verdict: Verdict<T>)
    ensures verdict == Judge(outcome, parse, canRetry)
  {
    if outcome.Failure? {
      return Return(Failure(outcome.error));
    }
    var choices := outcome.value.choices;
    if |choices| == 0 {
      return Return(Failure(EmptyChatCompletion));
    }
    var functionCall := choices[0].message.functionCall;
    if functionCall.None? {
      return Return(Failure(EmptyChatCompletion));
    }
    match parse(functionCall.value.arguments)
    case Some(v) =>
      return Return(Success(v));
    case None =>
      if canRetry {
        return Retry;
      } else {
        return Return(Failure(FunctionFormatError));
      }
  }

  /** Where each of `n` successive `chat_completion` calls starts in the
      replies when the first starts at `first`: each starts where the
      previous one stopped. */
  function Bases(replies: nat -> SendOutcome, maxRetries: nat, first: nat, n: nat): (bases: seq<nat>)
    ensures |bases| == n
    decreases n
  {
    if n == 0 then [] else [first] + Bases(replies, maxRetries, first + RequestCount(replies, first, maxRetries), n - 1)
  }

  /** Where the replies stand after those `n` calls. */
  function End(replies: nat -> SendOutcome, maxRetries: nat, first: nat, n: nat): nat
    decreases n
  {
    if n == 0 then first else End(replies, maxRetries, first + RequestCount(replies, first, maxRetries), n - 1)
  }

  /** One more call starts where the others ended. */
  lemma {:induction false} BasesSnoc(replies: nat -> SendOutcome, maxRetries: nat, first: nat, n: nat)
    ensures Bases(replies, maxRetries, first, n + 1)
         == Bases(replies, maxRetries, first, n) + [End(replies, maxRetries, first, n)]
    ensures End(replies, maxRetries, first, n + 1)
         == End(replies, maxRetries, first, n) + RequestCount(replies, End(replies, maxRetries, first, n), maxRetries)
    decreases n
  {
    if n > 0 {
      BasesSnoc(replies, maxRetries, first + RequestCount(replies, first, maxRetries), n - 1);
    }
  }

  /** The calls start one after another: the first at `first`, each next one
      where the one before stopped. */
  lemma {:induction false} BasesChain(replies: nat -> SendOutcome, maxRetries: nat, first: nat, n: nat)
    ensures var bases := Bases(replies, maxRetries, first, n);
      && (n > 0 ==> bases[0] == first)
      && forall k :: 0 <= k < n - 1 ==> bases[k + 1] == bases[k] + RequestCount(replies, bases[k], maxRetries)
    decreases n
  {
    if n > 0 {
      var rest := first + RequestCount(replies, first, maxRetries);
      BasesChain(replies, maxRetries, rest, n - 1);
      var bases := Bases(replies, maxRetries, first, n);
      assert bases[1..] == Bases(replies, maxRetries, rest, n - 1);
    }
  }

  /** What `chat_completion` returns for calls starting at `bases`. */
  function Outcomes(replies: nat -> SendOutcome, maxRetries: nat, bases: seq<nat>): (outcomes: seq<Result<Response, Error>>)
    ensures |outcomes| == |bases|
  {
    seq(|bases|, k requires 0 <= k < |bases| => AsCompletion(Retrying(replies, bases[k], 0, maxRetries).result))
  }

  /** The log `sent`, started as `start`, holds exactly the requests of the
      `chat_completion` calls `calls`, made one after another, which
      returned `outcomes`. */
  ghost predicate Logged(replies: nat -> SendOutcome, maxRetries: nat, start: seq<Request>, sent: seq<Request>,
                         bases: seq<nat>, calls: seq<Args>, outcomes: seq<Result<Response, Error>>)
  {
    && |calls| == |bases|
    && bases == Bases(replies, maxRetries, |start|, |calls|)
    && outcomes == Outcomes(replies, maxRetries, bases)
    && sent == start + CallsSent(replies, bases, calls, maxRetries)
    && |sent| == End(replies, maxRetries, |start|, |calls|)
  }

  /** One more `chat_completion` call keeps the log accounted for. */
  lemma LoggedSnoc(replies: nat -> SendOutcome, maxRetries: nat, start: seq<Request>, sent: seq<Request>,
                   bases: seq<nat>, calls: seq<Args>, outcomes: seq<Result<Response, Error>>,
                   call: Args, outcome: Result<Response, Error>, after: seq<Request>)
    requires Logged(replies, maxRetries, start, sent, bases, calls, outcomes)
    requires after == sent + seq(RequestCount(replies, |sent|, maxRetries), _ => RequestFor(call, false))
    requires outcome == AsCompletion(Retrying(replies, |sent|, 0, maxRetries).result)
    ensures Logged(replies, maxRetries, start, after, bases + [|sent|], calls + [call], outcomes + [outcome])
  {
    CallsSentSnoc(replies, bases, calls, maxRetries, |sent|, call);
    BasesSnoc(replies, maxRetries, |start|, |calls|);
    assert Outcomes(replies, maxRetries, bases + [|sent|]) == outcomes + [outcome];
  }

  /** One `chat_completion` call of the function-calling loop, its requests
      accounted for in the log. */
  method LoggedCompletion(transport: Transport, call: Args, maxRetries: nat, ghost start: seq<Request>,
                          ghost bases: seq<nat>, ghost calls: seq<Args>, ghost outcomes: seq<Result<Response, Error>>)
    returns (outcome: Result<Response, Error>)
    requires Logged(transport.replies, maxRetries, start, transport.sent, bases, calls, outcomes)
    modifies transport
    ensures Logged(transport.replies, maxRetries, start, transport.sent,
                   bases + [|old(transport.sent)|], calls + [call], outcomes + [outcome])
  {
    ghost var before := transport.sent;
    var sleeps;
    outcome, sleeps := ChatCompletion(transport, call, maxRetries);
    LoggedSnoc(transport.replies, maxRetries, start, before, bases, calls, outcomes, call, outcome, transport.sent);
  }

  /** `chat_completion_function`: the schema is built once (`None` when it
      cannot be serialised); each attempt is a whole `chat_completion` call.
      `calls` and `outcomes` are the arguments and results of those calls,
      and `bases[k]` is how many requests had been sent before call `k`:
      each call starts where the previous one stopped, meets the replies
      from there on, and the log grows by exactly the calls' requests. */
  method ChatCompletionFunction<T>(
    transport: Transport, args: Args, name: string, description: Option<string>,
    schema: Option<string>, maxRetries: nat, parse: string -> Option<T>)
    returns (r: Result<T, Error>, calls: seq<Args>, outcomes: seq<Result<Response, Error>>, ghost bases: seq<nat>)
    modifies transport
    ensures schema.None? ==> r == Failure(FunctionParameterError) && calls == [] && unchanged(transport)
    ensures schema.Some? ==>
      && 1 <= |calls| == |outcomes| == |bases| <= maxRetries + 1
      && (forall k :: 0 <= k < |calls| ==> calls[k] == AttemptArgs(args, name, description, schema.value, k))
      && Logged(transport.replies, maxRetries, old(transport.sent), transport.sent, bases, calls, outcomes)
      && (forall k :: 0 <= k < |outcomes| - 1 ==> Judge(outcomes[k], parse, true) == Retry)
      && Judge(outcomes[|outcomes| - 1], parse, |outcomes| - 1 < maxRetries) == Return(r)
  {
    bases := [];
    if schema.None? {
      return Failure(FunctionParameterError), [], [], bases;
    }
    var parameters := schema.value;
    var nRetried := 0;
    calls, outcomes := [], [];
    while true
      invariant nRetried <= maxRetries
      invariant |calls| == |outcomes| == |bases| == nRetried
      invariant forall k :: 0 <= k < |calls| ==> calls[k] == AttemptArgs(args, name, description, parameters, k)
      invariant forall k :: 0 <= k < |outcomes| ==> Judge(outcomes[k], parse, true) == Retry
      invariant Logged(transport.replies, maxRetries, old(transport.sent), transport.sent, bases, calls, outcomes)
      decreases maxRetries - nRetried
    {
      var attemptArgs := ForcedArgs(args, name, description, parameters);
      if nRetried > 0 {
        attemptArgs := attemptArgs.WithTemperature(RetryTemperature);
      }
      ghost var base := |transport.sent|;
      var outcome := LoggedCompletion(transport, attemptArgs, maxRetries, old(transport.sent), bases, calls, outcomes);
      calls, outcomes, bases := calls + [attemptArgs], outcomes + [outcome], bases + [base];
      var verdict := Inspect(outcome, parse, nRetried < maxRetries);
      if verdict.Return? {
        return verdict.result, calls, outcomes, bases;
      }
      nRetried := nRetried + 1;
    }
  }

  // ---------------------------------------------------------------------
  // Streaming: merging deltas

  /** An appendable field: a fragment is appended, or becomes the field
      when it is absent. */
  function Grow(field: Option<string>, fragment: Option<string>): Option<string>
  {
    if fragment.None? then field
    else if field.None? then fragment
    else Some(field.value + fragment.value)
  }

  /** The function call: each fragment string present is appended; a call
      that is absent is created with empty strings for missing fragments. */
  function GrowCall(call: Option<FunctionCall>, fragment: Option<FunctionCallUpdate>): Option<FunctionCall>
  {
    if fragment.None? then call
    else if call.None? then
      Some(FunctionCall(fragment.value.name.GetOr(""), fragment.value.arguments.GetOr("")))
    else
      var f := fragment.value;
      var name := if f.name.Some? then call.value.name + f.name.value else call.value.name;
      var arguments := if f.arguments.Some? then call.value.arguments + f.arguments.value else call.value.arguments;
      Some(FunctionCall(name, arguments))
  }

  /** The choice the first delta creates. */
  function FirstChoice(update: ChoiceUpdate): Choice
  {
    var delta := update.delta;
    Choice(Message(delta.role.GetOr(Assistant), Some(delta.content.GetOr("")), delta.name,
                   GrowCall(None, delta.functionCall)),
           None)
  }

  /** A later delta: appendable fields grow, role and finish reason are
      replaced when present. */
  function MergeChoice(previous: Choice, update: ChoiceUpdate): Choice
  {
    var m, delta := previous.message, update.delta;
    Choice(Message(delta.role.GetOr(m.role), Grow(m.content, delta.content), Grow(m.name, delta.name),
                   GrowCall(m.functionCall, delta.functionCall)),
           if update.finishReason.Some? then update.finishReason else previous.finishReason)
  }

  /** The delta carries at least one field. */
  predicate Carries(update: ChoiceUpdate) {
    || update.delta.content.Some?
    || update.delta.role.Some?
    || update.delta.name.Some?
    || update.delta.functionCall.Some?
    || update.finishReason.Some?
  }

  /** The payload is a delta: text that is neither the end marker nor blank
      and parses to an update with at least one choice. */
  predicate IsDelta(data: Payload) {
    && data.Utf8?
    && data.text != "[DONE]" && Trim(data.text) != []
    && data.parsed.Some? && data.parsed.value.choices != []
  }

  /** The effect of one payload: whether anything changed and the new
      response, or the error. */
  function Apply(response: Response, data: Payload): Result<(bool, Response), Error>
  {
    match data
    case NotUtf8 => Failure(EncodingError)
    case Utf8(text, parsed) =>
      if text == "[DONE]" || Trim(text) == [] then Success((false, response))
      else if parsed.None? then Failure(FormatError)
      else Success(ApplyUpdate(response, parsed.value))
  }

  /** The effect of a parsed update: only its first choice counts. */
  function ApplyUpdate(response: Response, update: ResponseUpdate): (bool, Response)
  {
    if update.choices == [] then (false, response)
    else
      var first := update.choices[0];
      if response.choices == [] then (true, Response([FirstChoice(first)]))
      else (Carries(first), Response([MergeChoice(response.choices[0], first)] + response.choices[1..]))
  }

  /** The `Some(previous)` arm of `update_response`: merge a later delta
      into the first choice, field by field. */
  method MergeDelta(previous: Choice, update: ChoiceUpdate) returns (merged: Choice, updated: bool)
    ensures merged == MergeChoice(previous, update)
    ensures updated <==> Carries(update)
  {
    var delta := update.delta;
    var message, finish := previous.message, previous.finishReason;
    updated := false;
    if delta.content.Some? {
      if message.content.Some? {
        message := message.(content := Some(message.content.value + delta.content.value));
      } else {
        message := message.(content := delta.content);
      }
      updated := true;
    }
    if delta.role.Some? {
      message := message.(role := delta.role.value);
      updated := true;
    }
    if delta.name.Some? {
      if message.name.Some? {
        message := message.(name := Some(message.name.value + delta.name.value));
      } else {
        message := message.(name := delta.name);
      }
      updated := true;
    }
    if delta.functionCall.Some? {
      var fragment := delta.functionCall.value;
      if message.functionCall.Some? {
        var call := message.functionCall.value;
        if fragment.name.Some? {
          call := call.(name := call.name + fragment.name.value);
        }
        if fragment.arguments.Some? {
          call := call.(arguments := call.arguments + fragment.arguments.value);
        }
        message := message.(functionCall := Some(call));
      } else {
        message := message.(functionCall := Some(FunctionCall(fragment.name.GetOr(""), fragment.arguments.GetOr(""))));
      }
      updated := true;
    }
    if update.finishReason.Some? {
      finish := update.finishReason;
      updated := true;
    }
    merged := Choice(message, finish);
  }

  /** `update_response`: merge one payload into `response` in place and
      report whether anything changed. */
  method UpdateResponse(response: Response, data: Payload) returns (result: Result<bool, Error>, next: Response)
    ensures match Apply(response, data)
      case Success(applied) => result == Success(applied.0) && next == applied.1
      case Failure(e) => result == Failure(e) && next == response
  {
    var updated;
    next := response;
    if data.NotUtf8? {
      return Failure(EncodingError), next;
    }
    if data.text == "[DONE]" || Trim(data.text) == [] {
      return Success(false), next;
    }
    if data.parsed.None? {
      return Failure(FormatError), next;
    }
    updated, next := UpdateChoices(response, data.parsed.value);
    result := Success(updated);
  }

  /** The part of `update_response` after parsing: create the first choice
      or merge into it. */
  method UpdateChoices(response: Response, update: ResponseUpdate) returns (updated: bool, next: Response)
    ensures (updated, next) == ApplyUpdate(response, update)
  {
    updated := false;
    next := response;
    if |update.choices| > 0 {
      var delta := update.choices[0].delta;
      if |next.choices| == 0 {
        var call := None;
        if delta.functionCall.Some? {
          call := Some(FunctionCall(delta.functionCall.value.name.GetOr(""),
                                    delta.functionCall.value.arguments.GetOr("")));
        }
        var message := Message(delta.role.GetOr(Assistant), Some(delta.content.GetOr("")), delta.name, call);
        next := Response(next.choices + [Choice(message, None)]);
        assert next.choices == [FirstChoice(update.choices[0])];
        updated := true;
      } else {
        var merged;
        merged, updated := MergeDelta(next.choices[0], update.choices[0]);
        assert next.choices[0 := merged] == [merged] + next.choices[1..];
        next := next.(choices := next.choices[0 := merged]);
      }
    }
  }

  /** The end marker, blank text and an update without choices change
      nothing; bad bytes and bad JSON are errors. */
  lemma ApplyNonDeltas(response: Response, data: Payload)
    requires !IsDelta(data)
    ensures data.NotUtf8? ==> Apply(response, data) == Failure(EncodingError)
    ensures data.Utf8? && data.text != "[DONE]" && Trim(data.text) != [] && data.parsed.None? ==>
      Apply(response, data) == Failure(FormatError)
    ensures Apply(response, data).Success? ==> Apply(response, data).value == (false, response)
  {
  }

  /** The first delta creates exactly one choice with defaulted fields and
      no finish reason, whatever the delta carried. */
  lemma ApplyFirstDelta(response: Response, data: Payload)
    requires response.choices == [] && IsDelta(data)
    ensures var update := data.parsed.value.choices[0];
      var delta := update.delta;
      && Apply(response, data).Success?
      && Apply(response, data).value.0
      && |Apply(response, data).value.1.choices| == 1
      && var c := Apply(response, data).value.1.choices[0];
      && c.message.role == delta.role.GetOr(Assistant)
      && c.message.content == Some(delta.content.GetOr(""))
      && c.message.name == delta.name
      && c.message.functionCall == (if delta.functionCall.None? then None
           else Some(FunctionCall(delta.functionCall.value.name.GetOr(""), delta.functionCall.value.arguments.GetOr(""))))
      && c.finishReason.None?
  {
  }

  predicate IsPrefix(a: string, b: string) {
    |a| <= |b| && b[..|a|] == a
  }

  /** `b` is `a` grown: present whenever `a` is, and with `a` as a prefix. */
  predicate Extends(a: Option<string>, b: Option<string>) {
    a.Some? ==> b.Some? && IsPrefix(a.value, b.value)
  }

  predicate CallExtends(a: Option<FunctionCall>, b: Option<FunctionCall>) {
    a.Some? ==> b.Some? && IsPrefix(a.value.name, b.value.name) && IsPrefix(a.value.arguments, b.value.arguments)
  }

  /** The first choice of `after` is that of `before` with its appendable
      fields grown. */
  predicate Grown(before: Response, after: Response) {
    before.choices != [] ==>
      && after.choices != []
      && var m, n := before.choices[0].message, after.choices[0].message;
      && Extends(m.content, n.content)
      && Extends(m.name, n.name)
      && CallExtends(m.functionCall, n.functionCall)
  }

  lemma PrefixTransitive(a: string, b: string, c: string)
    requires IsPrefix(a, b) && IsPrefix(b, c)
    ensures IsPrefix(a, c)
  {
    assert c[..|a|] == c[..|b|][..|a|];
  }

  /** Growing is transitive: a response grown twice is grown. */
  lemma GrownTransitive(a: Response, b: Response, c: Response)
    requires Grown(a, b) && Grown(b, c)
    ensures Grown(a, c)
  {
    if a.choices != [] {
      var x, y, z := a.choices[0].message, b.choices[0].message, c.choices[0].message;
      if x.content.Some? { PrefixTransitive(x.content.value, y.content.value, z.content.value); }
      if x.name.Some? { PrefixTransitive(x.name.value, y.name.value, z.name.value); }
      if x.functionCall.Some? {
        var f, g, h := x.functionCall.value, y.functionCall.value, z.functionCall.value;
        PrefixTransitive(f.name, g.name, h.name);
        PrefixTransitive(f.arguments, g.arguments, h.arguments);
      }
    }
  }

  lemma AppendExtends(a: string, b: string)
    ensures IsPrefix(a, a + b)
  {
    assert (a + b)[..|a|] == a;
  }

  /** An appended field keeps its old text in front. */
  lemma GrowExtends(field: Option<string>, fragment: Option<string>)
    ensures Extends(field, Grow(field, fragment))
  {
    if field.Some? && fragment.Some? {
      AppendExtends(field.value, fragment.value);
    }
  }

  lemma GrowCallExtends(call: Option<FunctionCall>, fragment: Option<FunctionCallUpdate>)
    ensures CallExtends(call, GrowCall(call, fragment))
  {
    if call.Some? && fragment.Some? {
      if fragment.value.name.Some? { AppendExtends(call.value.name, fragment.value.name.value); }
      if fragment.value.arguments.Some? { AppendExtends(call.value.arguments, fragment.value.arguments.value); }
    }
  }

  /** A later delta appends to content, name and the function call, replaces
      role and finish reason when present, touches no other choice, and
      reports a change exactly when it carried a field. */
  lemma ApplyLaterDelta(response: Response, data: Payload)
    requires response.choices != [] && IsDelta(data)
    ensures var update := data.parsed.value.choices[0];
      var delta := update.delta;
      var before := response.choices[0];
      && Apply(response, data).Success?
      && var (changed, next) := Apply(response, data).value;
      && (changed <==> Carries(update))
      && |next.choices| == |response.choices|
      && next.choices[1..] == response.choices[1..]
      && Grown(response, next)
      && next.choices[0].message.content == Grow(before.message.content, delta.content)
      && next.choices[0].message.name == Grow(before.message.name, delta.name)
      && next.choices[0].message.functionCall == GrowCall(before.message.functionCall, delta.functionCall)
      && next.choices[0].message.role == delta.role.GetOr(before.message.role)
      && next.choices[0].finishReason == (if update.finishReason.Some? then update.finishReason else before.finishReason)
  {
    var update := data.parsed.value.choices[0];
    var m := response.choices[0].message;
    GrowExtends(m.content, update.delta.content);
    GrowExtends(m.name, update.delta.name);
    GrowCallExtends(m.functionCall, update.delta.functionCall);
    var next := Response([MergeChoice(response.choices[0], update)] + response.choices[1..]);
    assert Apply(response, data) == Success((Carries(update), next));
    assert next.choices[1..] == response.choices[1..];
  }

  /** Whatever the payload, the response only grows: the choice count goes
      from 0 to 1 on a change and otherwise stays, and no appendable field
      of the first choice loses text. */
  lemma ApplyGrows(response: Response, data: Payload)
    requires Apply(response, data).Success?
    ensures var (changed, next) := Apply(response, data).value;
      && |next.choices| == (if response.choices == [] && changed then 1 else |response.choices|)
      && Grown(response, next)
  {
    if IsDelta(data) {
      if response.choices == [] {
        ApplyFirstDelta(response, data);
      } else {
        ApplyLaterDelta(response, data);
      }
    } else {
      ApplyNonDeltas(response, data);
    }
  }

  // ---------------------------------------------------------------------
  // Streaming: pulling

  /** What one pull returns and leaves behind. */
  datatype Pulled = Pulled(result: Result<Option<Response>, Error>, rest: seq<Event>, response: Response)

  /** What one event does to a pull: end it with a result, or let it go on
      with the (possibly merged) response. */
  datatype Step = Ended(result: Result<Option<Response>, Error>, response: Response) | GoesOn(response: Response)

  /** A retry notice is skipped, a transport error and a payload that cannot
      be applied end the pull with `NetworkError`, and a payload that changes
      the response ends it with that response. */
  function StepOn(event: Event, response: Response): Step
  {
    match event
    case RetryEvent => GoesOn(response)
    case DecodeError => Ended(Failure(NetworkError), response)
    case MessageEvent(data) =>
      match Apply(response, data)
      case Failure(_) => Ended(Failure(NetworkError), response)
      case Success(applied) =>
        if applied.0 then Ended(Success(Some(applied.1)), applied.1) else GoesOn(applied.1)
  }

  /** `ChatCompletionParts::next` as a function of the unread events and the
      accumulated response. */
  function Pull(events: seq<Event>, response: Response): Pulled
    decreases |events|
  {
    if events == [] then Pulled(Success(None), events, response)
    else
      match StepOn(events[0], response)
      case Ended(result, next) => Pulled(result, events[1..], next)
      case GoesOn(next) => Pull(events[1..], next)
  }

  /** A step hands out the response it keeps, fails only with a network
      error, and only grows the response. */
  lemma StepGrows(event: Event, response: Response)
    ensures var step := StepOn(event, response);
      && (step.Ended? && step.result.Success? && step.result.value.Some? ==> step.result.value.value == step.response)
      && (step.Ended? && step.result.Failure? ==> step.result.error == NetworkError)
      && Grown(response, step.response)
      && |response.choices| <= |step.response.choices|
  {
    if event.MessageEvent? && Apply(response, event.data).Success? {
      ApplyGrows(response, event.data);
    }
  }

  /** A pull consumes at least one event when there is any. */
  lemma {:induction false} PullShortens(events: seq<Event>, response: Response)
    ensures |Pull(events, response).rest| <= |events|
    ensures events != [] ==> |Pull(events, response).rest| < |events|
    decreases |events|
  {
    if events != [] {
      match StepOn(events[0], response)
      case Ended(_, _) =>
      case GoesOn(next) =>
        PullShortens(events[1..], next);
    }
  }

  /** A pull consumes events from the front: what it leaves is a suffix. */
  lemma {:induction false} PullConsumes(events: seq<Event>, response: Response)
    ensures var p := Pull(events, response);
      |p.rest| <= |events| && p.rest == events[|events| - |p.rest|..]
    decreases |events|
  {
    PullShortens(events, response);
    if events != [] {
      var tail := events[1..];
      match StepOn(events[0], response)
      case Ended(_, _) =>
      case GoesOn(next) =>
        PullConsumes(tail, next);
        SuffixOfTail(events, Pull(tail, next).rest);
    }
  }

  lemma SuffixOfTail<T>(s: seq<T>, rest: seq<T>)
    requires s != [] && |rest| <= |s| - 1 && rest == s[1..][|s| - 1 - |rest|..]
    ensures rest == s[|s| - |rest|..]
  {
  }

  /** A pull hands out the response it keeps, fails only with a network
      error, and only ever grows the response. */
  lemma {:induction false} PullGrows(events: seq<Event>, response: Response)
    ensures var p := Pull(events, response);
      && (p.result.Success? && p.result.value.Some? ==> p.result.value.value == p.response)
      && (p.result.Failure? ==> p.result.error == NetworkError)
      && Grown(response, p.response)
      && |response.choices| <= |p.response.choices|
    decreases |events|
  {
    if events != [] {
      StepGrows(events[0], response);
      match StepOn(events[0], response)
      case Ended(_, _) =>
      case GoesOn(next) =>
        PullGrows(events[1..], next);
        GrownTransitive(response, next, Pull(events[1..], next).response);
    }
  }

  /** Once a pull has reported the end of the stream, every later pull
      reports it again. */
  lemma {:induction false} PullEndIsFinal(events: seq<Event>, response: Response)
    requires Pull(events, response).result == Success(None)
    ensures Pull(events, response).rest == []
    ensures forall r :: Pull(Pull(events, response).rest, r).result == Success(None)
    decreases |events|
  {
    if events != [] {
      match StepOn(events[0], response)
      case Ended(_, _) =>
      case GoesOn(next) =>
        PullEndIsFinal(events[1..], next);
    }
  }

  function ContentDelta(text: string, content: string): Event
  {
    MessageEvent(Utf8(text, Some(ResponseUpdate([ChoiceUpdate(MessageUpdate(None, Some(content), None, None), None)]))))
  }

  /** A single assistant message carrying `content` and nothing else. */
  function Says(content: string): Response
  {
    Response([Choice(Message(Assistant, Some(content), None, None), None)])
  }

  /** A content-only delta appends its text to the content pulled so far. */
  lemma PullContentDelta(text: string, content: string, sofar: string, rest: seq<Event>)
    requires text != [] && text[0] == '{'
    ensures Pull([ContentDelta(text, content)] + rest, Says(sofar)) == Pulled(Success(Some(Says(sofar + content))), rest, Says(sofar + content))
  {
    NotBlank(text);
    var r := Says(sofar);
    var update := ChoiceUpdate(MessageUpdate(None, Some(content), None, None), None);
    assert MergeChoice(r.choices[0], update) == Says(sofar + content).choices[0];
    assert [Says(sofar + content).choices[0]] + r.choices[1..] == Says(sofar + content).choices;
    assert ([ContentDelta(text, content)] + rest)[1..] == rest;
  }

  /** A first delta carrying only the assistant role opens an empty message. */
  lemma PullRoleDelta(text: string, rest: seq<Event>)
    requires text != [] && text[0] == '{'
    ensures var roleDelta := MessageEvent(Utf8(text, Some(ResponseUpdate([ChoiceUpdate(MessageUpdate(Some(Assistant), None, None, None), None)]))));
      Pull([roleDelta] + rest, Response([])) == Pulled(Success(Some(Says(""))), rest, Says(""))
  {
    NotBlank(text);
    var roleDelta := MessageEvent(Utf8(text, Some(ResponseUpdate([ChoiceUpdate(MessageUpdate(Some(Assistant), None, None, None), None)]))));
    assert Apply(Response([]), roleDelta.data) == Success((true, Says("")));
    assert ([roleDelta] + rest)[1..] == rest;
  }

  /** The end marker ends the stream. */
  lemma PullDone(response: Response)
    ensures Pull([MessageEvent(Utf8("[DONE]", None))], response).result == Success(None)
  {
    assert Apply(response, Utf8("[DONE]", None)) == Success((false, response));
  }

  /** A role delta, two content deltas `first` and `second` and the end
      marker: the pulls see an empty assistant message, then `first`, then
      `first + second`, then the end of the stream. */
  lemma TwoDeltaStream(texts: seq<string>, first: string, second: string, events: seq<Event>)
    requires |texts| == 3 && forall k :: 0 <= k < 3 ==> texts[k] != [] && texts[k][0] == '{'
    requires events == [MessageEvent(Utf8(texts[0], Some(ResponseUpdate([ChoiceUpdate(MessageUpdate(Some(Assistant), None, None, None), None)])))),
                        ContentDelta(texts[1], first), ContentDelta(texts[2], second), MessageEvent(Utf8("[DONE]", None))]
    ensures var p1 := Pull(events, Response([]));
      var p2 := Pull(p1.rest, p1.response);
      var p3 := Pull(p2.rest, p2.response);
      var p4 := Pull(p3.rest, p3.response);
      && p1.result == Success(Some(Says("")))
      && p2.result == Success(Some(Says(first)))
      && p3.result == Success(Some(Says(first + second)))
      && p4.result == Success(None)
  {
    var e1, e2, e3 := events[1], events[2], events[3];
    assert texts[0][0] == '{' && texts[1][0] == '{' && texts[2][0] == '{';
    assert events == [events[0]] + [e1, e2, e3];
    PullRoleDelta(texts[0], [e1, e2, e3]);
    var p1 := Pull(events, Response([]));
    assert p1 == Pulled(Success(Some(Says(""))), [e1, e2, e3], Says(""));
    assert [e1, e2, e3] == [e1] + [e2, e3];
    PullContentDelta(texts[1], first, "", [e2, e3]);
    assert "" + first == first;
    var p2 := Pull(p1.rest, p1.response);
    assert p2 == Pulled(Success(Some(Says(first))), [e2, e3], Says(first));
    assert [e2, e3] == [e2] + [e3];
    PullContentDelta(texts[2], second, first, [e3]);
    var p3 := Pull(p2.rest, p2.response);
    assert p3 == Pulled(Success(Some(Says(first + second))), [e3], Says(first + second));
    PullDone(Says(first + second));
  }

  /** Text that starts with a brace (as every JSON object does) is neither
      blank nor the end marker. */
  lemma NotBlank(s: string)
    requires s != [] && s[0] == '{'
    ensures Trim(s) != [] && s != "[DONE]"
  {
    assert "[DONE]"[0] == '[';
  }

  /** The streaming state `ChatCompletionParts`: the unread events and the
      response accumulated so far. */
  class ChatCompletionParts {
    var events: seq<Event>
    var response: Response

    constructor (events: seq<Event>)
      ensures this.events == events && response == Response([])
    {
      this.events := events;
      response := Response([]);
    }

    /** Read events until one changes the response (return it), the events
        run out (`None`), or an event is bad (`NetworkError`). */
    method Next() returns (r: Result<Option<Response>, Error>)
      modifies this
      ensures Pull(old(events), old(response)) == Pulled(r, events, response)
    {
      while true
        invariant Pull(events, response) == Pull(old(events), old(response))
        decreases |events|
      {
        if events == [] {
          return Success(None);
        }
        var event := events[0];
        events := events[1..];
        match event
        case RetryEvent =>
        case DecodeError =>
          return Failure(NetworkError);
        case MessageEvent(data) =>
          var result, next := UpdateResponse(response, data);
          response := next;
          match result
          case Failure(_) =>
            return Failure(NetworkError);
          case Success(changed) =>
            if changed {
              return Success(Some(response));
            }
      }
    }
  }

  /** `ChatCompletionParts::new`: open the stream and start from an empty
      response. */
  method NewParts(transport: Transport, args: Args, maxRetries: nat)
    returns (r: Result<ChatCompletionParts, Error>, sleeps: seq<nat>)
    modifies transport
    ensures var a := Retrying(transport.replies, |old(transport.sent)|, 0, maxRetries);
      && transport.sent == old(transport.sent) + seq(a.count, _ => RequestFor(args, true))
      && sleeps == Backoff(a.count - 1)
      && (a.result.Failure? ==> r == Failure(a.result.error))
      && (a.result.Success? ==>
            r.Success? && fresh(r.value)
            && r.value.events == a.result.value.events && r.value.response == Response([]))
  {
    var events;
    events, sleeps := NewStream(transport, args, maxRetries);
    match events
    case Failure(e) =>
      r := Failure(e);
    case Success(es) =>
      var parts := new ChatCompletionParts(es);
      r := Success(parts);
  }
}
