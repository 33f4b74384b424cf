/** One call of `generateCommitMessage` (src/engine/openAi.ts lines 80-124):
    build the request, count its tokens, reject it or dispatch it once, then
    return the first choice's content or report the failure and re-throw it.
    The completion endpoint is the parameter `transport`; every request handed
    to it is recorded in the run's `calls`. */
module Pipeline {
  import opened Wrappers
  import opened Config
  import opened Tokens

  /** The request body. The sampling values are carried as exact constants. */
  datatype Params = Params(model: string, messages: seq<Message>, temperature: real, topP: real, maxTokens: int)

  const Temperature: real := 0.0
  const TopP: real := 0.1

  function BuildParams(s: Settings, msgs: seq<Message>): Params {
    Params(s.model, msgs, Temperature, TopP, s.maxTokensOutput)
  }

  /** What the endpoint answers. A choice's `message`, and that message's
      `content`, may each be absent. */
  datatype ResponseMessage = ResponseMessage(role: Role, content: Option<string>)
  datatype Choice = Choice(message: Option<ResponseMessage>)

  /** The `data` of an HTTP error response when it is not null or undefined:
      the provider's `error.message`, absent when either `error` or its
      `message` is. An empty HTTP body arrives as the string `""`, whose
      `error` is undefined, so it is `ErrorBody(None)` here. */
  datatype ErrorBody = ErrorBody(errorMessage: Option<string>)

  /** The HTTP response attached to a failed request: its status and its
      `data`, `None` when that is null or undefined. */
  datatype HttpResponse = HttpResponse(status: int, data: Option<ErrorBody>)

  /** An HTTP client error (with a response when one arrived) or any other
      failure of the call. */
  datatype TransportError =
    | HttpError(message: string, response: Option<HttpResponse>)
    | OtherError(message: string)

  datatype TransportOutcome = Completion(choices: seq<Choice>) | Rejected(error: TransportError)

  /** What can be thrown out of the call: the pre-flight rejection, the
      type error of reading `message` from a missing first choice, the
      transport's own error, or the type error the catch block itself raises
      when it reads `error` from a 401 response whose `data` is null or
      undefined. */
  datatype Failure =
    | TooMuchTokens
    | NoFirstChoice
    | TransportFailure(error: TransportError)
    | ErrorDataMissing

  /** Lines on the diagnostic channel, abstracted from their console layout. */
  datatype Diagnostic =
    | ParamsDump(params: Params)
    | ErrorLine(error: Failure)
    | ProviderMessage(text: string)
    | SetupPointer

  datatype Outcome = Returned(content: Option<string>) | Thrown(error: Failure)

  datatype Run = Run(outcome: Outcome, diagnostics: seq<Diagnostic>, calls: seq<Params>)

  /** `message?.content` of a choice. */
  function ContentOf(c: Choice): Option<string> {
    if c.message.Some? then c.message.value.content else None
  }

  /** The failure is an HTTP error whose response has status 401. */
  predicate Unauthorized(e: Failure) {
    && e.TransportFailure?
    && e.error.HttpError?
    && e.error.response.Some?
    && e.error.response.value.status == 401
  }

  /** The catch block: the lines it prints and the error that leaves it.
      Every failure prints the request and the error; a 401 whose `data` is present then
      prints the provider message (when non-empty) and the setup pointer and
      re-throws the caught error, while a 401 whose `data` is null or undefined fails on reading
      it and throws that type error instead. */
  function Report(p: Params, e: Failure): (seq<Diagnostic>, Failure) {
    var head := [ParamsDump(p), ErrorLine(e)];
    if !Unauthorized(e) then (head, e)
    else
      match e.error.response.value.data
      case None => (head, ErrorDataMissing)
      case Some(body) =>
        var note := if TruthyString(body.errorMessage) then [ProviderMessage(body.errorMessage.value)] else [];
        (head + note + [SetupPointer], e)
  }

  /** The try block: the value it returns or the error it throws, and the
      requests it dispatched. */
  function Attempt(s: Settings, tokenCount: string -> nat, transport: Params -> TransportOutcome,
                   msgs: seq<Message>): (Result<Option<string>, Failure>, seq<Params>)
  {
    var p := BuildParams(s, msgs);
    if OverBudget(RequestTokens(tokenCount, msgs), s.maxTokensInput, s.maxTokensOutput) then
      (Err(TooMuchTokens), [])
    else
      match transport(p)
      case Rejected(e) => (Err(TransportFailure(e)), [p])
      case Completion(choices) =>
        if |choices| == 0 then (Err(NoFirstChoice), [p]) else (Ok(ContentOf(choices[0])), [p])
  }

  function Generate(s: Settings, tokenCount: string -> nat, transport: Params -> TransportOutcome,
                    msgs: seq<Message>): (r: Run)
    // at most one request, and none exactly when the pre-flight check rejects
    ensures r.calls == [] <==> RequestTokens(tokenCount, msgs) > s.maxTokensInput - s.maxTokensOutput
    ensures r.calls == [] ==> r.outcome == Thrown(TooMuchTokens)
    // the request carries the prompt unchanged and the configured limits
    ensures r.calls != [] ==> r.calls == [Params(s.model, msgs, 0.0, 0.1, s.maxTokensOutput)]
    // a non-empty completion within budget returns its first choice's content, printing nothing
    ensures var p := BuildParams(s, msgs);
      !OverBudget(RequestTokens(tokenCount, msgs), s.maxTokensInput, s.maxTokensOutput) &&
      transport(p).Completion? && |transport(p).choices| > 0 ==>
        r == Run(Returned(ContentOf(transport(p).choices[0])), [], [p])
    // an empty completion within budget fails on the missing first choice
    ensures var p := BuildParams(s, msgs);
      !OverBudget(RequestTokens(tokenCount, msgs), s.maxTokensInput, s.maxTokensOutput) &&
      transport(p) == Completion([]) ==>
        r == Run(Thrown(NoFirstChoice), [ParamsDump(p), ErrorLine(NoFirstChoice)], [p])
    // a transport error other than a 401 is printed and re-thrown unchanged
    ensures var p := BuildParams(s, msgs);
      !OverBudget(RequestTokens(tokenCount, msgs), s.maxTokensInput, s.maxTokensOutput) &&
      transport(p).Rejected? && !Unauthorized(TransportFailure(transport(p).error)) ==>
        r == Run(Thrown(TransportFailure(transport(p).error)),
                 [ParamsDump(p), ErrorLine(TransportFailure(transport(p).error))], [p])
    // a 401 whose `data` is present prints the provider message (when non-empty)
    // and the setup pointer, and re-throws; one whose `data` is nullish throws
    // the type error of reading it after the first two lines
    ensures var p := BuildParams(s, msgs);
      !OverBudget(RequestTokens(tokenCount, msgs), s.maxTokensInput, s.maxTokensOutput) && transport(p).Rejected? ==>
        var e := TransportFailure(transport(p).error);
        Unauthorized(e) && e.error.response.value.data.Some? ==>
          var m := e.error.response.value.data.value.errorMessage;
          r == Run(Thrown(e),
                   [ParamsDump(p), ErrorLine(e)] + (if TruthyString(m) then [ProviderMessage(m.value)] else []) + [SetupPointer],
                   [p])
    ensures var p := BuildParams(s, msgs);
      !OverBudget(RequestTokens(tokenCount, msgs), s.maxTokensInput, s.maxTokensOutput) && transport(p).Rejected? ==>
        var e := TransportFailure(transport(p).error);
        Unauthorized(e) && e.error.response.value.data.None? ==>
          r == Run(Thrown(ErrorDataMissing), [ParamsDump(p), ErrorLine(e)], [p])
    // a returned value is the first choice's content, with nothing printed
    ensures r.outcome.Returned? ==>
      && r.diagnostics == []
      && |r.calls| == 1
      && transport(r.calls[0]).Completion?
      && |transport(r.calls[0]).choices| > 0
      && r.outcome.content == ContentOf(transport(r.calls[0]).choices[0])
    // a thrown transport error is the transport's own
    ensures r.outcome.Thrown? && r.outcome.error.TransportFailure? ==>
      |r.calls| == 1 && transport(r.calls[0]) == Rejected(r.outcome.error.error)
    // every failure prints the request, then the caught error
    ensures r.outcome.Thrown? ==>
      |r.diagnostics| >= 2 && r.diagnostics[0] == ParamsDump(BuildParams(s, msgs)) && r.diagnostics[1].ErrorLine?
    // the caught error is the one thrown, except for a 401 with nullish `data`
    ensures r.outcome.Thrown? && r.outcome.error != ErrorDataMissing ==> r.diagnostics[1] == ErrorLine(r.outcome.error)
    ensures r.outcome == Thrown(ErrorDataMissing) ==>
      && |r.calls| == 1
      && Unauthorized(TransportFailure(transport(r.calls[0]).error))
      && transport(r.calls[0]).error.response.value.data == None
      && r.diagnostics == [ParamsDump(r.calls[0]), ErrorLine(TransportFailure(transport(r.calls[0]).error))]
    // the setup pointer appears exactly for re-thrown 401 failures; other failures print nothing more
    ensures SetupPointer in r.diagnostics <==> r.outcome.Thrown? && Unauthorized(r.outcome.error)
    ensures r.outcome.Thrown? && !Unauthorized(r.outcome.error) ==> |r.diagnostics| == 2
  {
    var p := BuildParams(s, msgs);
    var (result, calls) := Attempt(s, tokenCount, transport, msgs);
    match result
    case Ok(content) => Run(Returned(content), [], calls)
    case Err(e) =>
      var (lines, thrown) := Report(p, e);
      Run(Thrown(thrown), lines, calls)
  }

  /** The transport is not consulted on a rejected prompt: the run is the
      same for every transport. */
  lemma RejectionIgnoresTransport(s: Settings, tokenCount: string -> nat, t1: Params -> TransportOutcome,
                                  t2: Params -> TransportOutcome, msgs: seq<Message>)
    requires OverBudget(RequestTokens(tokenCount, msgs), s.maxTokensInput, s.maxTokensOutput)
    ensures Generate(s, tokenCount, t1, msgs) == Generate(s, tokenCount, t2, msgs)
    ensures Generate(s, tokenCount, t1, msgs).diagnostics ==
              [ParamsDump(BuildParams(s, msgs)), ErrorLine(TooMuchTokens)]
  {
  }

  /** Two transports that answer the dispatched request alike give the same
      run: the transport is asked about that one request only. */
  lemma OnlyTheRequestMatters(s: Settings, tokenCount: string -> nat, t1: Params -> TransportOutcome,
                              t2: Params -> TransportOutcome, msgs: seq<Message>)
    requires t1(BuildParams(s, msgs)) == t2(BuildParams(s, msgs))
    ensures Generate(s, tokenCount, t1, msgs) == Generate(s, tokenCount, t2, msgs)
  {
  }

  /** A prompt that costs exactly the available room is dispatched. */
  lemma ExactFitIsDispatched(s: Settings, tokenCount: string -> nat, transport: Params -> TransportOutcome,
                             msgs: seq<Message>)
    requires RequestTokens(tokenCount, msgs) == s.maxTokensInput - s.maxTokensOutput
    ensures Generate(s, tokenCount, transport, msgs).calls == [BuildParams(s, msgs)]
  {
  }

  /** With equal input and output limits only the empty prompt is sent, since
      every message costs at least its overhead; with less input than output
      room nothing is sent at all. */
  lemma NoRoomForMessages(s: Settings, tokenCount: string -> nat, transport: Params -> TransportOutcome,
                          msgs: seq<Message>)
    requires s.maxTokensInput <= s.maxTokensOutput
    ensures Generate(s, tokenCount, transport, msgs).calls != [] <==>
              s.maxTokensInput == s.maxTokensOutput && msgs == []
  {
  }

  /** A failed call is never turned into a returned value: the transport's
      error is printed after the request and re-thrown as it is, unless it is
      a 401 whose `data` is null or undefined, whose reading throws a type
      error instead. */
  lemma TransportErrorIsRethrown(s: Settings, tokenCount: string -> nat, transport: Params -> TransportOutcome,
                                 msgs: seq<Message>, e: TransportError)
    requires !OverBudget(RequestTokens(tokenCount, msgs), s.maxTokensInput, s.maxTokensOutput)
    requires transport(BuildParams(s, msgs)) == Rejected(e)
    ensures Generate(s, tokenCount, transport, msgs).outcome.Thrown?
    ensures Generate(s, tokenCount, transport, msgs).diagnostics[..2] ==
              [ParamsDump(BuildParams(s, msgs)), ErrorLine(TransportFailure(e))]
    ensures (Unauthorized(TransportFailure(e)) && e.response.value.data == None) <==>
              Generate(s, tokenCount, transport, msgs).outcome == Thrown(ErrorDataMissing)
    ensures Generate(s, tokenCount, transport, msgs).outcome != Thrown(ErrorDataMissing) ==>
              Generate(s, tokenCount, transport, msgs).outcome == Thrown(TransportFailure(e))
  {
  }

  /** The full trace of a 401 whose `data` is present: request, error, the
      provider's message when it has one, then the setup pointer; the caught
      error is re-thrown. */
  lemma UnauthorizedTrace(s: Settings, tokenCount: string -> nat, transport: Params -> TransportOutcome,
                          msgs: seq<Message>, message: string, providerMessage: Option<string>)
    requires !OverBudget(RequestTokens(tokenCount, msgs), s.maxTokensInput, s.maxTokensOutput)
    requires transport(BuildParams(s, msgs)) ==
               Rejected(HttpError(message, Some(HttpResponse(401, Some(ErrorBody(providerMessage))))))
    ensures var e := TransportFailure(HttpError(message, Some(HttpResponse(401, Some(ErrorBody(providerMessage))))));
      && Generate(s, tokenCount, transport, msgs).outcome == Thrown(e)
      && Generate(s, tokenCount, transport, msgs).diagnostics ==
           [ParamsDump(BuildParams(s, msgs)), ErrorLine(e)] +
           (if providerMessage.Some? && providerMessage.value != "" then [ProviderMessage(providerMessage.value)] else []) +
           [SetupPointer]
  {
  }

  /** A 401 whose `data` is null or undefined: the request and the error are
      printed, then reading `data.error` throws a type error that replaces the
      caught error, and no setup pointer is printed. */
  lemma UnauthorizedWithoutData(s: Settings, tokenCount: string -> nat, transport: Params -> TransportOutcome,
                                msgs: seq<Message>, message: string)
    requires !OverBudget(RequestTokens(tokenCount, msgs), s.maxTokensInput, s.maxTokensOutput)
    requires transport(BuildParams(s, msgs)) == Rejected(HttpError(message, Some(HttpResponse(401, None))))
    ensures var e := TransportFailure(HttpError(message, Some(HttpResponse(401, None))));
      Generate(s, tokenCount, transport, msgs) ==
        Run(Thrown(ErrorDataMissing), [ParamsDump(BuildParams(s, msgs)), ErrorLine(e)], [BuildParams(s, msgs)])
  {
  }

  /** An absent `message` in the first choice is a returned `undefined`, not
      an error; an empty `choices` array is an error. */
  lemma AbsentMessageVersusNoChoice(s: Settings, tokenCount: string -> nat, transport: Params -> TransportOutcome,
                                    msgs: seq<Message>)
    requires !OverBudget(RequestTokens(tokenCount, msgs), s.maxTokensInput, s.maxTokensOutput)
    requires transport(BuildParams(s, msgs)).Completion?
    ensures transport(BuildParams(s, msgs)).choices == [] ==>
              Generate(s, tokenCount, transport, msgs).outcome == Thrown(NoFirstChoice)
    ensures |transport(BuildParams(s, msgs)).choices| > 0 && transport(BuildParams(s, msgs)).choices[0].message == None ==>
              Generate(s, tokenCount, transport, msgs) == Run(Returned(None), [], [BuildParams(s, msgs)])
  {
  }

  /** A 401 answer whose body says `invalid_api_key` puts that text on the
      diagnostic channel. */
  lemma InvalidKeyExample(s: Settings, msgs: seq<Message>)
    requires s.maxTokensInput - s.maxTokensOutput >= RequestTokens(_ => 0, msgs)
    ensures var t := (p: Params) => Rejected(HttpError("Request failed with status code 401",
                                                        Some(HttpResponse(401, Some(ErrorBody(Some("invalid_api_key")))))));
      ProviderMessage("invalid_api_key") in Generate(s, _ => 0, t, msgs).diagnostics
  {
  }

  /** A well-formed answer yields its first choice's text exactly. */
  lemma SuccessExample(s: Settings, msgs: seq<Message>)
    requires s.maxTokensInput - s.maxTokensOutput >= RequestTokens(_ => 0, msgs)
    ensures var t := (p: Params) => Completion([Choice(Some(ResponseMessage(Assistant, Some("fix: correct null check"))))]);
      Generate(s, _ => 0, t, msgs).outcome == Returned(Some("fix: correct null check"))
  {
  }
}
