/** The per-call pipeline of src/engine/openAi.ts lines 80-124 as a state
    machine taking one small step at a time: counting the tokens message by
    message, checking the budget, dispatching, reading the answer, and in the
    catch block printing one line per step before re-throwing. It builds its
    own request, reads the content and decides each diagnostic line itself;
    it shares with `Pipeline` only the data types and the per-message cost.
    It is proved to end in exactly the run `Pipeline.Generate` describes. */
module Machine {
  import opened Wrappers
  import opened Config
  import opened Tokens
  import opened Pipeline

  /** The inputs of one call. */
  datatype Env = Env(settings: Settings, tokenCount: string -> nat, transport: Params -> TransportOutcome,
                     messages: seq<Message>)

  datatype State =
    | Idle
    | Counting(next: nat, tokens: nat)   // the messages before `next` are counted
    | TokenCounted(tokens: nat)
    | Dispatched(answer: TransportOutcome)
    | Caught(error: Failure)             // inside the catch block, nothing printed yet
    | Reporting(error: Failure)          // the request is printed
    | Inspecting(error: Failure)         // the request and the error are printed
    | Pointing(error: Failure)           // a 401's `data` was read; the setup pointer is next
    | Completed(content: Option<string>)
    | Rethrown(error: Failure)

  datatype Snapshot = Snapshot(state: State, diagnostics: seq<Diagnostic>, calls: seq<Params>)

  const Start: Snapshot := Snapshot(Idle, [], [])

  predicate Terminal(st: State) {
    st.Completed? || st.Rethrown?
  }

  /** The request body: the model, the messages as given, the sampling
      constants and the output limit. */
  function Request(env: Env): Params {
    Params(env.settings.model, env.messages, 0.0, 0.1, env.settings.maxTokensOutput)
  }

  function Step(env: Env, snap: Snapshot): Snapshot {
    match snap.state
    case Idle => snap.(state := Counting(0, 0))
    case Counting(i, n) =>
      if i < |env.messages| then snap.(state := Counting(i + 1, n + MessageTokens(env.tokenCount, env.messages[i])))
      else snap.(state := TokenCounted(n))
    case TokenCounted(n) =>
      if n > env.settings.maxTokensInput - env.settings.maxTokensOutput then snap.(state := Caught(TooMuchTokens))
      else Snapshot(Dispatched(env.transport(Request(env))), snap.diagnostics, snap.calls + [Request(env)])
    case Dispatched(answer) =>
      (match answer
       case Rejected(e) => snap.(state := Caught(TransportFailure(e)))
       case Completion(choices) =>
         if |choices| == 0 then snap.(state := Caught(NoFirstChoice))
         else
           match choices[0].message
           case None => snap.(state := Completed(None))
           case Some(m) => snap.(state := Completed(m.content)))
    case Caught(e) => Snapshot(Reporting(e), snap.diagnostics + [ParamsDump(Request(env))], snap.calls)
    case Reporting(e) => Snapshot(Inspecting(e), snap.diagnostics + [ErrorLine(e)], snap.calls)
    case Inspecting(e) =>
      if e.TransportFailure? && e.error.HttpError? && e.error.response.Some? && e.error.response.value.status == 401 then
        match e.error.response.value.data
        case None => snap.(state := Rethrown(ErrorDataMissing))
        case Some(body) =>
          if body.errorMessage.Some? && body.errorMessage.value != "" then
            Snapshot(Pointing(e), snap.diagnostics + [ProviderMessage(body.errorMessage.value)], snap.calls)
          else snap.(state := Pointing(e))
      else snap.(state := Rethrown(e))
    case Pointing(e) => Snapshot(Rethrown(e), snap.diagnostics + [SetupPointer], snap.calls)
    case Completed(_) => snap
    case Rethrown(_) => snap
  }

  /** Runs at most `fuel` steps, stopping at a terminal state. */
  function Execute(env: Env, snap: Snapshot, fuel: nat): Snapshot
    decreases fuel
  {
    if fuel == 0 || Terminal(snap.state) then snap else Execute(env, Step(env, snap), fuel - 1)
  }

  /** The longest run: one step to start counting, one per message, one to
      finish counting, one to check the budget, one to read the answer, and
      four in the catch block. */
  function StepBound(env: Env): nat {
    |env.messages| + 8
  }

  function Final(r: Run): Snapshot {
    Snapshot(if r.outcome.Returned? then Completed(r.outcome.content) else Rethrown(r.outcome.error),
             r.diagnostics, r.calls)
  }

  /** The counting phase ends with the source's request-token total. */
  lemma {:induction false} CountingPhase(env: Env, i: nat, fuel: nat)
    requires i <= |env.messages|
    ensures Execute(env, Snapshot(Counting(i, RequestTokens(env.tokenCount, env.messages[..i])), [], []),
                    fuel + (|env.messages| - i) + 1)
         == Execute(env, Snapshot(TokenCounted(RequestTokens(env.tokenCount, env.messages)), [], []), fuel)
    decreases |env.messages| - i
  {
    var msgs := env.messages;
    if i < |msgs| {
      assert msgs[..i + 1][..i] == msgs[..i];
      CountingPhase(env, i + 1, fuel);
    } else {
      assert msgs[..i] == msgs;
    }
  }

  /** The catch block, run line by line, prints what `Report` prints and
      leaves with the error it names. */
  lemma {:induction false} CatchPhase(env: Env, e: Failure, calls: seq<Params>, fuel: nat)
    requires fuel >= 4
    ensures Execute(env, Snapshot(Caught(e), [], calls), fuel) ==
              Snapshot(Rethrown(Report(Request(env), e).1), Report(Request(env), e).0, calls)
  {
    var p := Request(env);
    var s0 := Snapshot(Caught(e), [], calls);
    var s1 := Snapshot(Reporting(e), [ParamsDump(p)], calls);
    var s2 := Snapshot(Inspecting(e), [ParamsDump(p), ErrorLine(e)], calls);
    assert Step(env, s0) == s1;
    assert [ParamsDump(p)] + [ErrorLine(e)] == s2.diagnostics;
    assert Step(env, s1) == s2;
    assert Execute(env, s0, fuel) == Execute(env, s2, fuel - 2);
    var (lines, thrown) := Report(p, e);
    if Unauthorized(e) && e.error.response.value.data.Some? {
      var body := e.error.response.value.data.value;
      var note := if TruthyString(body.errorMessage) then [ProviderMessage(body.errorMessage.value)] else [];
      var s3 := Snapshot(Pointing(e), s2.diagnostics + note, calls);
      var s4 := Snapshot(Rethrown(e), lines, calls);
      assert Step(env, s2) == s3;
      assert Step(env, s3) == s4;
      assert Execute(env, s2, fuel - 2) == Execute(env, s3, fuel - 3);
      assert Execute(env, s3, fuel - 3) == Execute(env, s4, fuel - 4);
    } else {
      var s3 := Snapshot(Rethrown(thrown), lines, calls);
      assert Step(env, s2) == s3;
      assert Execute(env, s2, fuel - 2) == Execute(env, s3, fuel - 3);
    }
  }

  /** From the counted total, the rest of the call ends as `Generate` says. */
  lemma AfterCounting(env: Env)
    ensures Execute(env, Snapshot(TokenCounted(RequestTokens(env.tokenCount, env.messages)), [], []), 6) ==
              Final(Generate(env.settings, env.tokenCount, env.transport, env.messages))
  {
    var p := Request(env);
    assert p == BuildParams(env.settings, env.messages);
    var n := RequestTokens(env.tokenCount, env.messages);
    var start := Snapshot(TokenCounted(n), [], []);
    var attempt := Attempt(env.settings, env.tokenCount, env.transport, env.messages);
    if n > env.settings.maxTokensInput - env.settings.maxTokensOutput {
      var caught := Snapshot(Caught(TooMuchTokens), [], []);
      assert Step(env, start) == caught;
      assert Execute(env, start, 6) == Execute(env, caught, 5);
      assert attempt == (Err(TooMuchTokens), []);
      CatchPhase(env, TooMuchTokens, [], 5);
    } else {
      var answer := env.transport(p);
      var sent := Snapshot(Dispatched(answer), [], [p]);
      assert Step(env, start) == sent;
      assert Execute(env, start, 6) == Execute(env, sent, 5);
      match answer
      case Rejected(e) =>
        var caught := Snapshot(Caught(TransportFailure(e)), [], [p]);
        assert Step(env, sent) == caught;
        assert Execute(env, sent, 5) == Execute(env, caught, 4);
        assert attempt == (Err(TransportFailure(e)), [p]);
        CatchPhase(env, TransportFailure(e), [p], 4);
      case Completion(choices) =>
        if |choices| == 0 {
          var caught := Snapshot(Caught(NoFirstChoice), [], [p]);
          assert Step(env, sent) == caught;
          assert Execute(env, sent, 5) == Execute(env, caught, 4);
          assert attempt == (Err(NoFirstChoice), [p]);
          CatchPhase(env, NoFirstChoice, [p], 4);
        } else {
          var done := Snapshot(Completed(ContentOf(choices[0])), [], [p]);
          assert Step(env, sent) == done;
          assert Execute(env, sent, 5) == Execute(env, done, 4);
          assert attempt == (Ok(ContentOf(choices[0])), [p]);
        }
    }
  }

  /** Started idle and given enough steps, the machine ends in the run that
      `Generate` describes: same outcome, same diagnostics, same requests. */
  lemma MachineAgreesWithGenerate(env: Env)
    ensures Terminal(Execute(env, Start, StepBound(env)).state)
    ensures Execute(env, Start, StepBound(env)) ==
              Final(Generate(env.settings, env.tokenCount, env.transport, env.messages))
  {
    var msgs := env.messages;
    assert msgs[..0] == [];
    calc {
      Execute(env, Start, StepBound(env));
      Execute(env, Snapshot(Counting(0, 0), [], []), |msgs| + 7);
      { CountingPhase(env, 0, 6); }
      Execute(env, Snapshot(TokenCounted(RequestTokens(env.tokenCount, msgs)), [], []), 6);
      { AfterCounting(env); }
      Final(Generate(env.settings, env.tokenCount, env.transport, env.messages));
    }
  }

  /** Every state reached from the start has made at most one request, and
      none before the budget check. */
  predicate Consistent(snap: Snapshot) {
    && |snap.calls| <= 1
    && (snap.state.Idle? || snap.state.Counting? || snap.state.TokenCounted? ==> snap.calls == [])
  }

  lemma {:induction false} AtMostOneRequest(env: Env, snap: Snapshot, fuel: nat)
    requires Consistent(snap)
    ensures Consistent(Execute(env, snap, fuel))
    decreases fuel
  {
    if fuel != 0 && !Terminal(snap.state) {
      AtMostOneRequest(env, Step(env, snap), fuel - 1);
    }
  }
}
