/**
 * The in-context evaluation driver (incontext_learning.py, lines 38-106):
 * for every test sample it prepends five worked training examples to the
 * system prompt, falls back to shorter prompts when the token budget would
 * overflow, asks the model, and records the answer and the trajectory read
 * back from its last line, or marks the sample invalid.
 */
module Incontext {
  import opened Wrappers
  import opened Strings
  import opened Scene
  import opened Format
  import opened Decode
  import opened Relevance
  import opened UserMessage
  import opened Assistant
  import opened Thoughts
  import opened Pack

  /** `num_incontext_prompts`: worked examples per test sample. */
  const NumIncontextPrompts := 5

  /** The context budget of the completion model, in tokenizer tokens. */
  const TokenBudget := 4096

  /** Why the driver stops the whole run. */
  datatype RunError =
    | NoTrainingTokens                         // `% len(train_tokens)` with no training sample
    | MissingSample(token: string)             // `data[token]` on a token the store lacks
    | SampleFault(token: string, fault: Fault) // the prompt builder raised on this sample

  /**
   * What the driver works with: the sample store, the training split, the
   * `untest_tokens` selection, the fixed system prompt, and the collaborators
   * it cannot see into: the two-decimal formatter, the vector length, the
   * tokenizer's count, the model's completion of a (system, user) pair and
   * the literal evaluator (None when it raises).
   */
  datatype Setup = Setup(
    data: map<string, Sample>,
    train: seq<string>,
    untest: seq<string>,
    systemMessage: string,
    fmt: real -> string,
    norm: Point -> real,
    count: string -> nat,
    complete: (string, string) -> string,
    parse: string -> Option<Literal>)

  /** Every stored sample has the shapes the prompt builder indexes. */
  predicate ValidData(data: map<string, Sample>)
  {
    forall t | t in data :: ValidSample(data[t])
  }

  /**
   * The training sample of example i for the test sample at `tokenIndex`
   * (lines 57-59): `tokenIndex * 5 + i`, wrapped around the training list
   * only when it runs past the end.
   */
  function ExampleIndex(tokenIndex: nat, i: nat, n: nat): (r: nat)
    requires n > 0
    ensures r < n
    ensures tokenIndex * NumIncontextPrompts + i < n ==> r == tokenIndex * NumIncontextPrompts + i
  {
    var id := tokenIndex * NumIncontextPrompts + i;
    if id >= n then id % n else id
  }

  /** Wrapping only past the end is plain wrapping: the index is always `(tokenIndex * 5 + i) % n`. */
  lemma ExampleIndexIsRemainder(tokenIndex: nat, i: nat, n: nat)
    requires n > 0
    ensures ExampleIndex(tokenIndex, i, n) == (tokenIndex * NumIncontextPrompts + i) % n
  {
    var id := tokenIndex * NumIncontextPrompts + i;
    if id < n {
      assert id % n == id;
    }
  }

  /** The five training tokens whose examples the test sample at `tokenIndex` receives, in order. */
  function ExampleTokens(train: seq<string>, tokenIndex: nat): (r: seq<string>)
    requires |train| > 0
    ensures |r| == NumIncontextPrompts
    ensures forall i | 0 <= i < NumIncontextPrompts :: r[i] == train[ExampleIndex(tokenIndex, i, |train|)]
  {
    seq(NumIncontextPrompts, i requires 0 <= i < NumIncontextPrompts => train[ExampleIndex(tokenIndex, i, |train|)])
  }

  /**
   * While the training list is long enough, test sample j receives the
   * five consecutive training samples 5j to 5j + 4.
   */
  lemma ExampleTokensConsecutive(train: seq<string>, tokenIndex: nat)
    requires (tokenIndex + 1) * NumIncontextPrompts <= |train|
    ensures ExampleTokens(train, tokenIndex)
         == train[tokenIndex * NumIncontextPrompts..(tokenIndex + 1) * NumIncontextPrompts]
  {
    var r := ExampleTokens(train, tokenIndex);
    var window := train[tokenIndex * NumIncontextPrompts..(tokenIndex + 1) * NumIncontextPrompts];
    forall i | 0 <= i < NumIncontextPrompts ensures r[i] == window[i] {
      assert tokenIndex * NumIncontextPrompts + i < |train|;
    }
  }

  /** `generate_incontext_message` for one training token, or why it cannot be built. */
  function Example(env: Setup, token: string): (r: Result<string, RunError>)
    requires ValidData(env.data)
    ensures r.Success? <==> token in env.data && IncontextMessageOf(env.data[token], env.fmt, env.norm).Success?
    ensures r.Success? ==> Success(r.value) == IncontextMessageOf(env.data[token], env.fmt, env.norm)
    ensures token !in env.data ==> r == Failure(MissingSample(token))
  {
    if token !in env.data then Failure(MissingSample(token))
    else
      match IncontextMessageOf(env.data[token], env.fmt, env.norm)
      case Failure(f) => Failure(SampleFault(token, f))
      case Success(text) => Success(text)
  }

  /** Texts built one after the other and concatenated; the first failure stops the concatenation. */
  function Collected<E>(rs: seq<Result<string, E>>): Result<string, E>
  {
    if rs == [] then Success("")
    else
      match Collected(rs[..|rs| - 1])
      case Failure(e) => Failure(e)
      case Success(prev) =>
        match rs[|rs| - 1]
        case Failure(e) => Failure(e)
        case Success(text) => Success(prev + text)
  }

  /** The texts of results that all succeeded. */
  function Texts<E>(rs: seq<Result<string, E>>): (r: seq<string>)
    requires forall k | 0 <= k < |rs| :: rs[k].Success?
    ensures |r| == |rs|
    ensures forall k | 0 <= k < |rs| :: r[k] == rs[k].value
  {
    seq(|rs|, k requires 0 <= k < |rs| && rs[k].Success? => rs[k].value)
  }

  /**
   * The concatenation succeeds exactly when every part does, and then it is
   * the parts' texts, each once, in order.
   */
  lemma {:induction false} CollectedParts<E>(rs: seq<Result<string, E>>)
    ensures Collected(rs).Success? <==> forall k | 0 <= k < |rs| :: rs[k].Success?
    ensures Collected(rs).Success? ==> Collected(rs).value == Concat(Texts(rs))
  {
    if rs != [] {
      var init := rs[..|rs| - 1];
      CollectedParts(init);
      assert forall k | 0 <= k < |init| :: init[k] == rs[k];
      if Collected(rs).Success? {
        var texts := Texts(rs);
        assert Texts(init) == texts[..|texts| - 1];
        assert texts == texts[..|texts| - 1] + [texts[|texts| - 1]];
        ConcatSnoc(texts[..|texts| - 1], texts[|texts| - 1]);
      }
    }
  }

  /** The concatenation fails with the first failure among the parts. */
  lemma {:induction false} CollectedFirstFailure<E>(rs: seq<Result<string, E>>, n: nat)
    requires n < |rs| && rs[n].Failure?
    requires forall k | 0 <= k < n :: rs[k].Success?
    ensures Collected(rs) == rs[n]
  {
    var init := rs[..|rs| - 1];
    if n < |init| {
      CollectedFirstFailure(init, n);
    } else {
      CollectedParts(init);
    }
  }

  /** One more part: its failure, or its text appended. */
  lemma CollectedSnoc<E>(rs: seq<Result<string, E>>, i: nat, prev: string)
    requires i < |rs| && Collected(rs[..i]) == Success(prev)
    ensures rs[i].Failure? ==> Collected(rs[..i + 1]) == Failure(rs[i].error)
    ensures rs[i].Success? ==> Collected(rs[..i + 1]) == Success(prev + rs[i].value)
  {
    assert rs[..i + 1][..i] == rs[..i];
  }

  /** Once a prefix fails, the whole concatenation fails with the same error. */
  lemma {:induction false} CollectedFailurePersists<E>(rs: seq<Result<string, E>>, n: nat)
    requires n <= |rs| && Collected(rs[..n]).Failure?
    ensures Collected(rs) == Collected(rs[..n])
  {
    if n < |rs| {
      var init := rs[..|rs| - 1];
      assert init[..n] == rs[..n];
      CollectedFailurePersists(init, n);
    } else {
      assert rs[..n] == rs;
    }
  }

  /** The examples of one test sample, built or failed, in order. */
  function ExampleResults(env: Setup, tokenIndex: nat): (r: seq<Result<string, RunError>>)
    requires ValidData(env.data) && |env.train| > 0
    ensures |r| == NumIncontextPrompts
  {
    var tokens := ExampleTokens(env.train, tokenIndex);
    seq(NumIncontextPrompts, i requires 0 <= i < NumIncontextPrompts => Example(env, tokens[i]))
  }

  /** `incontext_message` after the loop of lines 56-61. */
  function ExamplesOf(env: Setup, tokenIndex: nat): Result<string, RunError>
    requires ValidData(env.data)
  {
    if |env.train| == 0 then Failure(NoTrainingTokens)
    else Collected(ExampleResults(env, tokenIndex))
  }

  /**
   * The examples part of the prompt: built exactly when all five worked
   * examples can be, and then those five, each once, in order.
   */
  lemma ExamplesAreFive(env: Setup, tokenIndex: nat)
    requires ValidData(env.data) && |env.train| > 0
    ensures var rs := ExampleResults(env, tokenIndex);
      && (ExamplesOf(env, tokenIndex).Success? <==> forall i | 0 <= i < NumIncontextPrompts :: rs[i].Success?)
      && (ExamplesOf(env, tokenIndex).Success? ==> ExamplesOf(env, tokenIndex).value == Concat(Texts(rs)))
  {
    CollectedParts(ExampleResults(env, tokenIndex));
  }

  /**
   * Example i is the worked example (`generate_incontext_message`) of the
   * i-th chosen training sample.
   */
  lemma ExampleIsIncontextMessage(env: Setup, tokenIndex: nat, i: nat)
    requires ValidData(env.data) && |env.train| > 0 && i < NumIncontextPrompts
    requires ExampleResults(env, tokenIndex)[i].Success?
    ensures var token := env.train[ExampleIndex(tokenIndex, i, |env.train|)];
      && token in env.data
      && IncontextMessageOf(env.data[token], env.fmt, env.norm) == Success(ExampleResults(env, tokenIndex)[i].value)
  {
    var token := ExampleTokens(env.train, tokenIndex)[i];
    assert ExampleResults(env, tokenIndex)[i] == Example(env, token);
  }

  /** Example i is the example of the training token at the chosen index. */
  lemma ExampleResultAt(env: Setup, tokenIndex: nat, i: nat)
    requires ValidData(env.data) && |env.train| > 0 && i < NumIncontextPrompts
    ensures ExampleIndex(tokenIndex, i, |env.train|) < |env.train|
    ensures ExampleResults(env, tokenIndex)[i] == Example(env, env.train[ExampleIndex(tokenIndex, i, |env.train|)])
  {
  }

  /** Lines 57-59: the training index of example i. */
  method TrainTokenId(tokenIndex: nat, i: nat, n: nat) returns (id: nat)
    requires n > 0
    ensures id == ExampleIndex(tokenIndex, i, n)
  {
    id := tokenIndex * NumIncontextPrompts + i;
    if id >= n {
      id := id % n;
    }
  }

  /** The example loop of lines 55-61. */
  method BuildExamples(env: Setup, tokenIndex: nat) returns (r: Result<string, RunError>)
    requires ValidData(env.data)
    ensures r == ExamplesOf(env, tokenIndex)
  {
    if |env.train| == 0 {
      return Failure(NoTrainingTokens);
    }
    ghost var rs := ExampleResults(env, tokenIndex);
    var incontext := "";
    for i := 0 to NumIncontextPrompts
      invariant Collected(rs[..i]) == Success(incontext)
    {
      var id := TrainTokenId(tokenIndex, i, |env.train|);
      var trainToken := env.train[id];
      var example := Example(env, trainToken);
      ExampleResultAt(env, tokenIndex, i);
      CollectedSnoc(rs, i, incontext);
      if example.Failure? {
        CollectedFailurePersists(rs, i + 1);
        return Failure(example.error);
      }
      incontext := incontext + example.value;
    }
    assert rs[..NumIncontextPrompts] == rs;
    r := Success(incontext);
  }

  /**
   * The prompt fallback of lines 65-71: the system prompt with its examples
   * when it fits beside the user message, else the system prompt alone,
   * else nothing; the user message is never cut.
   */
  function SystemPrompt(systemMessage: string, examples: string, user: string, count: string -> nat): (r: string)
    ensures r == systemMessage + examples || r == systemMessage || r == ""
    ensures r <= systemMessage + examples
    ensures r != "" ==> count(r) + count(user) <= TokenBudget
    ensures count(systemMessage + examples) + count(user) <= TokenBudget ==> r == systemMessage + examples
    ensures count(systemMessage) + count(user) <= TokenBudget ==> systemMessage <= r
  {
    if count(systemMessage + examples) + count(user) <= TokenBudget then systemMessage + examples
    else if count(systemMessage) + count(user) <= TokenBudget then systemMessage
    else ""
  }

  /** A user message over the budget on its own empties the system prompt. */
  lemma OversizedUserDropsSystem(systemMessage: string, examples: string, user: string, count: string -> nat)
    requires count(user) > TokenBudget
    ensures SystemPrompt(systemMessage, examples, user, count) == ""
  {
  }

  /** One entry of the transcript log: the sample token, the model's answer and the ground truth. */
  datatype LogLine = LogLine(token: string, gpt: string, gt: string)

  /**
   * The driver's accumulators: `text_dict`, `traj_dict`, `invalid_tokens`
   * and the lines appended to the temporary transcript log.
   */
  datatype Batch = Batch(
    textDict: map<string, string>,
    trajDict: map<string, Literal>,
    invalidTokens: seq<string>,
    log: seq<LogLine>)

  const EmptyBatch := Batch(map[], map[], [], [])

  /**
   * Lines 93-106: the answer is kept whatever it says; its last line then
   * either reads as an array, which is stored and logged, or the token is
   * marked invalid and nothing else changes.
   */
  function Record(b: Batch, token: string, result: string, gt: string, parse: string -> Option<Literal>): (r: Batch)
    ensures r.textDict == b.textDict[token := result]
    ensures LooseDecode(result, parse).None? ==>
      r.invalidTokens == b.invalidTokens + [token] && r.trajDict == b.trajDict && r.log == b.log
    ensures LooseDecode(result, parse).Some? ==>
      && r.invalidTokens == b.invalidTokens
      && r.trajDict == b.trajDict[token := LooseDecode(result, parse).value]
      && r.log == b.log + [LogLine(token, result, gt)]
  {
    var text := b.textDict[token := result];
    match LooseDecode(result, parse)
    case None => Batch(text, b.trajDict, b.invalidTokens + [token], b.log)
    case Some(traj) => Batch(text, b.trajDict[token := traj], b.invalidTokens, b.log + [LogLine(token, result, gt)])
  }

  /** Whether the driver processes a test token: all of them, or only the listed ones when a list is given. */
  predicate Selected(token: string, untest: seq<string>)
  {
    |untest| == 0 || token in untest
  }

  /**
   * Lines 55-91 for the test token at `tokenIndex`: build the prompts, ask
   * the model, and pair its answer with the ground truth; or the error that
   * stops the run.
   */
  function Exchange(env: Setup, tokenIndex: nat, token: string): Result<(string, string), RunError>
    requires ValidData(env.data)
  {
    match ExamplesOf(env, tokenIndex)
    case Failure(e) => Failure(e)
    case Success(examples) =>
      if token !in env.data then Failure(MissingSample(token))
      else
        match UserMessageOf(env.data[token], PerceptionRange, env.fmt, true)
        case Failure(f) => Failure(SampleFault(token, f))
        case Success(user) =>
          match AssistantMessageOf(env.data[token], env.fmt, env.norm, false)
          case Failure(f) => Failure(SampleFault(token, f))
          case Success(gt) =>
            Success((env.complete(SystemPrompt(env.systemMessage, examples, user, env.count), user), gt))
  }

  /**
   * The ground truth of an exchange is the assistant message of its sample,
   * and the model saw the user message of that sample, whole.
   */
  lemma ExchangeGroundTruth(env: Setup, tokenIndex: nat, token: string)
    requires ValidData(env.data) && Exchange(env, tokenIndex, token).Success?
    ensures token in env.data
    ensures AssistantMessageOf(env.data[token], env.fmt, env.norm, false)
         == Success(Exchange(env, tokenIndex, token).value.1)
    ensures exists system ::
      Exchange(env, tokenIndex, token).value.0
        == env.complete(system, UserMessageOf(env.data[token], PerceptionRange, env.fmt, true).value)
  {
  }

  /** The prompt building and the model call of lines 55-91. */
  method Query(env: Setup, tokenIndex: nat, token: string) returns (r: Result<(string, string), RunError>)
    requires ValidData(env.data)
    ensures r == Exchange(env, tokenIndex, token)
  {
    var incontext := BuildExamples(env, tokenIndex);
    if incontext.Failure? {
      return Failure(incontext.error);
    }
    var systemIncontext := env.systemMessage + incontext.value;
    if token !in env.data {
      return Failure(MissingSample(token));
    }
    var user := GenerateUserMessage(env.data[token], PerceptionRange, env.fmt, true);
    if user.Failure? {
      return Failure(SampleFault(token, user.error));
    }
    var numSystemTokens := env.count(systemIncontext);
    var numUserTokens := env.count(user.value);
    if numSystemTokens + numUserTokens > TokenBudget {
      systemIncontext := env.systemMessage;
      numSystemTokens := env.count(systemIncontext);
      if numSystemTokens + numUserTokens > TokenBudget {
        systemIncontext := "";
      }
    }
    assert systemIncontext == SystemPrompt(env.systemMessage, incontext.value, user.value, env.count);
    var assistant := GenerateAssistantMessage(env.data[token], env.fmt, env.norm, false);
    if assistant.Failure? {
      return Failure(SampleFault(token, assistant.error));
    }
    var result := env.complete(systemIncontext, user.value);
    r := Success((result, assistant.value));
  }

  /** What every test token would exchange with the model, whether or not it is selected. */
  function Exchanges(env: Setup, test: seq<string>): (r: seq<Result<(string, string), RunError>>)
    requires ValidData(env.data)
    ensures |r| == |test|
  {
    seq(|test|, j requires 0 <= j < |test| => Exchange(env, j, test[j]))
  }

  /**
   * The bookkeeping of lines 47-106 over the first n test tokens, given what
   * each token exchanges: unselected tokens are passed over, the first
   * failing exchange stops the run, and every other answer is recorded.
   */
  function Bookkeep(
    exchanges: seq<Result<(string, string), RunError>>, test: seq<string>, untest: seq<string>,
    parse: string -> Option<Literal>, n: nat): Result<Batch, RunError>
    requires n <= |test| == |exchanges|
  {
    if n == 0 then Success(EmptyBatch)
    else
      match Bookkeep(exchanges, test, untest, parse, n - 1)
      case Failure(e) => Failure(e)
      case Success(b) =>
        if !Selected(test[n - 1], untest) then Success(b)
        else
          match exchanges[n - 1]
          case Failure(e) => Failure(e)
          case Success((result, gt)) => Success(Record(b, test[n - 1], result, gt, parse))
  }

  /** The driver's accumulators after all test tokens, or the error that stopped the run. */
  function BatchOf(env: Setup, test: seq<string>): Result<Batch, RunError>
    requires ValidData(env.data)
  {
    Bookkeep(Exchanges(env, test), test, env.untest, env.parse, |test|)
  }

  /** An error stops the run: every later prefix ends with the same error. */
  lemma {:induction false} FailurePersists(
    exchanges: seq<Result<(string, string), RunError>>, test: seq<string>, untest: seq<string>,
    parse: string -> Option<Literal>, n: nat, m: nat)
    requires n <= m <= |test| == |exchanges|
    requires Bookkeep(exchanges, test, untest, parse, n).Failure?
    ensures Bookkeep(exchanges, test, untest, parse, m) == Bookkeep(exchanges, test, untest, parse, n)
    decreases m
  {
    if n < m {
      FailurePersists(exchanges, test, untest, parse, n, m - 1);
    }
  }

  /** Lines 93-106: keep the answer, then store and log its trajectory or mark the token invalid. */
  method RecordAnswer(
    textDict: map<string, string>, trajDict: map<string, Literal>, invalidTokens: seq<string>, log: seq<LogLine>,
    token: string, result: string, gt: string, parse: string -> Option<Literal>)
    returns (textDict': map<string, string>, trajDict': map<string, Literal>, invalidTokens': seq<string>, log': seq<LogLine>)
    ensures Batch(textDict', trajDict', invalidTokens', log')
         == Record(Batch(textDict, trajDict, invalidTokens, log), token, result, gt, parse)
  {
    textDict', trajDict', invalidTokens', log' := textDict, trajDict, invalidTokens, log;
    textDict' := textDict'[token := result];
    var traj := LastSegment(result, '\n');
    var literal := parse(traj);
    if literal.None? || Shape(literal.value).None? {
      invalidTokens' := invalidTokens' + [token];
      return;
    }
    trajDict' := trajDict'[token := literal.value];
    log' := log' + [LogLine(token, result, gt)];
  }

  /** The driver's main loop, lines 38-106. */
  method RunBatch(env: Setup, test: seq<string>) returns (r: Result<Batch, RunError>)
    requires ValidData(env.data)
    ensures r == BatchOf(env, test)
  {
    ghost var exchanges := Exchanges(env, test);
    var textDict: map<string, string> := map[];
    var trajDict: map<string, Literal> := map[];
    var invalidTokens: seq<string> := [];
    var log: seq<LogLine> := [];
    for tokenIndex := 0 to |test|
      invariant Bookkeep(exchanges, test, env.untest, env.parse, tokenIndex)
             == Success(Batch(textDict, trajDict, invalidTokens, log))
    {
      var token := test[tokenIndex];
      if |env.untest| > 0 && token !in env.untest {
        continue;
      }
      var exchange := Query(env, tokenIndex, token);
      assert exchanges[tokenIndex] == exchange;
      if exchange.Failure? {
        FailurePersists(exchanges, test, env.untest, env.parse, tokenIndex + 1, |test|);
        return Failure(exchange.error);
      }
      var (result, gt) := exchange.value;
      ghost var b := Batch(textDict, trajDict, invalidTokens, log);
      assert Bookkeep(exchanges, test, env.untest, env.parse, tokenIndex + 1)
          == Success(Record(b, token, result, gt, env.parse));
      textDict, trajDict, invalidTokens, log :=
        RecordAnswer(textDict, trajDict, invalidTokens, log, token, result, gt, env.parse);
    }
    r := Success(Batch(textDict, trajDict, invalidTokens, log));
  }

  /**
   * What the accumulators keep true: a stored trajectory has its answer
   * kept, an invalid token has its answer kept, and every logged line is a
   * stored token whose answer reads as an array and which is the exchange
   * of some processed test token.
   */
  predicate Consistent(
    exchanges: seq<Result<(string, string), RunError>>, test: seq<string>,
    parse: string -> Option<Literal>, n: nat, b: Batch)
    requires n <= |test| == |exchanges|
  {
    && b.trajDict.Keys <= b.textDict.Keys
    && (forall k | 0 <= k < |b.invalidTokens| :: b.invalidTokens[k] in b.textDict)
    && (forall k | 0 <= k < |b.log| ::
          && b.log[k].token in b.trajDict
          && LooseDecode(b.log[k].gpt, parse).Some?
          && exists j | 0 <= j < n ::
               test[j] == b.log[k].token && exchanges[j] == Success((b.log[k].gpt, b.log[k].gt)))
  }

  /** Every run that has not stopped has consistent accumulators. */
  lemma {:induction false} BookkeepConsistent(
    exchanges: seq<Result<(string, string), RunError>>, test: seq<string>, untest: seq<string>,
    parse: string -> Option<Literal>, n: nat)
    requires n <= |test| == |exchanges|
    requires Bookkeep(exchanges, test, untest, parse, n).Success?
    ensures Consistent(exchanges, test, parse, n, Bookkeep(exchanges, test, untest, parse, n).value)
  {
    if n > 0 {
      BookkeepConsistent(exchanges, test, untest, parse, n - 1);
      var b := Bookkeep(exchanges, test, untest, parse, n - 1).value;
      var r := Bookkeep(exchanges, test, untest, parse, n).value;
      if Selected(test[n - 1], untest) {
        var (result, gt) := exchanges[n - 1].value;
        assert r == Record(b, test[n - 1], result, gt, parse);
        forall k | 0 <= k < |r.log|
          ensures && r.log[k].token in r.trajDict
                  && LooseDecode(r.log[k].gpt, parse).Some?
                  && exists j | 0 <= j < n ::
                       test[j] == r.log[k].token && exchanges[j] == Success((r.log[k].gpt, r.log[k].gt))
        {
          if k < |b.log| {
            assert r.log[k] == b.log[k];
            var j :| 0 <= j < n - 1 && test[j] == b.log[k].token && exchanges[j] == Success((b.log[k].gpt, b.log[k].gt));
          } else {
            assert r.log[k] == LogLine(test[n - 1], result, gt);
          }
        }
      }
    }
  }

  /** How many of the tokens the driver processes. */
  function SelectedCount(tokens: seq<string>, untest: seq<string>): nat
  {
    if tokens == [] then 0
    else SelectedCount(tokens[..|tokens| - 1], untest) + if Selected(tokens[|tokens| - 1], untest) then 1 else 0
  }

  /**
   * The bookkeeping of a run that has not stopped: the answers kept are
   * exactly those of the selected tokens (so only listed tokens when a list
   * is given), and every processed token is either logged once or marked
   * invalid once.
   */
  lemma {:induction false} BookkeepCounts(
    exchanges: seq<Result<(string, string), RunError>>, test: seq<string>, untest: seq<string>,
    parse: string -> Option<Literal>, n: nat)
    requires n <= |test| == |exchanges|
    requires Bookkeep(exchanges, test, untest, parse, n).Success?
    ensures Bookkeep(exchanges, test, untest, parse, n).value.textDict.Keys
         == set k | 0 <= k < n && Selected(test[k], untest) :: test[k]
    ensures |Bookkeep(exchanges, test, untest, parse, n).value.log|
            + |Bookkeep(exchanges, test, untest, parse, n).value.invalidTokens|
         == SelectedCount(test[..n], untest)
  {
    if n > 0 {
      BookkeepCounts(exchanges, test, untest, parse, n - 1);
      assert test[..n][..n - 1] == test[..n - 1];
      var before := set k | 0 <= k < n - 1 && Selected(test[k], untest) :: test[k];
      var after := set k | 0 <= k < n && Selected(test[k], untest) :: test[k];
      if Selected(test[n - 1], untest) {
        assert after == before + {test[n - 1]};
      } else {
        assert after == before;
      }
    }
  }

  /** With a selection list, only listed tokens have answers kept. */
  lemma OnlyListedTokensProcessed(env: Setup, test: seq<string>, token: string)
    requires ValidData(env.data) && |env.untest| > 0
    requires BatchOf(env, test).Success? && token in BatchOf(env, test).value.textDict
    ensures token in env.untest
  {
    BookkeepCounts(Exchanges(env, test), test, env.untest, env.parse, |test|);
  }

  /**
   * Every logged line pairs an answer that reads as an array with the
   * assistant message of its own sample.
   */
  lemma LoggedGroundTruth(env: Setup, test: seq<string>, k: nat)
    requires ValidData(env.data)
    requires BatchOf(env, test).Success? && k < |BatchOf(env, test).value.log|
    ensures var line := BatchOf(env, test).value.log[k];
      && line.token in BatchOf(env, test).value.trajDict
      && LooseDecode(line.gpt, env.parse).Some?
      && line.token in env.data
      && AssistantMessageOf(env.data[line.token], env.fmt, env.norm, false) == Success(line.gt)
  {
    var exchanges := Exchanges(env, test);
    BookkeepConsistent(exchanges, test, env.untest, env.parse, |test|);
    var line := BatchOf(env, test).value.log[k];
    var j :| 0 <= j < |test| && test[j] == line.token && exchanges[j] == Success((line.gpt, line.gt));
    ExchangesGroundTruth(env, test, j);
  }

  /** The ground truth of test token j's exchange is the assistant message of its sample. */
  lemma ExchangesGroundTruth(env: Setup, test: seq<string>, j: nat)
    requires ValidData(env.data) && j < |test| && Exchanges(env, test)[j].Success?
    ensures test[j] in env.data
    ensures AssistantMessageOf(env.data[test[j]], env.fmt, env.norm, false)
         == Success(Exchanges(env, test)[j].value.1)
  {
    assert Exchanges(env, test)[j] == Exchange(env, j, test[j]);
    ExchangeGroundTruth(env, j, test[j]);
  }

  /**
   * The ground truth of every logged line passes the packer's strict
   * reader, when the formatter writes no newline and the evaluator reads
   * printed lists of pairs back.
   */
  lemma LoggedGroundTruthIsStrict(env: Setup, test: seq<string>, k: nat)
    requires ValidData(env.data) && FmtOneLine(env.fmt) && ReadsPairLists(env.parse, env.fmt)
    requires BatchOf(env, test).Success? && k < |BatchOf(env, test).value.log|
    ensures StrictDecode(BatchOf(env, test).value.log[k].gt, env.parse).Some?
  {
    LoggedGroundTruth(env, test, k);
    var line := BatchOf(env, test).value.log[k];
    GroundTruthPassesStrict(env.data[line.token], env.fmt, env.norm, false, env.parse);
  }
}
