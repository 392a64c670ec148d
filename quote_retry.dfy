/** The retry loop of `generate_daily_quote_json` (app/generator/quote_generator.py): up to
    `max_retries + 1` AI calls, each failure appended to the prompt, the first valid payload
    returned. The AI (its reply parsed by `json.loads`, or the exception either raises) is an
    oracle from prompt to reply. */
module QuoteRetry {
  import opened Wrappers
  import opened QuotePayload

  /** What one AI call gives: the decoded JSON, or an exception with its `repr` and `str`. */
  datatype AiReply = Reply(obj: Json) | Raised(repr: string, text: string)

  /** Why an attempt failed: validation raised, or the call or the decoding did. */
  datatype Failure = Invalid(error: QuoteError) | AiRaised(repr: string, text: string)

  /** One attempt: call the AI, then validate. */
  function Attempt(reply: AiReply): (r: Result<Payload, Failure>)
    ensures r.Ok? ==> reply.Reply? && Validate(reply.obj) == Ok(r.value)
    ensures r.Err? && r.error.Invalid? ==> reply.Reply? && Validate(reply.obj) == Err(r.error.error)
    ensures r.Err? && r.error.AiRaised? ==> reply == Raised(r.error.repr, r.error.text)
  {
    match reply
    case Raised(rp, t) => Err(AiRaised(rp, t))
    case Reply(obj) =>
      match Validate(obj)
      case Ok(p) => Ok(p)
      case Err(e) => Err(Invalid(e))
  }

  /** `repr(ValueError(msg))`: the message in single quotes, or in double quotes when it holds a
      single quote (no message holds a double quote or a backslash). */
  function ValueErrorRepr(msg: string): (r: string)
    ensures '\'' !in msg ==> r == "ValueError('" + msg + "')"
    ensures '\'' in msg ==> r == "ValueError(\"" + msg + "\")"
  {
    if '\'' in msg then "ValueError(\"" + msg + "\")" else "ValueError('" + msg + "')"
  }

  function Repr(f: Failure): string {
    match f
    case Invalid(e) => ValueErrorRepr(Message(e))
    case AiRaised(rp, _) => rp
  }

  /** `str(e)`. */
  function Str(f: Failure): string {
    match f
    case Invalid(e) => Message(e)
    case AiRaised(_, t) => t
  }

  /** What a failure appends to the prompt. */
  function Feedback(f: Failure): (r: string)
    ensures |r| > |Repr(f)|
  {
    "\n\n이전 출력은 검증에 실패했다. 오류: " + Repr(f) + "\n위 제약을 만족하는 JSON만 다시 출력하라."
  }

  /** The `RuntimeError` message once the attempts are used up (`last_err` is `None` when there
      were none). */
  function GiveUpMessage(last: Option<Failure>): string {
    "Failed to generate valid quote JSON: " + (if last.None? then "None" else Str(last.value))
  }

  /** The outcome of the loop, and the prompts it sent, in order. */
  datatype Run = Run(result: Result<Payload, string>, prompts: seq<string>)

  /** Each prompt's attempt, for a given AI. */
  function Attempts(ai: string -> AiReply): (attempt: string -> Result<Payload, Failure>)
    ensures forall prompt :: attempt(prompt) == Attempt(ai(prompt))
  {
    prompt => Attempt(ai(prompt))
  }

  /** The loop from a given prompt with `left` attempts to go. */
  function RunFrom(attempt: string -> Result<Payload, Failure>, prompt: string, left: nat, last: Option<Failure>): (run: Run)
    ensures |run.prompts| <= left
    ensures left > 0 ==> run.prompts != [] && run.prompts[0] == prompt
    ensures run.result.Ok? ==> run.prompts != []
    decreases left
  {
    if left == 0 then Run(Err(GiveUpMessage(last)), [])
    else
      match attempt(prompt)
      case Ok(p) => Run(Ok(p), [prompt])
      case Err(f) =>
        var rest := RunFrom(attempt, prompt + Feedback(f), left - 1, Some(f));
        Run(rest.result, [prompt] + rest.prompts)
  }

  /** `range(max_retries + 1)`: no attempt at all when `max_retries` is below zero. */
  function AttemptCount(maxRetries: int): (n: nat)
    ensures maxRetries >= 0 ==> n == maxRetries + 1
    ensures maxRetries < 0 ==> n == 0
  {
    if maxRetries + 1 > 0 then maxRetries + 1 else 0
  }

  /** `generate_daily_quote_json` after the first prompt is built. */
  function Generate(ai: string -> AiReply, prompt: string, maxRetries: int): Run {
    RunFrom(Attempts(ai), prompt, AttemptCount(maxRetries), None)
  }

  /** The loop sends at most `max_retries + 1` prompts, the first of them the initial prompt. */
  lemma GenerateCalls(ai: string -> AiReply, prompt: string, maxRetries: int)
    ensures |Generate(ai, prompt, maxRetries).prompts| <= AttemptCount(maxRetries)
    ensures maxRetries >= 0 ==> |Generate(ai, prompt, maxRetries).prompts| >= 1
                                && Generate(ai, prompt, maxRetries).prompts[0] == prompt
  {
  }

  /** Every prompt but the last was answered with a failure, and the next prompt is the previous
      one with that failure appended; the loop succeeds exactly when the last answer validates,
      and it gives up only when all its attempts failed. */
  lemma RunShape(attempt: string -> Result<Payload, Failure>, prompt: string, left: nat, last: Option<Failure>)
    ensures var run := RunFrom(attempt, prompt, left, last);
      && (forall k :: 0 <= k < |run.prompts| - 1 ==>
            attempt(run.prompts[k]).Err?
            && run.prompts[k + 1] == run.prompts[k] + Feedback(attempt(run.prompts[k]).error))
      && (run.result.Ok? <==> run.prompts != [] && attempt(run.prompts[|run.prompts| - 1]).Ok?)
      && (run.result.Ok? ==> run.result.value == attempt(run.prompts[|run.prompts| - 1]).value)
      && (run.result.Err? ==> |run.prompts| == left)
  {
    RunChained(attempt, prompt, left, last);
    RunOutcome(attempt, prompt, left, last);
  }

  /** Each prompt after the first is the one before it plus the feedback on its failure. */
  predicate Chained(attempt: string -> Result<Payload, Failure>, prompts: seq<string>) {
    forall k :: 0 <= k < |prompts| - 1 ==>
      attempt(prompts[k]).Err? && prompts[k + 1] == prompts[k] + Feedback(attempt(prompts[k]).error)
  }

  lemma {:induction false} RunChained(attempt: string -> Result<Payload, Failure>, prompt: string, left: nat, last: Option<Failure>)
    ensures Chained(attempt, RunFrom(attempt, prompt, left, last).prompts)
    decreases left
  {
    if left > 0 && attempt(prompt).Err? {
      var f := attempt(prompt).error;
      var next := prompt + Feedback(f);
      RunChained(attempt, next, left - 1, Some(f));
      var rest := RunFrom(attempt, next, left - 1, Some(f)).prompts;
      var ps := [prompt] + rest;
      assert RunFrom(attempt, prompt, left, last).prompts == ps;
      forall k | 0 <= k < |ps| - 1
        ensures attempt(ps[k]).Err? && ps[k + 1] == ps[k] + Feedback(attempt(ps[k]).error)
      {
        if k > 0 {
          assert ps[k] == rest[k - 1] && ps[k + 1] == rest[k];
        } else {
          assert ps[1] == rest[0] == next;
        }
      }
    }
  }

  /** The run succeeds exactly when its last attempt validates, with that attempt's payload;
      a failed run used every attempt. */
  lemma {:induction false} RunOutcome(attempt: string -> Result<Payload, Failure>, prompt: string, left: nat, last: Option<Failure>)
    ensures var run := RunFrom(attempt, prompt, left, last);
      && (run.result.Ok? <==> run.prompts != [] && attempt(run.prompts[|run.prompts| - 1]).Ok?)
      && (run.result.Ok? ==> run.result.value == attempt(run.prompts[|run.prompts| - 1]).value)
      && (run.result.Err? ==> |run.prompts| == left)
    decreases left
  {
    if left > 0 && attempt(prompt).Err? {
      var f := attempt(prompt).error;
      var next := prompt + Feedback(f);
      RunOutcome(attempt, next, left - 1, Some(f));
      var rest := RunFrom(attempt, next, left - 1, Some(f));
      var run := RunFrom(attempt, prompt, left, last);
      assert run.result == rest.result;
      assert run.prompts == [prompt] + rest.prompts;
      if rest.prompts != [] {
        assert run.prompts[|run.prompts| - 1] == rest.prompts[|rest.prompts| - 1];
      }
    }
  }

  /** Given up, the message names the last failure. */
  lemma {:induction false} RunGiveUp(attempt: string -> Result<Payload, Failure>, prompt: string, left: nat, last: Option<Failure>)
    requires RunFrom(attempt, prompt, left, last).result.Err?
    ensures var run := RunFrom(attempt, prompt, left, last);
      && (run.prompts == [] ==> run.result.error == GiveUpMessage(last))
      && (run.prompts != [] ==>
            && attempt(run.prompts[|run.prompts| - 1]).Err?
            && run.result.error == GiveUpMessage(Some(attempt(run.prompts[|run.prompts| - 1]).error)))
    decreases left
  {
    if left > 0 {
      var f := attempt(prompt).error;
      RunGiveUp(attempt, prompt + Feedback(f), left - 1, Some(f));
    }
  }

  /** The last prompt sent was answered with JSON that validates to `p`. */
  predicate LastValidates(ai: string -> AiReply, prompts: seq<string>, p: Payload) {
    && prompts != []
    && ai(prompts[|prompts| - 1]).Reply?
    && Validate(ai(prompts[|prompts| - 1]).obj) == Ok(p)
  }

  /** What the loop returns is the payload validation made of the last reply, so it meets the
      schema. */
  lemma GenerateWellFormed(ai: string -> AiReply, prompt: string, maxRetries: int)
    requires Generate(ai, prompt, maxRetries).result.Ok?
    ensures var run := Generate(ai, prompt, maxRetries);
      LastValidates(ai, run.prompts, run.result.value) && WellFormed(run.result.value)
  {
    var run := Generate(ai, prompt, maxRetries);
    RunShape(Attempts(ai), prompt, AttemptCount(maxRetries), None);
    var reply := ai(run.prompts[|run.prompts| - 1]);
    assert Attempt(reply).Ok?;
    ValidatedWellFormed(reply.obj);
  }

  /** The loop gives up only after `max_retries + 1` failed attempts, and its message then names
      the last failure (`None` when no attempt was made). */
  lemma GenerateGivesUp(ai: string -> AiReply, prompt: string, maxRetries: int)
    requires Generate(ai, prompt, maxRetries).result.Err?
    ensures var run := Generate(ai, prompt, maxRetries);
      && |run.prompts| == AttemptCount(maxRetries)
      && (forall k :: 0 <= k < |run.prompts| ==> Attempt(ai(run.prompts[k])).Err?)
      && (run.prompts == [] ==> run.result.error == GiveUpMessage(None))
      && (run.prompts != [] ==>
            run.result.error == GiveUpMessage(Some(Attempt(ai(run.prompts[|run.prompts| - 1])).error)))
  {
    RunShape(Attempts(ai), prompt, AttemptCount(maxRetries), None);
    RunGiveUp(Attempts(ai), prompt, AttemptCount(maxRetries), None);
  }

  /** The body of the `try`: the AI call, then validation. */
  method TryOnce(ai: string -> AiReply, prompt: string) returns (outcome: Result<Payload, Failure>)
    ensures outcome == Attempts(ai)(prompt)
  {
    var reply := ai(prompt);
    if reply.Raised? {
      return Err(AiRaised(reply.repr, reply.text));
    }
    var validated := ValidatePayload(reply.obj);
    if validated.Err? {
      return Err(Invalid(validated.error));
    }
    return Ok(validated.value);
  }

  /** The loop, as written: `prompt` and `last_err` updated on every failed attempt. Returns the
      outcome and the prompts sent. */
  method GenerateDailyQuote(ai: string -> AiReply, prompt0: string, maxRetries: int)
    returns (r: Result<Payload, string>, prompts: seq<string>)
    ensures Run(r, prompts) == Generate(ai, prompt0, maxRetries)
  {
    var n := AttemptCount(maxRetries);
    var prompt := prompt0;
    var lastErr: Option<Failure> := None;
    prompts := [];
    var attempt := 0;
    while attempt < n
      invariant 0 <= attempt <= n
      invariant Generate(ai, prompt0, maxRetries)
                == Run(RunFrom(Attempts(ai), prompt, n - attempt, lastErr).result,
                       prompts + RunFrom(Attempts(ai), prompt, n - attempt, lastErr).prompts)
    {
      var before := prompts;
      prompts := prompts + [prompt];
      var outcome := TryOnce(ai, prompt);
      if outcome.Ok? {
        assert before + [prompt] == prompts;
        return Ok(outcome.value), prompts;
      }
      var rest := RunFrom(Attempts(ai), prompt + Feedback(outcome.error), n - attempt - 1, Some(outcome.error));
      assert before + ([prompt] + rest.prompts) == prompts + rest.prompts;
      lastErr := Some(outcome.error);
      prompt := prompt + Feedback(outcome.error);
      attempt := attempt + 1;
    }
    assert prompts + [] == prompts;
    return Err(GiveUpMessage(lastErr)), prompts;
  }
}
