/**
 * The bounded retry of `investmentAnalysisFlow`: call the analysis prompt up
 * to three times, retrying only errors whose message mentions 503, with an
 * exponential delay between attempts. The prompt is an oracle giving the
 * outcome of each call by its index; the sleeping itself is not modelled,
 * only the delays asked for.
 */
module InvestmentAnalysis {
  import opened Text

  const MaxRetries: nat := 3
  const RetryMarker: string := "503"
  const MissingOutputMessage: string :=
    "A análise de investimento" + " da IA não retornou" + " um resultado válido."

  /** What one prompt call gives: an output, no output, or a thrown error with its message ("" when it has none). */
  datatype PromptOutcome = Output(commentary: string) | NoOutput | Fails(message: string)

  /** How the flow ends: it returns the commentary or rethrows an error with its message. */
  datatype AnalysisOutcome = Returned(commentary: string) | Rethrown(message: string)

  /** The outcome of a run, the number of prompt calls, and the delays in milliseconds waited between them. */
  datatype Run = Run(outcome: AnalysisOutcome, calls: nat, delays: seq<nat>)

  function Pow2(n: nat): (r: nat)
    ensures r >= 1
  {
    if n == 0 then 1 else 2 * Pow2(n - 1)
  }

  /** `Math.pow(2, attempt) * 1000`. */
  function Delay(attempt: nat): nat {
    Pow2(attempt) * 1000
  }

  /** The message the `catch` sees for a failed call. */
  function ErrorMessage(o: PromptOutcome): string
    requires !o.Output?
  {
    if o.NoOutput? then MissingOutputMessage else o.message
  }

  /** The flow from the given attempt on, as a recursive definition. */
  function Retrying(prompt: nat -> PromptOutcome, attempt: nat): (r: Run)
    requires attempt < MaxRetries
    ensures 1 <= r.calls <= MaxRetries - attempt
    ensures |r.delays| == r.calls - 1
    decreases MaxRetries - attempt
  {
    var o := prompt(attempt);
    if o.Output? then Run(Returned(o.commentary), 1, [])
    else
      var message := ErrorMessage(o);
      if Contains(message, RetryMarker) && attempt + 1 < MaxRetries then
        var rest := Retrying(prompt, attempt + 1);
        Run(rest.outcome, rest.calls + 1, [Delay(attempt + 1)] + rest.delays)
      else Run(Rethrown(message), 1, [])
  }

  function Prepend(calls: nat, delays: seq<nat>, run: Run): Run {
    Run(run.outcome, calls + run.calls, delays + run.delays)
  }

  /**
   * `investmentAnalysisFlow`'s loop. It leaves only by `return` or by
   * rethrowing, so the fallback error after the loop is never thrown.
   */
  method InvestmentAnalysisFlow(prompt: nat -> PromptOutcome) returns (r: AnalysisOutcome, calls: nat, delays: seq<nat>)
    ensures Run(r, calls, delays) == Retrying(prompt, 0)
    ensures 1 <= calls <= MaxRetries
  {
    var attempt: nat := 0;
    calls := 0;
    delays := [];
    while attempt < MaxRetries
      invariant attempt < MaxRetries
      invariant calls == attempt && |delays| == attempt
      invariant Retrying(prompt, 0) == Prepend(calls, delays, Retrying(prompt, attempt))
      decreases MaxRetries - attempt
    {
      var outcome := prompt(attempt);
      calls := calls + 1;
      if outcome.Output? {
        return Returned(outcome.commentary), calls, delays;
      }
      var message := ErrorMessage(outcome);
      var previous := attempt;
      attempt := attempt + 1;
      if Contains(message, RetryMarker) && attempt < MaxRetries {
        assert delays + ([Delay(attempt)] + Retrying(prompt, attempt).delays)
            == (delays + [Delay(attempt)]) + Retrying(prompt, attempt).delays;
        delays := delays + [Delay(attempt)];
      } else {
        return Rethrown(message), calls, delays;
      }
    }
    assert false;
  }

  /** The missing-output message has no digit 5. */
  lemma MissingMessageHasNoFive()
    ensures '5' !in MissingOutputMessage
  {
    assert '5' !in "A análise de investimento";
    assert '5' !in " da IA não retornou";
    assert '5' !in " um resultado válido.";
  }

  /** Without a '5' in it, a message never contains "503". */
  lemma {:induction false} NoFiveNo503(s: string)
    requires '5' !in s
    ensures !Contains(s, RetryMarker)
  {
    if s != [] {
      assert s[0] != RetryMarker[0];
      assert forall c :: c in s[1..] ==> c in s;
      NoFiveNo503(s[1..]);
    }
  }

  /** The first output is returned at once, after a single call. */
  lemma FirstOutputReturned(prompt: nat -> PromptOutcome, text: string)
    requires prompt(0) == Output(text)
    ensures Retrying(prompt, 0) == Run(Returned(text), 1, [])
  {
  }

  /** A missing output is an error without "503": it is rethrown after one call. */
  lemma MissingOutputNotRetried(prompt: nat -> PromptOutcome)
    requires prompt(0) == NoOutput
    ensures Retrying(prompt, 0) == Run(Rethrown(MissingOutputMessage), 1, [])
  {
    MissingMessageHasNoFive();
    NoFiveNo503(MissingOutputMessage);
  }

  /** Any other error without "503" is rethrown unchanged after one call. */
  lemma OtherErrorsNotRetried(prompt: nat -> PromptOutcome, m: string)
    requires prompt(0) == Fails(m) && !Contains(m, RetryMarker)
    ensures Retrying(prompt, 0) == Run(Rethrown(m), 1, [])
  {
  }

  /**
   * Three 503 failures in a row: three calls, waits of 2000 and 4000 ms,
   * and the third error is rethrown.
   */
  lemma Three503s(prompt: nat -> PromptOutcome, m0: string, m1: string, m2: string)
    requires prompt(0) == Fails(m0) && prompt(1) == Fails(m1) && prompt(2) == Fails(m2)
    requires Contains(m0, RetryMarker) && Contains(m1, RetryMarker)
    ensures Retrying(prompt, 0) == Run(Rethrown(m2), 3, [2000, 4000])
  {
    assert Delay(1) == 2000 && Delay(2) == 4000;
  }

  /** The k-th delay (counting from 1) is 2^k seconds. */
  lemma {:induction false} DelaysDouble(prompt: nat -> PromptOutcome, attempt: nat)
    requires attempt < MaxRetries
    ensures var d := Retrying(prompt, attempt).delays;
            forall i :: 0 <= i < |d| ==> d[i] == Delay(attempt + 1 + i)
    decreases MaxRetries - attempt
  {
    var o := prompt(attempt);
    if !o.Output? && Contains(ErrorMessage(o), RetryMarker) && attempt + 1 < MaxRetries {
      DelaysDouble(prompt, attempt + 1);
    }
  }
}
