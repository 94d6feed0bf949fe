/**
 * The retrying provider client `translateChunk`. The text-generation service is an
 * oracle: attempt number `clock` with a given prompt either yields the parsed reply
 * object (its fields in key enumeration order) or fails with an error message.
 * Everything that can go wrong inside one attempt (network, provider error, a
 * reply that does not parse) is one failure.
 */
module Provider {
  import opened Json
  import opened Types
  import opened Prompt

  datatype Attempt = Reply(fields: seq<Field>) | Failure(cause: string)

  /** The provider: what attempt number `clock` yields for a prompt. */
  type Oracle = (string, nat) -> Attempt

  datatype ChunkOutcome = Translated(reply: seq<Field>) | Failed(message: string)

  /** The default retry budget: one attempt plus three retries. */
  const DefaultRetries: nat := 3

  /**
   * The message of the error thrown once the budget is spent: `API Error: `
   * followed by the cause verbatim, or by a fixed text when the cause is empty.
   */
  function ErrorMessage(cause: string): (m: string)
    ensures |m| > |"API Error: "| && m[..|"API Error: "|] == "API Error: "
    ensures cause != "" ==> m[|"API Error: "|..] == cause
    ensures cause == "" ==> m == "API Error: Failed to translate chunk."
  {
    "API Error: " + (if cause == "" then "Failed to translate chunk." else cause)
  }

  /**
   * `translateChunk(chunk, languageName, config, retries)` starting at attempt
   * `clock`: the outcome and the number of the next unused attempt. At least one
   * and at most `retries + 1` attempts are made.
   */
  function Attempts(prompt: string, provider: Oracle, clock: nat, retries: nat): (r: (ChunkOutcome, nat))
    ensures clock < r.1 <= clock + retries + 1
    decreases retries
  {
    match provider(prompt, clock)
    case Reply(fields) => (Translated(fields), clock + 1)
    case Failure(cause) =>
      if retries > 0 then Attempts(prompt, provider, clock + 1, retries - 1)
      else (Failed(ErrorMessage(cause)), clock + 1)
  }

  /** `translateChunk`: builds the prompt once and retries it. */
  method TranslateChunk(chunk: seq<Field>, languageName: string, config: Config,
                        provider: Oracle, clock: nat, retries: nat)
    returns (outcome: ChunkOutcome, next: nat)
    requires forall i :: 0 <= i < |chunk| ==> chunk[i].value.Str?
    ensures (outcome, next) == Attempts(BuildPrompt(chunk, languageName, config), provider, clock, retries)
  {
    var prompt := BuildPrompt(chunk, languageName, config);
    outcome, next := RetryPrompt(prompt, provider, clock, retries);
  }

  /** The retry loop; the prompt is the same for every attempt. */
  method RetryPrompt(prompt: string, provider: Oracle, clock: nat, retries: nat)
    returns (outcome: ChunkOutcome, next: nat)
    ensures (outcome, next) == Attempts(prompt, provider, clock, retries)
  {
    var now, left := clock, retries;
    while true
      invariant Attempts(prompt, provider, now, left) == Attempts(prompt, provider, clock, retries)
      decreases left
    {
      match provider(prompt, now) {
        case Reply(fields) =>
          return Translated(fields), now + 1;
        case Failure(cause) =>
          if left == 0 {
            return Failed(ErrorMessage(cause)), now + 1;
          }
          now, left := now + 1, left - 1;
      }
    }
  }

  /**
   * The call succeeds exactly when one of its `retries + 1` attempts does, and
   * then returns the reply of the first successful attempt, the last one made.
   */
  lemma {:induction false} AttemptsFirstSuccess(prompt: string, provider: Oracle, clock: nat, retries: nat)
    ensures var (outcome, next) := Attempts(prompt, provider, clock, retries);
      && (outcome.Translated? <==> exists t :: clock <= t <= clock + retries && provider(prompt, t).Reply?)
      && (outcome.Translated? ==>
            next >= 1 && provider(prompt, next - 1) == Reply(outcome.reply) &&
            forall t :: clock <= t < next - 1 ==> provider(prompt, t).Failure?)
    decreases retries
  {
    if provider(prompt, clock).Failure? && retries > 0 {
      AttemptsFirstSuccess(prompt, provider, clock + 1, retries - 1);
    }
  }

  /**
   * A failed call has made all `retries + 1` attempts, every one of which failed,
   * and carries the cause of the last.
   */
  lemma {:induction false} AttemptsExhausted(prompt: string, provider: Oracle, clock: nat, retries: nat)
    requires Attempts(prompt, provider, clock, retries).0.Failed?
    ensures var (outcome, next) := Attempts(prompt, provider, clock, retries);
      && next == clock + retries + 1
      && (forall k :: clock <= k < next ==> provider(prompt, k).Failure?)
      && outcome.message == ErrorMessage(provider(prompt, next - 1).cause)
    decreases retries
  {
    if retries > 0 {
      AttemptsExhausted(prompt, provider, clock + 1, retries - 1);
    }
  }
}
