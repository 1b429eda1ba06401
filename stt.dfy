/**
 * Speech to text: listen on the microphone, send the audio to the Google
 * recogniser, and retry while nothing intelligible was heard.
 *
 * The microphone session and the recogniser together are an oracle
 * `mic`: `mic(n)` is what the attempt made when `retry_count == n` ends in.
 */
module Stt {
  import opened Wrappers
  import opened Http

  /** How one listen-and-recognise attempt ends. */
  datatype Attempt =
    | Recognized(text: string)      // `recognize_google` returned this text
    | UnknownValue                  // `sr.UnknownValueError`: the audio could not be understood
    | WaitTimeout                   // `sr.WaitTimeoutError`: no speech began before the listen timeout
    | RequestFailed(reason: string) // `sr.RequestError`: the recognition service could not be reached
    | Unexpected(reason: string)    // any other exception, a missing microphone included
  {
    /** The two outcomes that consume a retry and loop again. */
    predicate Retryable() {
      UnknownValue? || WaitTimeout?
    }
  }

  const DefaultMaxRetries: int := 3

  const ServiceUnavailable: HttpError := HttpError(503, "Speech recognition service unavailable")
  const AudioFailure: HttpError := HttpError(500, "Failed to process audio input")
  const NoValidSpeech: HttpError := HttpError(408, "Timeout: No valid speech detected after retries")

  /** What an attempt that ends the call returns or raises. */
  function Settle(a: Attempt): (r: Result<string, HttpError>)
    requires !a.Retryable()
    ensures r.Ok? <==> a.Recognized?
    ensures r.Ok? ==> r.value == a.text
    ensures a.RequestFailed? ==> r == Err(ServiceUnavailable)
    ensures a.Unexpected? ==> r == Err(AudioFailure)
  {
    match a
    case Recognized(text) => Ok(text)
    case RequestFailed(_) => Err(ServiceUnavailable)
    case Unexpected(_) => Err(AudioFailure)
  }

  /** The outcome of the retry loop entered with `retry_count == retryCount`. */
  function Listen(mic: nat -> Attempt, maxRetries: int, retryCount: nat): Result<string, HttpError>
    decreases maxRetries - retryCount
  {
    if retryCount >= maxRetries then Err(NoValidSpeech)
    else if mic(retryCount).Retryable() then Listen(mic, maxRetries, retryCount + 1)
    else Settle(mic(retryCount))
  }

  /** The number of attempts the loop may make: `max_retries`, or none when it is not positive. */
  function AttemptBudget(maxRetries: int): nat {
    if maxRetries > 0 then maxRetries else 0
  }

  /**
   * `voice_to_text`. The ghost `attempts` counts the microphone sessions
   * opened: at most the budget; all but the last were retryable; the last
   * one decides the result, unless the budget ran out, in which case the
   * call times out with 408.
   */
  method VoiceToText(mic: nat -> Attempt, maxRetries: int) returns (r: Result<string, HttpError>, ghost attempts: nat)
    ensures attempts <= AttemptBudget(maxRetries)
    ensures forall j :: 0 <= j < attempts - 1 ==> mic(j).Retryable()
    ensures attempts > 0 && !mic(attempts - 1).Retryable() ==> r == Settle(mic(attempts - 1))
    ensures attempts == 0 || mic(attempts - 1).Retryable() ==>
              attempts == AttemptBudget(maxRetries) && r == Err(NoValidSpeech)
    ensures r == Listen(mic, maxRetries, 0)
  {
    var retryCount: nat := 0;
    attempts := 0;
    while retryCount < maxRetries
      invariant retryCount <= AttemptBudget(maxRetries)
      invariant attempts == retryCount
      invariant forall j :: 0 <= j < retryCount ==> mic(j).Retryable()
      invariant Listen(mic, maxRetries, retryCount) == Listen(mic, maxRetries, 0)
      decreases maxRetries - retryCount
    {
      var outcome := mic(retryCount);
      attempts := attempts + 1;
      match outcome {
        case Recognized(text) =>
          r := Ok(text);
          return;
        case UnknownValue =>
          retryCount := retryCount + 1;
        case RequestFailed(_) =>
          r := Err(ServiceUnavailable);
          return;
        case WaitTimeout =>
          retryCount := retryCount + 1;
        case Unexpected(_) =>
          r := Err(AudioFailure);
          return;
      }
    }
    r := Err(NoValidSpeech);
  }

  /** The first attempt that is not retryable decides the call, provided it falls within the budget. */
  lemma {:induction false} FirstDecisiveAttemptWins(mic: nat -> Attempt, maxRetries: int, from: nat, k: nat)
    requires from <= k < maxRetries
    requires forall j :: from <= j < k ==> mic(j).Retryable()
    requires !mic(k).Retryable()
    ensures Listen(mic, maxRetries, from) == Settle(mic(k))
    decreases k - from
  {
    if from < k {
      FirstDecisiveAttemptWins(mic, maxRetries, from + 1, k);
    }
  }

  /** When every attempt in the budget is retryable, the call times out with 408. */
  lemma {:induction false} AllRetryableTimesOut(mic: nat -> Attempt, maxRetries: int, from: nat)
    requires forall j :: from <= j < maxRetries ==> mic(j).Retryable()
    ensures Listen(mic, maxRetries, from) == Err(NoValidSpeech)
    decreases maxRetries - from
  {
    if from < maxRetries {
      AllRetryableTimesOut(mic, maxRetries, from + 1);
    }
  }

  /**
   * The converse: every result of the call comes from one of those two
   * situations. Recognised text is the text of the first non-retryable
   * attempt; a 503 or a 500 comes from that attempt; a 408 means that the
   * whole budget was retryable.
   */
  lemma {:induction false} ListenExplained(mic: nat -> Attempt, maxRetries: int, from: nat)
    requires from <= AttemptBudget(maxRetries)
    ensures var r := Listen(mic, maxRetries, from);
            || (r == Err(NoValidSpeech) && forall j :: from <= j < maxRetries ==> mic(j).Retryable())
            || (exists k :: from <= k < maxRetries && (forall j :: from <= j < k ==> mic(j).Retryable())
                            && !mic(k).Retryable() && r == Settle(mic(k)))
    decreases maxRetries - from
  {
    if from < maxRetries {
      ListenExplained(mic, maxRetries, from + 1);
      if !mic(from).Retryable() {
        assert Listen(mic, maxRetries, from) == Settle(mic(from));
      }
    }
  }

  /** The only errors the call can raise are 503, 500 and 408, with their fixed details. */
  lemma ListenErrors(mic: nat -> Attempt, maxRetries: int)
    ensures var r := Listen(mic, maxRetries, 0);
            r.Err? ==> r.error in {ServiceUnavailable, AudioFailure, NoValidSpeech}
  {
    ListenExplained(mic, maxRetries, 0);
  }

  /**
   * Attempts after a decisive one are never consulted: two oracles that
   * agree up to a non-retryable attempt `k` (or on the whole budget) give
   * the same result.
   */
  lemma {:induction false} LaterAttemptsIgnored(mic1: nat -> Attempt, mic2: nat -> Attempt, maxRetries: int, from: nat, k: nat)
    requires from <= k
    requires forall j :: from <= j <= k ==> mic1(j) == mic2(j)
    requires k < maxRetries ==> !mic1(k).Retryable()
    ensures Listen(mic1, maxRetries, from) == Listen(mic2, maxRetries, from)
    decreases k - from
  {
    if from < k && from < maxRetries {
      LaterAttemptsIgnored(mic1, mic2, maxRetries, from + 1, k);
    }
  }

  /** With `max_retries <= 0` the loop body never runs and the call times out. */
  lemma NoBudgetTimesOut(mic: nat -> Attempt, maxRetries: int)
    requires maxRetries <= 0
    ensures Listen(mic, maxRetries, 0) == Err(NoValidSpeech)
  {
  }

  /** With the default budget of three, two retryable failures and then text give that text. */
  lemma DefaultTwoFailuresThenText(mic: nat -> Attempt, text: string)
    requires mic(0).Retryable() && mic(1).Retryable() && mic(2) == Recognized(text)
    ensures Listen(mic, DefaultMaxRetries, 0) == Ok(text)
  {
  }

  /** With the default budget of three, three retryable failures time out, whatever a fourth attempt would give. */
  lemma DefaultThreeFailuresTimeOut(mic: nat -> Attempt)
    requires mic(0).Retryable() && mic(1).Retryable() && mic(2).Retryable()
    ensures Listen(mic, DefaultMaxRetries, 0) == Err(NoValidSpeech)
  {
  }
}
