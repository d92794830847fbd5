/**
 * `generateImage`: one image request retried with exponential backoff while
 * the provider reports a rate limit, degrading to the empty string instead
 * of throwing. The provider's answer to the k-th call (counting from 0) is
 * `provider(k)`; the random jitter drawn before the k-th wait (counting from
 * 1) is `jitter(k)`, in milliseconds.
 */
module ImageFetch {
  import opened JsText

  /** What one `generateImages` call yields: the base64 bytes, or the message of what it threw. */
  datatype ImageOutcome = Generated(imageBytes: string) | Failed(message: string)

  const DataUrlPrefix: string := "data:image/png;base64,"

  /** The attempt limit the source uses when none is given. */
  const DefaultMaxRetries: int := 3

  /** The retry classifier: only a rate-limit error is worth another attempt. */
  predicate IsRateLimit(message: string)
  {
    Contains(message, "429") || Contains(message, "RESOURCE_EXHAUSTED")
  }

  function Pow2(k: nat): (r: nat)
    ensures r >= 1
  {
    if k == 0 then 1 else 2 * Pow2(k - 1)
  }

  /** The wait after the k-th failed attempt: 2^k seconds plus the jitter. */
  function Backoff(k: nat, jitter: int): int
  {
    Pow2(k) * 1000 + jitter
  }

  /** The URL returned, how many provider calls were made, and the waits between them, in order. */
  datatype Fetch = Fetch(url: string, calls: nat, waits: seq<int>)

  /** What the loop does from the moment `attempt` attempts have failed. */
  function Run(provider: nat -> ImageOutcome, jitter: nat -> int, maxRetries: int, attempt: nat): Fetch
    decreases if attempt < maxRetries then maxRetries - attempt else 0
  {
    if attempt >= maxRetries then Fetch("", 0, [])
    else match provider(attempt)
      case Generated(b) => Fetch(DataUrlPrefix + b, 1, [])
      case Failed(m) =>
        if attempt + 1 >= maxRetries || !IsRateLimit(m) then Fetch("", 1, [])
        else
          var rest := Run(provider, jitter, maxRetries, attempt + 1);
          Fetch(rest.url, rest.calls + 1, [Backoff(attempt + 1, jitter(attempt + 1))] + rest.waits)
  }

  /** The retry loop, with each backoff sleep recorded instead of slept. */
  method GenerateImage(provider: nat -> ImageOutcome, jitter: nat -> int, maxRetries: int)
    returns (url: string, calls: nat, waits: seq<int>)
    ensures Fetch(url, calls, waits) == Run(provider, jitter, maxRetries, 0)
  {
    var attempt: nat := 0;
    calls, waits := 0, [];
    while attempt < maxRetries
      invariant calls == attempt == |waits|
      invariant attempt > 0 ==> attempt < maxRetries
      invariant var r := Run(provider, jitter, maxRetries, attempt);
        Run(provider, jitter, maxRetries, 0) == Fetch(r.url, r.calls + attempt, waits + r.waits)
      decreases maxRetries - attempt
    {
      var outcome := provider(attempt);
      calls := calls + 1;
      match outcome {
        case Generated(b) =>
          url := DataUrlPrefix + b;
          return;
        case Failed(m) =>
          attempt := attempt + 1;
          if attempt >= maxRetries || !IsRateLimit(m) {
            url := "";
            return;
          }
          waits := waits + [Backoff(attempt, jitter(attempt))];
      }
    }
    url := "";
  }

  /**
   * Everything a caller can rely on: at most `maxRetries` calls; a non-empty
   * URL exactly when the last call produced an image, and then it is the PNG
   * data URL of those bytes; every call before the last failed with a rate
   * limit; and one wait between consecutive calls, none after the last, the
   * k-th lying in [2^k*1000, 2^k*1000 + 1000) when the jitter is in [0, 1000).
   */
  lemma {:induction false} RunFacts(provider: nat -> ImageOutcome, jitter: nat -> int, maxRetries: int, attempt: nat)
    requires forall k :: 0 <= jitter(k) < 1000
    ensures var f := Run(provider, jitter, maxRetries, attempt);
      && (attempt < maxRetries ==> 1 <= f.calls <= maxRetries - attempt)
      && (attempt >= maxRetries ==> f.calls == 0 && f.url == "")
      && (f.url != "" <==> f.calls >= 1 && provider(attempt + f.calls - 1).Generated?)
      && (f.url != "" ==> f.url == DataUrlPrefix + provider(attempt + f.calls - 1).imageBytes)
      && (forall k :: attempt <= k < attempt + f.calls - 1 ==>
            provider(k).Failed? && IsRateLimit(provider(k).message))
      && |f.waits| == (if f.calls == 0 then 0 else f.calls - 1)
      && (forall i :: 0 <= i < |f.waits| ==>
            f.waits[i] == Backoff(attempt + i + 1, jitter(attempt + i + 1)) &&
            Pow2(attempt + i + 1) * 1000 <= f.waits[i] < Pow2(attempt + i + 1) * 1000 + 1000)
    decreases if attempt < maxRetries then maxRetries - attempt else 0
  {
    var f := Run(provider, jitter, maxRetries, attempt);
    if attempt < maxRetries && provider(attempt).Failed?
       && attempt + 1 < maxRetries && IsRateLimit(provider(attempt).message) {
      RunFacts(provider, jitter, maxRetries, attempt + 1);
      var rest := Run(provider, jitter, maxRetries, attempt + 1);
      assert f.waits == [Backoff(attempt + 1, jitter(attempt + 1))] + rest.waits;
      forall i | 0 <= i < |f.waits|
        ensures f.waits[i] == Backoff(attempt + i + 1, jitter(attempt + i + 1))
      {
        if i > 0 {
          assert f.waits[i] == rest.waits[i - 1];
        }
      }
    }
  }

  /** A provider that always answers 429: with the default three attempts, exactly three calls and the empty string. */
  lemma AlwaysRateLimited(jitter: nat -> int)
    ensures var f := Run(_ => Failed("429 Too Many Requests"), jitter, DefaultMaxRetries, 0);
      f.calls == 3 && f.url == "" && |f.waits| == 2
  {
    var p: nat -> ImageOutcome := _ => Failed("429 Too Many Requests");
    var m := "429 Too Many Requests";
    assert m[..3] == "429";
    assert IsRateLimit(m);
    assert Run(p, jitter, 3, 2) == Fetch("", 1, []);
  }

  /** A provider that is rate-limited once and then succeeds: two calls, one wait, and the image. */
  lemma SucceedsOnSecondAttempt(jitter: nat -> int, bytes: string)
    ensures var p: nat -> ImageOutcome := k => if k == 0 then Failed("RESOURCE_EXHAUSTED") else Generated(bytes);
      var f := Run(p, jitter, DefaultMaxRetries, 0);
      f.calls == 2 && f.url == DataUrlPrefix + bytes && |f.waits| == 1
  {
    var m := "RESOURCE_EXHAUSTED";
    assert m[..|m|] == m;
    assert IsRateLimit(m);
  }

  /** Any other error ends the loop after the single attempt, with the empty string. */
  lemma OtherErrorIsFinal(provider: nat -> ImageOutcome, jitter: nat -> int, maxRetries: int)
    requires maxRetries >= 1
    requires provider(0).Failed? && !IsRateLimit(provider(0).message)
    ensures Run(provider, jitter, maxRetries, 0) == Fetch("", 1, [])
  {
  }
}
