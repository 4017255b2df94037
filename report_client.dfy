/**
  The report-generation client: `generateDraftReport` calls a remote
  text-generation endpoint at most three times, sleeping with exponential
  backoff between failed attempts, and always settles with a string: the
  non-empty `candidates[0].content.parts[0].text` of the first call whose reply
  has an ok status and carries one, or a fixed failure sentence.

  The network is not modelled. Each call to the endpoint is replaced by the
  next element of a sequence of attempt outcomes, and each sleep is recorded
  as its duration in milliseconds instead of being waited for.
 */
module ReportClient {
  import opened Values

  /** Number of endpoint calls one generation may make. */
  const MaxAttempts: nat := 3

  /** Backoff before the second attempt, in milliseconds; it doubles after every later failure. */
  const InitialDelay: nat := 1000

  /** The text returned once every attempt has failed. */
  const FailureSentinel: string := "Error: Could not generate report. Please try again."

  /** One element of `parts`; `text` is absent when the field is missing. */
  datatype Part = Part(text: Option<string>)

  /** A candidate's `content`; `parts` is absent when the field is missing. */
  datatype Content = Content(parts: Option<seq<Part>>)

  /** One element of `candidates`; `content` is absent when the field is missing. */
  datatype Candidate = Candidate(content: Option<Content>)

  /** The body of a reply: either not JSON at all, or an object whose `candidates` may be missing. */
  datatype Body = Unparsable | Json(candidates: Option<seq<Candidate>>)

  /** What one call to the endpoint produced: the request itself failed, or a reply arrived. */
  datatype Attempt = NetworkError | Reply(status: int, body: Body)

  /** What one whole generation produced: the string it settles with, the sleeps it took, the calls it made. */
  datatype Generation = Generation(report: string, delays: seq<nat>, attempts: nat)

  /** `response.ok` of the Fetch standard: the status is in the range 200-299. */
  predicate IsOkStatus(status: int) {
    200 <= status <= 299
  }

  /**
    Whether a reply is JSON whose `candidates[0].content.parts[0]` exists: the
    candidates, the first candidate's content and its parts are present, and
    neither list is empty.
   */
  predicate HasFirstPart(a: Attempt) {
    a.Reply? && a.body.Json? &&
    a.body.candidates.Some? && |a.body.candidates.value| > 0 &&
    a.body.candidates.value[0].content.Some? &&
    a.body.candidates.value[0].content.value.parts.Some? &&
    |a.body.candidates.value[0].content.value.parts.value| > 0
  }

  /** The `text` field of `candidates[0].content.parts[0]`. */
  function FirstPartText(a: Attempt): (t: Option<string>)
    requires HasFirstPart(a)
  {
    a.body.candidates.value[0].content.value.parts.value[0].text
  }

  /**
    The text one attempt yields, or None when the attempt fails: a network
    error, a status that is not ok, a body that is not JSON, a missing or
    empty `candidates`, a first candidate without `content` or `parts`, no
    first part, or a first part whose `text` is missing or empty.
   */
  function AttemptText(a: Attempt): (r: Option<string>)
    ensures r.Some? ==> r.value != ""
    ensures r.Some? ==> a.Reply? && IsOkStatus(a.status) && HasFirstPart(a) && r == FirstPartText(a)
    ensures a.Reply? && !IsOkStatus(a.status) ==> r.None?
    ensures !HasFirstPart(a) ==> r.None?
    ensures HasFirstPart(a) && !Truthy(FirstPartText(a)) ==> r.None?
    ensures HasFirstPart(a) && IsOkStatus(a.status) && Truthy(FirstPartText(a)) ==> r == FirstPartText(a)
  {
    match a
    case NetworkError => None
    case Reply(status, body) =>
      if !IsOkStatus(status) then None
      else
        match body
        case Unparsable => None
        case Json(candidates) =>
          if candidates.None? || |candidates.value| == 0 then None
          else
            var content := candidates.value[0].content;
            if content.None? || content.value.parts.None? || |content.value.parts.value| == 0 then None
            else
              var text := content.value.parts.value[0].text;
              if Truthy(text) then text else None
  }

  /** The smallest reply the endpoint sends for a successful generation of `text`. */
  function ReplyWithText(text: string): (a: Attempt) {
    Reply(200, Json(Some([Candidate(Some(Content(Some([Part(Some(text))]))))])))
  }

  /**
    Reading the text back from a well-formed reply gives the text that was put
    in, except that an empty text is a failed attempt.
   */
  lemma ReplyWithTextRoundTrip(text: string)
    ensures AttemptText(ReplyWithText(text)) == if text == "" then None else Some(text)
  {
  }

  /** 2 to the power `n`. */
  function Pow2(n: nat): (r: nat) {
    if n == 0 then 1 else 2 * Pow2(n - 1)
  }

  /**
    The sleeps taken before each of the first `k` failures is retried: the first
    is InitialDelay and each later one doubles the one before.
   */
  function Backoff(k: nat): (r: seq<nat>)
    ensures |r| == k
    ensures forall i :: 0 <= i < k ==> r[i] == InitialDelay * Pow2(i)
  {
    if k == 0 then []
    else if k == 1 then [InitialDelay]
    else
      var prefix := Backoff(k - 1);
      prefix + [2 * prefix[k - 2]]
  }

  /**
    The index of the first attempt that yields text, or |outcomes| when none
    does.
   */
  function FirstSuccess(outcomes: seq<Attempt>): (k: nat)
    ensures k <= |outcomes|
    ensures forall j :: 0 <= j < k ==> AttemptText(outcomes[j]).None?
    ensures k < |outcomes| ==> AttemptText(outcomes[k]).Some?
  {
    if |outcomes| == 0 then 0
    else if AttemptText(outcomes[0]).Some? then 0
    else 1 + FirstSuccess(outcomes[1..])
  }

  /**
    What a generation settles with when its calls produce `outcomes`: the first
    text among the first MaxAttempts outcomes, after one sleep per failure
    before it; otherwise the sentinel after MaxAttempts calls and a sleep
    between each two of them, none after the last.
   */
  function Expected(outcomes: seq<Attempt>): (r: Generation)
    requires |outcomes| >= MaxAttempts
    ensures 1 <= r.attempts <= MaxAttempts
    ensures |r.delays| == r.attempts - 1
    ensures r.report != ""
  {
    var k := FirstSuccess(outcomes[..MaxAttempts]);
    if k < MaxAttempts then Generation(AttemptText(outcomes[k]).value, Backoff(k), k + 1)
    else Generation(FailureSentinel, Backoff(MaxAttempts - 1), MaxAttempts)
  }

  /**
    The retry loop of `generateDraftReport`. Each iteration consumes the next
    outcome; a text is returned at once; a failure decrements `retries`, returns
    the sentinel when none are left, and otherwise sleeps `delay` milliseconds
    and doubles it.
   */
  method GenerateDraftReport(outcomes: seq<Attempt>) returns (report: string, delays: seq<nat>, attempts: nat)
    requires |outcomes| >= MaxAttempts
    ensures Generation(report, delays, attempts) == Expected(outcomes)
  {
    var retries := MaxAttempts;
    var delay := InitialDelay;
    delays, attempts := [], 0;
    while retries > 0
      invariant 1 <= retries <= MaxAttempts
      invariant attempts == MaxAttempts - retries
      invariant delays == Backoff(attempts)
      invariant delay == InitialDelay * Pow2(attempts)
      invariant forall j :: 0 <= j < attempts ==> AttemptText(outcomes[j]).None?
      decreases retries
    {
      var outcome := outcomes[attempts];
      attempts := attempts + 1;
      var text := AttemptText(outcome);
      if text.Some? {
        report := text.value;
        SuccessAt(outcomes, attempts - 1);
        return;
      }
      retries := retries - 1;
      if retries == 0 {
        report := FailureSentinel;
        AllFailed(outcomes);
        return;
      }
      delays := delays + [delay];
      delay := delay * 2;
    }
    assert false;
  }

  /** When attempt `k` is the first to yield text, the generation returns it after `k` sleeps. */
  lemma SuccessAt(outcomes: seq<Attempt>, k: nat)
    requires |outcomes| >= MaxAttempts && k < MaxAttempts
    requires forall j :: 0 <= j < k ==> AttemptText(outcomes[j]).None?
    requires AttemptText(outcomes[k]).Some?
    ensures Expected(outcomes) == Generation(AttemptText(outcomes[k]).value, Backoff(k), k + 1)
  {
  }

  /** When none of the first MaxAttempts outcomes yields text, the generation settles with the sentinel. */
  lemma AllFailed(outcomes: seq<Attempt>)
    requires |outcomes| >= MaxAttempts
    requires forall j :: 0 <= j < MaxAttempts ==> AttemptText(outcomes[j]).None?
    ensures Expected(outcomes) == Generation(FailureSentinel, Backoff(MaxAttempts - 1), MaxAttempts)
  {
  }

  /**
    Sustained failure: three calls, sleeps of exactly 1000 and then 2000
    milliseconds and none after the third failure, and the sentinel.
   */
  lemma SustainedFailure(outcomes: seq<Attempt>)
    requires |outcomes| >= MaxAttempts
    requires forall j :: 0 <= j < MaxAttempts ==> AttemptText(outcomes[j]).None?
    ensures Expected(outcomes) == Generation(FailureSentinel, [1000, 2000], 3)
  {
  }

  /** A first attempt that yields text is returned unchanged, with no retry and no sleep. */
  lemma FirstAttemptSucceeds(outcomes: seq<Attempt>, text: string)
    requires |outcomes| >= MaxAttempts
    requires AttemptText(outcomes[0]) == Some(text)
    ensures Expected(outcomes) == Generation(text, [], 1)
  {
  }

  /**
    With `k` failures before the first text, exactly `k` sleeps are taken, the
    i-th lasting 1000 * 2^i milliseconds, and that text is returned.
   */
  lemma SuccessAfterFailures(outcomes: seq<Attempt>, k: nat, text: string)
    requires |outcomes| >= MaxAttempts && k < MaxAttempts
    requires forall j :: 0 <= j < k ==> AttemptText(outcomes[j]).None?
    requires AttemptText(outcomes[k]) == Some(text)
    ensures Expected(outcomes).report == text
    ensures Expected(outcomes).attempts == k + 1
    ensures |Expected(outcomes).delays| == k
    ensures forall i :: 0 <= i < k ==> Expected(outcomes).delays[i] == 1000 * Pow2(i)
  {
  }

  /** Two failures, then text: the text is returned after sleeps of 1000 and 2000 milliseconds. */
  lemma TwoFailuresThenText(outcomes: seq<Attempt>, text: string)
    requires |outcomes| >= MaxAttempts
    requires AttemptText(outcomes[0]).None? && AttemptText(outcomes[1]).None?
    requires AttemptText(outcomes[2]) == Some(text)
    ensures Expected(outcomes) == Generation(text, [1000, 2000], 3)
  {
  }

  /**
    The report is either the sentinel or the text of one of the attempts made,
    and it is the sentinel whenever no attempt made yielded text.
   */
  lemma ReportIsTextOrSentinel(outcomes: seq<Attempt>)
    requires |outcomes| >= MaxAttempts
    ensures var r := Expected(outcomes);
      r.report == FailureSentinel ||
      exists j :: 0 <= j < r.attempts && AttemptText(outcomes[j]) == Some(r.report)
    ensures (forall j :: 0 <= j < MaxAttempts ==> AttemptText(outcomes[j]).None?) ==>
      Expected(outcomes).report == FailureSentinel
  {
  }

  /**
    Nothing after the last call made matters: two outcome sequences that agree
    on the calls a generation makes give the same generation.
   */
  lemma LaterOutcomesIgnored(outcomes: seq<Attempt>, other: seq<Attempt>)
    requires |outcomes| >= MaxAttempts && |other| >= MaxAttempts
    requires outcomes[..Expected(outcomes).attempts] == other[..Expected(outcomes).attempts]
    ensures Expected(other) == Expected(outcomes)
  {
    var n := Expected(outcomes).attempts;
    forall j | 0 <= j < n ensures outcomes[j] == other[j] {
      assert outcomes[..n][j] == other[..n][j];
    }
    var prefix := outcomes[..MaxAttempts];
    assert forall j :: 0 <= j < MaxAttempts ==> prefix[j] == outcomes[j];
    var f := FirstSuccess(prefix);
    if f < MaxAttempts {
      SuccessAt(outcomes, f);
      SuccessAt(other, f);
    } else {
      AllFailed(outcomes);
      AllFailed(other);
    }
  }
}
