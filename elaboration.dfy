/**
  The elaboration generator: a prompt built from the user's query and the
  selected entry is sent to a remote generation backend with the credential at
  a rotating index into a fixed pool of five; a rate-limit failure rotates the
  credential and retries, any other failure is raised, and a successful stream
  is folded into one string.

  The backend is foreign. Each call it would answer is given in advance as an
  `Attempt`, so the model's retry loop is bounded by the number of attempts
  supplied.
 */
module Elaboration {
  import opened Wrappers
  import opened Text

  /** The credential pool: `API_KEY_1` to `API_KEY_5`. */
  const KeySlots: nat := 5

  /** The request settings the source fixes. */
  const MaxTokenLimit: nat := 300
  const ModelName: string := "llama3-70b-8192"
  const Temperature: int := 1

  /** The phrase whose presence in an error message, ignoring case, means "rate limited". */
  const RateLimitPhrase: string := "rate limit"

  /** What one backend call does: the call itself raises an error with a message,
      or it returns a stream of fragments (each fragment's content possibly
      absent), iterating which may itself raise after those fragments. */
  datatype Attempt =
    | Rejected(message: string)
    | Streamed(fragments: seq<Option<string>>, interruption: Option<string>)

  /** Why no elaboration came back: an error raised to the caller, or (only in
      the model) the supplied attempts ran out while rate-limit retries continued. */
  datatype Failure = Raised(message: string) | OutOfAttempts

  /** One call to the backend as the source issues it. */
  datatype Request = Request(apiKey: Option<string>, model: string, prompt: string,
                             temperature: int, maxTokens: nat)

  // ----- key rotation -----

  /** `(current_key_index + 1) % len(api_keys)`, the list always holding five keys. */
  function Rotate(index: nat): (r: nat)
    ensures r < KeySlots
    ensures index + 1 < KeySlots ==> r == index + 1
    ensures index + 1 == KeySlots ==> r == 0
  {
    (index + 1) % KeySlots
  }

  /** The index after `k` rotations. */
  function RotateTimes(index: nat, k: nat): (r: nat)
    ensures index < KeySlots ==> r < KeySlots
  {
    if k == 0 then index else Rotate(RotateTimes(index, k - 1))
  }

  /** `k` rotations from a valid index advance it by `k`, modulo the pool size. */
  lemma {:induction false} RotateTimesAdvances(index: nat, k: nat)
    requires index < KeySlots
    ensures RotateTimes(index, k) == (index + k) % KeySlots
  {
    if k > 0 {
      RotateTimesAdvances(index, k - 1);
    }
  }

  /** Rotating once per slot brings the index back to where it started. */
  lemma RotateRoundTrip(index: nat)
    requires index < KeySlots
    ensures RotateTimes(index, KeySlots) == index
  {
    RotateTimesAdvances(index, KeySlots);
  }

  // ----- the prompt -----

  /** Stand-ins for the instruction prose before and after the embedded inputs. */
  const Instructions: string :=
    "\n    You are a spiritual guide to the Bhagavad Gita; interpret the verse for the user's query in at most 300 tokens.\n"
  const Guidance: string :=
    "\n\n    Interpretation and Guidance:\n    ...\n\n    Application in Life:\n    ...\n    "

  /** The prompt template with its four inputs filled in. */
  function Prompt(userQuery: string, verse: string, translation: string, explanation: string): string
  {
    Instructions +
    "\n    User Query: " + userQuery +
    "\n    Verse: " + verse +
    "\n    Translation: " + translation +
    "\n    Explanation: " + explanation +
    Guidance
  }

  /** Each of the four inputs appears in the prompt verbatim. */
  lemma PromptEmbedsInputs(userQuery: string, verse: string, translation: string, explanation: string)
    ensures Contains(Prompt(userQuery, verse, translation, explanation), userQuery)
    ensures Contains(Prompt(userQuery, verse, translation, explanation), verse)
    ensures Contains(Prompt(userQuery, verse, translation, explanation), translation)
    ensures Contains(Prompt(userQuery, verse, translation, explanation), explanation)
  {
    var s0 := Instructions + "\n    User Query: ";
    var s1 := s0 + userQuery;
    var s2 := s1 + "\n    Verse: ";
    var s3 := s2 + verse;
    var s4 := s3 + "\n    Translation: ";
    var s5 := s4 + translation;
    var s6 := s5 + "\n    Explanation: ";
    var s7 := s6 + explanation;
    ContainsItself(userQuery);
    ContainsAfter(s0, userQuery, userQuery);
    ContainsItself(verse);
    ContainsAfter(s2, verse, verse);
    ContainsItself(translation);
    ContainsAfter(s4, translation, translation);
    ContainsItself(explanation);
    ContainsAfter(s6, explanation, explanation);
    ContainsBefore(s1, "\n    Verse: ", userQuery);
    ContainsBefore(s2, verse, userQuery);
    ContainsBefore(s3, "\n    Translation: ", userQuery);
    ContainsBefore(s3, "\n    Translation: ", verse);
    ContainsBefore(s4, translation, userQuery);
    ContainsBefore(s4, translation, verse);
    ContainsBefore(s5, "\n    Explanation: ", userQuery);
    ContainsBefore(s5, "\n    Explanation: ", verse);
    ContainsBefore(s5, "\n    Explanation: ", translation);
    ContainsBefore(s6, explanation, userQuery);
    ContainsBefore(s6, explanation, verse);
    ContainsBefore(s6, explanation, translation);
    ContainsBefore(s7, Guidance, userQuery);
    ContainsBefore(s7, Guidance, verse);
    ContainsBefore(s7, Guidance, translation);
    ContainsBefore(s7, Guidance, explanation);
  }

  // ----- the stream -----

  /** What one fragment adds: its content, or nothing when it is absent or empty. */
  function Piece(delta: Option<string>): string
  {
    if delta.Some? then delta.value else ""
  }

  /** The stream folded left to right, as the accumulation loop does. */
  function Concat(fragments: seq<Option<string>>): string
  {
    if fragments == [] then ""
    else Concat(fragments[..|fragments| - 1]) + Piece(fragments[|fragments| - 1])
  }

  /** The fragments that carry text, in arrival order. */
  function NonEmptyFragments(fragments: seq<Option<string>>): (texts: seq<string>)
    ensures |texts| <= |fragments|
    ensures forall i :: 0 <= i < |texts| ==> texts[i] != ""
  {
    if fragments == [] then []
    else
      (if fragments[0].Some? && fragments[0].value != "" then [fragments[0].value] else []) +
      NonEmptyFragments(fragments[1..])
  }

  function Flatten(texts: seq<string>): string
  {
    if texts == [] then "" else texts[0] + Flatten(texts[1..])
  }

  lemma {:induction false} ConcatAppend(a: seq<Option<string>>, b: seq<Option<string>>)
    ensures Concat(a + b) == Concat(a) + Concat(b)
  {
    if b == [] {
      assert a + b == a;
    } else {
      var c := b[..|b| - 1];
      assert (a + b)[..|a + b| - 1] == a + c;
      ConcatAppend(a, c);
    }
  }

  /** The accumulated text is exactly the fragments that carry text, joined in
      arrival order: absent and empty fragments add nothing and nothing is reordered. */
  lemma {:induction false} ConcatIsNonEmptyFragmentsJoined(fragments: seq<Option<string>>)
    ensures Concat(fragments) == Flatten(NonEmptyFragments(fragments))
  {
    if fragments != [] {
      var x, tail := fragments[0], fragments[1..];
      assert fragments == [x] + tail;
      ConcatAppend([x], tail);
      assert [x][..0] == [];
      assert Concat([x]) == Piece(x);
      ConcatIsNonEmptyFragmentsJoined(tail);
      var rest := NonEmptyFragments(tail);
      if x.Some? && x.value != "" {
        assert NonEmptyFragments(fragments) == [x.value] + rest;
        assert ([x.value] + rest)[1..] == rest;
      } else {
        assert NonEmptyFragments(fragments) == [] + rest;
        assert [] + rest == rest;
      }
    }
  }

  /** The accumulated text is empty exactly when no fragment carries text. */
  lemma ConcatEmptyIff(fragments: seq<Option<string>>)
    ensures Concat(fragments) == "" <==>
            forall i :: 0 <= i < |fragments| ==> fragments[i] == None || fragments[i] == Some("")
  {
    ConcatIsNonEmptyFragmentsJoined(fragments);
    NonEmptyFragmentsNone(fragments);
    FlattenEmpty(NonEmptyFragments(fragments));
  }

  lemma {:induction false} FlattenEmpty(texts: seq<string>)
    requires forall i :: 0 <= i < |texts| ==> texts[i] != ""
    ensures Flatten(texts) == "" <==> texts == []
  {
    if texts != [] {
      assert |Flatten(texts)| >= |texts[0]| > 0;
    }
  }

  lemma {:induction false} NonEmptyFragmentsNone(fragments: seq<Option<string>>)
    ensures NonEmptyFragments(fragments) == [] <==>
            forall i :: 0 <= i < |fragments| ==> fragments[i] == None || fragments[i] == Some("")
  {
    if fragments != [] {
      NonEmptyFragmentsNone(fragments[1..]);
      if fragments[0] == None || fragments[0] == Some("") {
        forall i | 1 <= i < |fragments| ensures fragments[i] == fragments[1..][i - 1] {
        }
      }
    }
  }

  /** The `for chunk in completion` loop: append each fragment that carries text. */
  method AccumulateStream(fragments: seq<Option<string>>) returns (responseText: string)
    ensures responseText == Concat(fragments)
  {
    responseText := "";
    for i := 0 to |fragments|
      invariant responseText == Concat(fragments[..i])
    {
      var delta := fragments[i];
      if delta.Some? && delta.value != "" {
        responseText := responseText + delta.value;
      }
      assert fragments[..i + 1][..i] == fragments[..i];
    }
    assert fragments[..|fragments|] == fragments;
  }

  // ----- retrying -----

  /** `"rate limit" in str(e).lower()`. */
  predicate IsRateLimit(message: string)
  {
    Contains(ToLower(message), RateLimitPhrase)
  }

  /** The test ignores case: any spelling of the phrase, anywhere in the message, is detected. */
  lemma RateLimitAnyCase(before: string, phrase: string, after: string)
    requires ToLower(phrase) == RateLimitPhrase
    ensures IsRateLimit(before + phrase + after)
  {
    ToLowerAppend(before, phrase);
    ToLowerAppend(before + phrase, after);
    ContainsMiddle(ToLower(before), RateLimitPhrase, ToLower(after));
  }

  /** Only an error raised by the call itself, with a rate-limit message, is retried. */
  predicate RetriesOn(a: Attempt)
  {
    a.Rejected? && IsRateLimit(a.message)
  }

  /** How many rotations a request performs: one per leading rate-limit failure. */
  function Rotations(outcomes: seq<Attempt>): (k: nat)
    ensures k <= |outcomes|
    ensures forall j :: 0 <= j < k ==> RetriesOn(outcomes[j])
    ensures k < |outcomes| ==> !RetriesOn(outcomes[k])
  {
    if outcomes == [] || !RetriesOn(outcomes[0]) then 0 else 1 + Rotations(outcomes[1..])
  }

  /** How many backend calls a request makes: the retried ones and the one that settles it. */
  function AttemptsMade(outcomes: seq<Attempt>): nat
  {
    if Rotations(outcomes) == |outcomes| then |outcomes| else Rotations(outcomes) + 1
  }

  /** What an attempt that is not retried returns: the error it raised, unchanged,
      or the folded stream. */
  function Settle(a: Attempt): Result<string, Failure>
  {
    match a
    case Rejected(message) => Failure(Raised(message))
    case Streamed(fragments, None) => Success(Concat(fragments))
    case Streamed(_, Some(message)) => Failure(Raised(message))
  }

  /** `generate_elaboration` as the source writes it: on a rate-limit failure,
      call again; otherwise settle. */
  function Elaborate(outcomes: seq<Attempt>): Result<string, Failure>
  {
    if outcomes == [] then Failure(OutOfAttempts)
    else if RetriesOn(outcomes[0]) then Elaborate(outcomes[1..])
    else Settle(outcomes[0])
  }

  /** The recursion settles at the first attempt that is not a rate-limit failure. */
  lemma {:induction false} ElaborateSettlesAfterRotations(outcomes: seq<Attempt>)
    ensures Rotations(outcomes) < |outcomes| ==>
              Elaborate(outcomes) == Settle(outcomes[Rotations(outcomes)])
    ensures Rotations(outcomes) == |outcomes| ==> Elaborate(outcomes) == Failure(OutOfAttempts)
  {
    if outcomes != [] && RetriesOn(outcomes[0]) {
      ElaborateSettlesAfterRotations(outcomes[1..]);
    }
  }

  /** An error raised while the stream is read is not caught by the retry, even
      when it reports a rate limit. */
  lemma InterruptedStreamIsRaised(fragments: seq<Option<string>>, message: string, rest: seq<Attempt>)
    ensures Elaborate([Streamed(fragments, Some(message))] + rest) == Failure(Raised(message))
    ensures Rotations([Streamed(fragments, Some(message))] + rest) == 0
  {
  }

  /** The end of a request: the error the call raised, or the stream read to the end. */
  method Complete(outcome: Attempt) returns (result: Result<string, Failure>)
    requires !RetriesOn(outcome)
    ensures result == Settle(outcome)
  {
    match outcome {
      case Rejected(message) =>
        result := Failure(Raised(message));
      case Streamed(fragments, interruption) =>
        var responseText := AccumulateStream(fragments);
        if interruption.Some? {
          result := Failure(Raised(interruption.value));
        } else {
          result := Success(responseText);
        }
    }
  }

  /**
    The module-level `api_keys` list and `current_key_index`, with the
    functions that read and advance the index and the generator that uses them.
   */
  class Elaborator {
    const apiKeys: seq<Option<string>>
    var currentKeyIndex: nat

    /** Five slots, and the index names one of them. */
    ghost predicate Valid()
      reads this
    {
      |apiKeys| == KeySlots && currentKeyIndex < |apiKeys|
    }

    /** The keys as read from the environment (each possibly unset); the index starts at 0. */
    constructor (keys: seq<Option<string>>)
      requires |keys| == KeySlots
      ensures Valid() && apiKeys == keys && currentKeyIndex == 0
    {
      apiKeys := keys;
      currentKeyIndex := 0;
    }

    /** The first `k` calls of a request that started at index `start`. */
    function Sent(start: nat, k: nat, prompt: string): (sent: seq<Request>)
      requires |apiKeys| == KeySlots && start < KeySlots
      ensures |sent| == k
      ensures forall j :: 0 <= j < k ==>
                sent[j] == Request(apiKeys[RotateTimes(start, j)], ModelName, prompt, Temperature, MaxTokenLimit)
    {
      if k == 0 then []
      else Sent(start, k - 1, prompt) + [Request(apiKeys[RotateTimes(start, k - 1)], ModelName, prompt,
                                                 Temperature, MaxTokenLimit)]
    }

    /** `get_client`: the client is built with the key at the current index. */
    method GetClient() returns (apiKey: Option<string>)
      requires Valid()
      ensures apiKey == apiKeys[currentKeyIndex]
    {
      apiKey := apiKeys[currentKeyIndex];
    }

    /** `rotate_api_key`: advance the index by one, wrapping after the last slot. */
    method RotateApiKey()
      requires Valid()
      modifies this
      ensures Valid()
      ensures currentKeyIndex == Rotate(old(currentKeyIndex))
    {
      currentKeyIndex := (currentKeyIndex + 1) % |apiKeys|;
    }

    /**
      `generate_elaboration`, its recursion written as a loop over the supplied
      attempts. Every call sends the same prompt with the key at the index
      current at that moment; each rate-limit failure rotates the index exactly
      once before the next call; the request ends with the first attempt that
      is not a rate-limit failure.
     */
    method GenerateElaboration(userQuery: string, verse: string, translation: string, explanation: string,
                               outcomes: seq<Attempt>)
        returns (result: Result<string, Failure>, requests: seq<Request>)
      requires Valid()
      modifies this
      ensures Valid()
      ensures result == Elaborate(outcomes)
      ensures requests == Sent(old(currentKeyIndex), AttemptsMade(outcomes),
                               Prompt(userQuery, verse, translation, explanation))
      ensures currentKeyIndex == RotateTimes(old(currentKeyIndex), Rotations(outcomes))
    {
      var prompt := Prompt(userQuery, verse, translation, explanation);
      ghost var start := currentKeyIndex;
      requests := [];
      var attempt, pending := 0, outcomes;
      while pending != []
        invariant Valid()
        invariant attempt + |pending| == |outcomes|
        invariant currentKeyIndex == RotateTimes(start, attempt)
        invariant requests == Sent(start, attempt, prompt)
        invariant Elaborate(outcomes) == Elaborate(pending)
        invariant Rotations(outcomes) == attempt + Rotations(pending)
      {
        var apiKey := GetClient();
        requests := requests + [Request(apiKey, ModelName, prompt, Temperature, MaxTokenLimit)];
        assert requests == Sent(start, attempt + 1, prompt);
        var outcome := pending[0];
        if !RetriesOn(outcome) {
          assert AttemptsMade(outcomes) == attempt + 1;
          result := Complete(outcome);
          return;
        }
        RotateApiKey();
        attempt, pending := attempt + 1, pending[1..];
      }
      result := Failure(OutOfAttempts);
    }
  }
}
