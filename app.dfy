/**
  The `/get_response` decision: validate the request body, try the casual
  fast path, and otherwise select a corpus entry, elaborate on it and answer
  with the entry's fields and the elaboration. HTTP routing and JSON
  serialisation are left to the web framework; what is modelled is the status
  and the body the handler decides on.
 */
module App {
  import opened Wrappers
  import C = Casual
  import R = Retrieval
  import E = Elaboration

  /** A JSON value as the request body can carry it (numbers as integers). */
  datatype Json =
    | JNull
    | JBool(b: bool)
    | JNumber(n: int)
    | JString(s: string)
    | JArray(items: seq<Json>)
    | JObject(fields: map<string, Json>)

  const InvalidInput: string := "Invalid input. Please provide a valid string in 'user_input'"

  /** The values for which Python's `not v` holds. */
  predicate Falsy(v: Json)
  {
    v == JNull || v == JBool(false) || v == JNumber(0) || v == JString("") ||
    v == JArray([]) || v == JObject(map[])
  }

  /** `request.json.get('user_input')` followed by the falsy-or-not-a-string test:
      exactly a non-empty string is accepted, and it is accepted unchanged. */
  function Validate(body: map<string, Json>): (r: Result<string, string>)
    ensures r.Success? <==> "user_input" in body && body["user_input"].JString? && body["user_input"].s != ""
    ensures r.Success? ==> r.value == body["user_input"].s
    ensures r.Failure? ==> r.error == InvalidInput
  {
    var userQuery := if "user_input" in body then body["user_input"] else JNull;
    if Falsy(userQuery) || !userQuery.JString? then Failure(InvalidInput) else Success(userQuery.s)
  }

  /** A number is rejected with the documented message. */
  lemma NumberIsRejected(n: int)
    ensures Validate(map["user_input" := JNumber(n)]) == Failure(InvalidInput)
  {
  }

  /** The JSON object the handler answers with. */
  datatype Body =
    | ErrorBody(error: string)
    | CasualBody(response: string)
    | VerseBody(verseNumber: string, translation: string, explanation: string,
                problemCategory: string, elaboration: string)

  /** The handler's answer: a status with a body, or an error it lets escape
      (which the web framework turns into a server error). */
  datatype Response = Reply(status: nat, body: Body) | Unhandled(failure: E.Failure)

  /** The casual fast path answered, as the handler tells it: the reply is not the sentinel. */
  predicate IsCasualHit(friendlyReply: string)
  {
    friendlyReply != C.Sentinel
  }

  /** The answer for a query that is not casual: the selected entry's four
      fields, each defaulting to `"N/A"`, with the elaboration; or, when the
      elaboration raised, that error, escaping the handler. */
  function VerseResponse(bestMatch: R.Entry, elaboration: Result<string, E.Failure>): (response: Response)
    ensures response.Unhandled? <==> elaboration.Failure?
    ensures elaboration.Failure? ==> response.failure == elaboration.error
    ensures elaboration.Success? ==>
              response.status == 200 && response.body.VerseBody? &&
              response.body.verseNumber == R.Field(bestMatch, "verse_number") &&
              response.body.translation == R.Field(bestMatch, "translation") &&
              response.body.explanation == R.Field(bestMatch, "explanation") &&
              response.body.problemCategory == R.Field(bestMatch, "problem_category") &&
              response.body.elaboration == elaboration.value
  {
    if elaboration.Failure? then Unhandled(elaboration.error)
    else Reply(200, VerseBody(R.Field(bestMatch, "verse_number"), R.Field(bestMatch, "translation"),
                              R.Field(bestMatch, "explanation"), R.Field(bestMatch, "problem_category"),
                              elaboration.value))
  }

  /**
    `get_response`. An invalid body is answered with 400 before anything else
    is consulted. A valid query goes to the casual matcher; if its reply is not
    the sentinel, that reply is the answer. Otherwise the entry at the first
    maximum of the semantic scores is elaborated on with the raw query, and the
    answer is that entry's fields with the elaboration, or the error the
    elaboration raised.
   */
  method GetResponse(body: map<string, Json>, casual: C.CasualMatcher, extractOne: string -> C.MatchResult,
                     corpus: seq<R.Entry>, lexicalScores: seq<int>, semanticScores: seq<int>,
                     elaborator: E.Elaborator, outcomes: seq<E.Attempt>)
      returns (response: Response, requests: seq<E.Request>)
    requires casual.Valid() && C.ValidMatcher(extractOne, casual.friendlyResponses)
    requires elaborator.Valid()
    requires |corpus| > 0 && |lexicalScores| == |corpus| && |semanticScores| == |corpus|
    modifies casual, elaborator
    ensures casual.Valid() && elaborator.Valid()
    ensures old(casual.userHistory) <= casual.userHistory
    ensures Validate(body).Failure? ==>
              response == Reply(400, ErrorBody(InvalidInput)) && requests == [] &&
              casual.userHistory == old(casual.userHistory) &&
              elaborator.currentKeyIndex == old(elaborator.currentKeyIndex)
    ensures Validate(body).Success? ==>
              var userQuery := Validate(body).value;
              var query := C.Normalize(userQuery);
              var m := extractOne(query);
              (m.score > C.Threshold ==>
                 response.Reply? && response.status == 200 && response.body.CasualBody? &&
                 response.body.response in
                   casual.friendlyResponses[if query in old(casual.userHistory) then C.RepeatedKey else m.key] &&
                 casual.userHistory ==
                   (if query in old(casual.userHistory) then old(casual.userHistory)
                    else old(casual.userHistory) + [query]) &&
                 requests == [] && elaborator.currentKeyIndex == old(elaborator.currentKeyIndex)) &&
              (m.score <= C.Threshold ==>
                 var bestMatch := R.SelectEntry(corpus, lexicalScores, semanticScores);
                 var prompt := E.Prompt(userQuery, R.Field(bestMatch, "verse_number"),
                                        R.Field(bestMatch, "translation"), R.Field(bestMatch, "explanation"));
                 casual.userHistory == old(casual.userHistory) &&
                 response == VerseResponse(bestMatch, E.Elaborate(outcomes)) &&
                 requests == elaborator.Sent(old(elaborator.currentKeyIndex), E.AttemptsMade(outcomes), prompt) &&
                 elaborator.currentKeyIndex == E.RotateTimes(old(elaborator.currentKeyIndex), E.Rotations(outcomes)))
  {
    var validated := Validate(body);
    if validated.Failure? {
      return Reply(400, ErrorBody(InvalidInput)), [];
    }
    var userQuery := validated.value;

    ghost var history := casual.userHistory;
    ghost var query := C.Normalize(userQuery);
    ghost var m := extractOne(query);
    var friendlyReply := casual.GetFriendlyResponse(userQuery, extractOne);
    if IsCasualHit(friendlyReply) {
      assert m.score > C.Threshold;
      assert friendlyReply in
        casual.friendlyResponses[if query in history then C.RepeatedKey else m.key];
      assert casual.userHistory == (if query in history then history else history + [query]);
      return Reply(200, CasualBody(friendlyReply)), [];
    }
    assert m.score <= C.Threshold && casual.userHistory == history;

    var bestMatch := R.SelectEntry(corpus, lexicalScores, semanticScores);
    var verse := R.Field(bestMatch, "verse_number");
    var translation := R.Field(bestMatch, "translation");
    var explanation := R.Field(bestMatch, "explanation");
    var elaboration;
    elaboration, requests := elaborator.GenerateElaboration(userQuery, verse, translation, explanation, outcomes);
    response := VerseResponse(bestMatch, elaboration);
  }

  /**
    Two identical POSTs whose query the matcher scores above the threshold: the
    second is answered from the repeated bucket, and for an ordinary phrase
    never from that phrase's own bucket, whatever the first call found.
   */
  method RepeatedRequest(body: map<string, Json>, casual: C.CasualMatcher, extractOne: string -> C.MatchResult,
                         corpus: seq<R.Entry>, lexicalScores: seq<int>, semanticScores: seq<int>,
                         elaborator: E.Elaborator, outcomes: seq<E.Attempt>)
      returns (first: Response, second: Response)
    requires casual.Valid() && C.ValidMatcher(extractOne, casual.friendlyResponses)
    requires C.RepeatedBucketIsDistinct(casual.friendlyResponses)
    requires elaborator.Valid()
    requires |corpus| > 0 && |lexicalScores| == |corpus| && |semanticScores| == |corpus|
    requires Validate(body).Success? && extractOne(C.Normalize(Validate(body).value)).score > C.Threshold
    modifies casual, elaborator
    ensures second.Reply? && second.status == 200 && second.body.CasualBody?
    ensures second.body.response in casual.friendlyResponses[C.RepeatedKey]
    ensures extractOne(C.Normalize(Validate(body).value)).key != C.RepeatedKey ==>
              second.body.response !in casual.friendlyResponses[extractOne(C.Normalize(Validate(body).value)).key]
  {
    var requests;
    first, requests := GetResponse(body, casual, extractOne, corpus, lexicalScores, semanticScores, elaborator, outcomes);
    assert C.Normalize(Validate(body).value) in casual.userHistory;
    second, requests := GetResponse(body, casual, extractOne, corpus, lexicalScores, semanticScores, elaborator, outcomes);
  }
}
