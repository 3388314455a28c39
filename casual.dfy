/**
  The casual-intent fast path of the query pipeline: a greeting-like query is
  recognised by fuzzy matching against a fixed phrase table and answered with
  a canned reply, and the process remembers which normalised queries it has
  already answered so that a repeat gets a reply from a dedicated bucket.
 */
module Casual {
  import opened Text

  /** A match counts as casual intent only above this score (strictly). */
  const Threshold: int := 70

  /** The bucket used for a query already in the history. */
  const RepeatedKey: string := "repeated casual queries"

  /** What `get_friendly_response` returns when nothing clears the threshold.
      The text keeps the source's mis-decoded apostrophe character for character. */
  const Sentinel: string := "I\U{E2}\U{20AC}\U{2122}m here to help you explore the teachings of the Bhagavad Gita. Please feel free to ask any question!"

  /** The canned replies, phrase key to bucket, exactly as in the source
      (mis-decoded punctuation included); the buckets follow. */
  const FriendlyResponses: map<string, seq<string>> := map[
    "hi" := HiReplies,
    "hello" := HelloReplies,
    "how are you" := HowAreYouReplies,
    "what's up" := WhatsUpReplies,
    "repeated casual queries" := RepeatedCasualQueriesReplies,
    "good morning" := GoodMorningReplies,
    "good afternoon" := GoodAfternoonReplies,
    "good evening" := GoodEveningReplies,
    "good night" := GoodNightReplies,
    "sorry" := SorryReplies,
    "please" := PleaseReplies,
    "love you" := LoveYouReplies
  ]

  const HiReplies: seq<string> := [
    "Hello! How can I help you today with insights from the Bhagavad Gita?",
    "Hi there! Feel free to ask me a question about life, spirituality, or any challenges you're facing."
  ]

  const HelloReplies: seq<string> := [
    "Hello! How can I help you today with insights from the Bhagavad Gita?",
    "Hi there! Feel free to ask me a question about life, spirituality, or any challenges you're facing."
  ]

  const HowAreYouReplies: seq<string> := [
    "I\U{E2}\U{20AC}\U{2122}m here and ready to assist! What wisdom from the Bhagavad Gita can I share with you today?",
    "I'm here to help you explore the teachings of the Bhagavad Gita. What can I do for you?"
  ]

  const WhatsUpReplies: seq<string> := [
    "Just here, ready to share wisdom! What life challenge or question would you like guidance on today?",
    "I\U{E2}\U{20AC}\U{2122}m here to help you discover actionable insights from the Gita. What would you like to know?"
  ]

  const RepeatedCasualQueriesReplies: seq<string> := [
    "It\U{E2}\U{20AC}\U{2122}s always good to connect! If you have a question about life or need guidance, let me know how I can help!",
    "I\U{E2}\U{20AC}\U{2122}m here to help you reflect on life\U{E2}\U{20AC}\U{2122}s deeper questions. What\U{E2}\U{20AC}\U{2122}s on your mind today?"
  ]

  const GoodMorningReplies: seq<string> := [
    "Good morning! How can I assist you with wisdom from the Bhagavad Gita today?",
    "Good morning! Ready to dive into the teachings of the Gita. What would you like to explore?"
  ]

  const GoodAfternoonReplies: seq<string> := [
    "Good afternoon! How can I help you today with insights from the Bhagavad Gita?",
    "Good afternoon! Let me know if you have any questions about the teachings of the Gita."
  ]

  const GoodEveningReplies: seq<string> := [
    "Good evening! How can I help you today with insights from the Bhagavad Gita?",
    "Good evening! Let me know if you have any questions about the teachings of the Gita."
  ]

  const GoodNightReplies: seq<string> := [
    "Good night! May peace and wisdom from the Bhagavad Gita guide you in your dreams.",
    "Good night! Sleep well and let the teachings of the Gita provide you with peace and tranquility."
  ]

  const SorryReplies: seq<string> := [
    "No need to apologize! I\U{E2}\U{20AC}\U{2122}m here to assist you with wisdom from the Bhagavad Gita.",
    "Apologies are unnecessary! I'm happy to guide you with the teachings of the Bhagavad Gita."
  ]

  const PleaseReplies: seq<string> := [
    "You're welcome! Feel free to ask any questions about the Bhagavad Gita.",
    "It's my pleasure to help! How can I assist you with the wisdom of the Bhagavad Gita today?"
  ]

  const LoveYouReplies: seq<string> := [
    "Love and peace to you too! \U{F0}\U{178}\U{2DC}\U{160} How can I guide you with the wisdom of the Bhagavad Gita?",
    "Thank you! Love and kindness are central to the teachings of the Gita. How can I help you today?"
  ]

  /** The query as it is matched and remembered: `lower()` then `strip()`. */
  function Normalize(query: string): string
  {
    Strip(ToLower(query))
  }

  /** The fuzzy matcher's best choice: a phrase key and its similarity score. */
  datatype MatchResult = MatchResult(key: string, score: int)

  /** The fuzzy matcher is foreign code; all that is known of it is that it picks
      one of the table's keys and scores it between 0 and 100. */
  ghost predicate ValidMatcher(extractOne: string -> MatchResult, table: map<string, seq<string>>)
  {
    forall q :: extractOne(q).key in table && 0 <= extractOne(q).score <= 100
  }

  predicate NoDuplicates(s: seq<string>)
  {
    forall i, j :: 0 <= i < j < |s| ==> s[i] != s[j]
  }

  /** A history as `get_friendly_response` keeps it: normalised queries, each
      remembered at most once. */
  predicate Remembered(history: seq<string>)
  {
    NoDuplicates(history) && FixedPoints(Normalize, history)
  }

  /** Every element of `s` is left unchanged by `f`. */
  predicate FixedPoints(f: string -> string, s: seq<string>)
  {
    forall i :: 0 <= i < |s| ==> f(s[i]) == s[i]
  }

  /** Two strings that are the same letter for letter up to ASCII case. */
  predicate EqualIgnoringCase(s: string, t: string)
  {
    |s| == |t| && forall i :: 0 <= i < |s| ==> LowerChar(s[i]) == LowerChar(t[i])
  }

  // ----- normalisation -----

  /** Normalising twice is normalising once, so remembered queries are fixed points. */
  lemma NormalizeIdempotent(query: string)
    ensures Normalize(Normalize(query)) == Normalize(query)
  {
    var l := ToLower(query);
    ToLowerStrip(l);
    ToLowerIdempotent(query);
    assert ToLower(Strip(l)) == Strip(l);
    StripIdempotent(l);
  }

  /** Queries that differ only in surrounding whitespace are normalised alike. */
  lemma NormalizeIgnoresSurroundingSpace(w1: string, query: string, w2: string)
    requires AllSpace(w1) && AllSpace(w2)
    ensures Normalize(w1 + query + w2) == Normalize(query)
  {
    ToLowerAppend(w1, query);
    ToLowerAppend(w1 + query, w2);
    forall i | 0 <= i < |w1| ensures IsSpace(ToLower(w1)[i]) {
      LowerCharKeepsSpace(w1[i]);
    }
    forall i | 0 <= i < |w2| ensures IsSpace(ToLower(w2)[i]) {
      LowerCharKeepsSpace(w2[i]);
    }
    StripSurroundingSpace(ToLower(w1), ToLower(query), ToLower(w2));
  }

  /** Queries that differ only in letter case are normalised alike. */
  lemma NormalizeIgnoresCase(s: string, t: string)
    requires EqualIgnoringCase(s, t)
    ensures Normalize(s) == Normalize(t)
  {
    assert ToLower(s) == ToLower(t);
  }

  /** Appending a normalised query that is not yet known keeps the history
      duplicate-free and normalised. */
  lemma RememberNewQuery(history: seq<string>, q: string)
    requires Remembered(history)
    requires q !in history && Normalize(q) == q
    ensures Remembered(history + [q])
  {
    AppendKeepsDistinct(history, q);
    AppendFixedPoint(Normalize, history, q);
  }

  /** A new element appended to distinct elements gives distinct elements. */
  lemma AppendKeepsDistinct(s: seq<string>, x: string)
    requires NoDuplicates(s) && x !in s
    ensures NoDuplicates(s + [x])
  {
    var t := s + [x];
    assert forall i :: 0 <= i < |s| ==> t[i] == s[i];
    assert t[|s|] == x;
  }

  /** A fixed point appended to fixed points gives fixed points. */
  lemma AppendFixedPoint(f: string -> string, s: seq<string>, x: string)
    requires FixedPoints(f, s) && f(x) == x
    ensures FixedPoints(f, s + [x])
  {
    var t := s + [x];
    assert forall i :: 0 <= i < |s| ==> t[i] == s[i];
    assert t[|s|] == x;
  }

  // ----- the reply table -----

  /** What the matcher relies on in a reply table: the repeated bucket exists,
      every bucket has a reply to draw (so `random.choice` never fails), and the
      sentinel is no bucket's reply (so comparing with it tells a hit from a miss). */
  ghost predicate WellFormedTable(table: map<string, seq<string>>)
  {
    RepeatedKey in table &&
    (forall k :: k in table ==> |table[k]| > 0) &&
    (forall k, r :: k in table && r in table[k] ==> r != Sentinel)
  }

  /** A repeat is never answered from an ordinary phrase's bucket. */
  ghost predicate RepeatedBucketIsDistinct(table: map<string, seq<string>>)
    requires RepeatedKey in table
  {
    forall k, r :: k in table && k != RepeatedKey && r in table[k] ==> r !in table[RepeatedKey]
  }

  /** The source's table is well formed. */
  lemma FriendlyResponsesWellFormed()
    ensures WellFormedTable(FriendlyResponses)
  {
  }

  /** In the source's table no ordinary phrase shares a reply with the repeated bucket. */
  lemma FriendlyResponsesDistinct()
    ensures RepeatedKey in FriendlyResponses
    ensures RepeatedBucketIsDistinct(FriendlyResponses)
  {
  }

  /**
    The process-wide `user_history` list and the function that consults and
    grows it.
   */
  class CasualMatcher {
    /** The reply table the matcher answers from: `friendly_responses`. */
    const friendlyResponses: map<string, seq<string>>
    var userHistory: seq<string>

    /** The table is well formed and the history holds normalised queries,
        each at most once. */
    ghost predicate Valid()
      reads this
    {
      WellFormedTable(friendlyResponses) && Remembered(userHistory)
    }

    /** The process starts with the source's table and an empty history. */
    constructor ()
      ensures Valid()
      ensures friendlyResponses == FriendlyResponses && userHistory == []
    {
      FriendlyResponsesWellFormed();
      friendlyResponses := FriendlyResponses;
      userHistory := [];
    }

    /**
      `get_friendly_response`: normalise the query, ask the matcher for the best
      key, and above the threshold answer from the repeated bucket (a known
      query) or from the matched key's bucket (a new query, which is then
      remembered); otherwise answer with the sentinel. The reply is any member
      of the bucket, standing for `random.choice`.
     */
    method GetFriendlyResponse(userQuery: string, extractOne: string -> MatchResult) returns (reply: string)
      requires Valid() && ValidMatcher(extractOne, friendlyResponses)
      modifies this
      ensures Valid()
      ensures old(userHistory) <= userHistory
      ensures var q := Normalize(userQuery);
              var m := extractOne(q);
              (m.score <= Threshold ==>
                 reply == Sentinel && userHistory == old(userHistory)) &&
              (m.score > Threshold && q in old(userHistory) ==>
                 reply in friendlyResponses[RepeatedKey] && userHistory == old(userHistory)) &&
              (m.score > Threshold && q !in old(userHistory) ==>
                 reply in friendlyResponses[m.key] && userHistory == old(userHistory) + [q])
      ensures reply != Sentinel <==> extractOne(Normalize(userQuery)).score > Threshold
    {
      var query := Normalize(userQuery);
      var m := extractOne(query);
      if m.score > Threshold {
        if query in userHistory {
          assert friendlyResponses[RepeatedKey][0] in friendlyResponses[RepeatedKey];
          reply :| reply in friendlyResponses[RepeatedKey];
          return;
        }
        NormalizeIdempotent(userQuery);
        RememberNewQuery(userHistory, query);
        userHistory := userHistory + [query];
        assert friendlyResponses[m.key][0] in friendlyResponses[m.key];
        reply :| reply in friendlyResponses[m.key];
        return;
      }
      reply := Sentinel;
    }
  }

  /** Two identical casual queries in one process: the second is answered from
      the repeated bucket and, for an ordinary phrase, never from that phrase's
      own bucket. */
  method RepeatedQuery(c: CasualMatcher, userQuery: string, extractOne: string -> MatchResult)
      returns (first: string, second: string)
    requires c.Valid() && ValidMatcher(extractOne, c.friendlyResponses)
    requires RepeatedBucketIsDistinct(c.friendlyResponses)
    requires extractOne(Normalize(userQuery)).score > Threshold
    modifies c
    ensures c.Valid()
    ensures Normalize(userQuery) !in old(c.userHistory) ==>
              first in c.friendlyResponses[extractOne(Normalize(userQuery)).key]
    ensures second in c.friendlyResponses[RepeatedKey]
    ensures extractOne(Normalize(userQuery)).key != RepeatedKey ==>
              second !in c.friendlyResponses[extractOne(Normalize(userQuery)).key]
  {
    first := c.GetFriendlyResponse(userQuery, extractOne);
    second := c.GetFriendlyResponse(userQuery, extractOne);
  }
}
