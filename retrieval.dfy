/**
  Verse retrieval: the corpus is ranked twice, lexically and semantically, and
  the entry at the semantic ranking's first maximum wins. The rankings
  themselves are computed by foreign numeric libraries and enter the model as
  one score per corpus entry.
 */
module Retrieval {

  /** A corpus entry: each field name it carries, mapped to its text. */
  type Entry = map<string, string>

  /** Rendered in place of a field the selected entry does not carry. */
  const Missing: string := "N/A"

  /** `i` is where `scores` first reaches its maximum. */
  predicate IsFirstMax(scores: seq<int>, i: int)
  {
    0 <= i < |scores| &&
    (forall j :: 0 <= j < |scores| ==> scores[j] <= scores[i]) &&
    (forall j :: 0 <= j < i ==> scores[j] < scores[i])
  }

  /** `argmax()` over a score vector: the first index of the largest score. */
  function ArgMax(scores: seq<int>): (i: nat)
    requires |scores| > 0
    ensures IsFirstMax(scores, i)
  {
    if |scores| == 1 then 0
    else
      var k := ArgMax(scores[..|scores| - 1]);
      if scores[|scores| - 1] > scores[k] then |scores| - 1 else k
  }

  /** The first maximum is unique, so the chosen index is determined by the scores. */
  lemma FirstMaxUnique(scores: seq<int>, i: int, j: int)
    requires IsFirstMax(scores, i) && IsFirstMax(scores, j)
    ensures i == j
  {
    assert scores[i] == scores[j];
  }

  /** `entry.get(name, "N/A")`. */
  function Field(entry: Entry, name: string): (v: string)
    ensures name in entry ==> v == entry[name]
    ensures name !in entry ==> v == Missing
  {
    if name in entry then entry[name] else Missing
  }

  /**
    The entry the pipeline answers with. Both rankings are taken, as in the
    source, but the lexical winner is discarded: the result is the entry at
    the first maximum of the semantic scores.
   */
  function SelectEntry(corpus: seq<Entry>, lexicalScores: seq<int>, semanticScores: seq<int>): (best: Entry)
    requires |corpus| > 0 && |lexicalScores| == |corpus| && |semanticScores| == |corpus|
    ensures exists i :: IsFirstMax(semanticScores, i) && best == corpus[i]
  {
    var bestMatchIdx := ArgMax(lexicalScores);
    var bestSemanticMatchIdx := ArgMax(semanticScores);
    corpus[bestSemanticMatchIdx]
  }

  /** The lexical scores never change which entry is selected. */
  lemma SelectionIgnoresLexical(corpus: seq<Entry>, lexical1: seq<int>, lexical2: seq<int>, semanticScores: seq<int>)
    requires |corpus| > 0 && |semanticScores| == |corpus|
    requires |lexical1| == |corpus| && |lexical2| == |corpus|
    ensures SelectEntry(corpus, lexical1, semanticScores) == SelectEntry(corpus, lexical2, semanticScores)
  {
  }

  /** A one-entry corpus always answers with that entry. */
  lemma SingleEntryCorpus(entry: Entry, lexicalScores: seq<int>, semanticScores: seq<int>)
    requires |lexicalScores| == 1 && |semanticScores| == 1
    ensures SelectEntry([entry], lexicalScores, semanticScores) == entry
  {
  }
}
