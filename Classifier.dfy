/**
  * The query-type classifier of the chat server (`analyze_query_type` in
  * travel_planner/helpers.py): six keyword lists, one hit counter per list over the
  * lower-cased message, and the first category with the largest counter, or `General` when
  * every counter is zero.
  */
module Classifier {
  import opened Text

  datatype QueryType = Itinerary | Budget | Attraction | Time | Practical | Activity | General

  /** The scored categories, in the insertion order of the source's `query_scores` dict. */
  const ScoredTypes: seq<QueryType> := [Itinerary, Budget, Attraction, Time, Practical, Activity]

  function Keywords(t: QueryType): seq<string> {
    match t
    case Itinerary =>
      ["plan", "itinerary", "day trip", "days", "schedule", "agenda", "what should i do", "what to do"]
    case Budget =>
      ["budget", "cost", "price", "expensive", "how much", "afford", "spend", "money"]
    case Attraction =>
      ["attraction", "visit", "see", "place", "spot", "museum", "temple", "church", "monument",
       "must-see", "best places"]
    case Time =>
      ["when", "best time", "season", "weather", "climate", "rain", "hot", "cold", "month"]
    case Practical =>
      ["transport", "getting around", "taxi", "train", "bus", "flight", "food", "eat",
       "restaurant", "language", "culture", "tip"]
    case Activity =>
      ["adventure", "relax", "family", "couple", "solo", "nightlife", "beach", "hiking",
       "shopping", "dining"]
    case General => []
  }

  predicate NoDuplicates(s: seq<string>) {
    forall i, j :: 0 <= i < j < |s| ==> s[i] != s[j]
  }

  /**
    * `sum(1 for keyword in keywords if keyword in text)`: how many entries of the list occur
    * in the text. Zero exactly when none does, and never more than the list is long.
    */
  function Score(keywords: seq<string>, text: string): (n: nat)
    ensures n <= |keywords|
    ensures n == 0 <==> forall k :: 0 <= k < |keywords| ==> !Contains(text, keywords[k])
  {
    if keywords == [] then 0
    else
      var last := keywords[|keywords| - 1];
      Score(keywords[..|keywords| - 1], text) + (if Contains(text, last) then 1 else 0)
  }

  /** The keywords of a list that occur in the text, as a set. */
  function Hits(keywords: seq<string>, text: string): set<string> {
    set k | k in keywords && Contains(text, k)
  }

  lemma DropLastKeepsDistinct(keywords: seq<string>)
    requires keywords != [] && NoDuplicates(keywords)
    ensures var init := keywords[..|keywords| - 1];
      NoDuplicates(init) && keywords[|keywords| - 1] !in init
  {
    var init, last := keywords[..|keywords| - 1], keywords[|keywords| - 1];
    forall i | 0 <= i < |init| ensures init[i] != last {
      assert init[i] == keywords[i];
    }
    forall i, j | 0 <= i < j < |init| ensures init[i] != init[j] {
      assert init[i] == keywords[i] && init[j] == keywords[j];
    }
  }

  lemma HitsOfAppend(init: seq<string>, last: string, text: string)
    ensures Hits(init + [last], text)
      == Hits(init, text) + (if Contains(text, last) then {last} else {})
  {
    var extra: set<string> := if Contains(text, last) then {last} else {};
    forall k ensures k in Hits(init + [last], text) <==> k in Hits(init, text) + extra {
      assert k in init + [last] <==> k in init || k == last;
    }
  }

  /** With a duplicate-free list, the score is the number of distinct keywords that occur. */
  lemma {:induction false} ScoreCountsDistinctHits(keywords: seq<string>, text: string)
    requires NoDuplicates(keywords)
    ensures Score(keywords, text) == |Hits(keywords, text)|
  {
    if keywords != [] {
      var init, last := keywords[..|keywords| - 1], keywords[|keywords| - 1];
      assert keywords == init + [last];
      DropLastKeepsDistinct(keywords);
      ScoreCountsDistinctHits(init, text);
      HitsOfAppend(init, last, text);
      assert last !in Hits(init, text);
    }
  }

  /** None of the six source lists repeats a keyword. */
  lemma KeywordListsAreDuplicateFree(t: QueryType)
    ensures NoDuplicates(Keywords(t))
  {
    match t
    case Itinerary => ItineraryWordsAreDistinct();
    case Budget => BudgetWordsAreDistinct();
    case Attraction => AttractionWordsAreDistinct();
    case Time => TimeWordsAreDistinct();
    case Practical => PracticalWordsAreDistinct();
    case Activity => ActivityWordsAreDistinct();
    case General =>
  }

  lemma ItineraryWordsAreDistinct()
    ensures NoDuplicates(Keywords(Itinerary))
  {
  }

  lemma BudgetWordsAreDistinct()
    ensures NoDuplicates(Keywords(Budget))
  {
  }

  lemma AttractionWordsAreDistinct()
    ensures NoDuplicates(Keywords(Attraction))
  {
  }

  lemma TimeWordsAreDistinct()
    ensures NoDuplicates(Keywords(Time))
  {
  }

  lemma PracticalWordsAreDistinct()
    ensures NoDuplicates(Keywords(Practical))
  {
  }

  lemma ActivityWordsAreDistinct()
    ensures NoDuplicates(Keywords(Activity))
  {
  }

  /** The six counters of the source's `query_scores`, in dict order. */
  function Scores(message: string): (scores: seq<nat>)
    ensures |scores| == |ScoredTypes|
    ensures forall i :: 0 <= i < |scores| ==> scores[i] <= |Keywords(ScoredTypes[i])|
  {
    var text := Lower(message);
    seq(|ScoredTypes|, i requires 0 <= i < |ScoredTypes| => Score(Keywords(ScoredTypes[i]), text))
  }

  /** `k` holds a largest value, and every earlier position holds a strictly smaller one. */
  predicate IsFirstMax(scores: seq<nat>, k: int) {
    && 0 <= k < |scores|
    && (forall j :: 0 <= j < |scores| ==> scores[j] <= scores[k])
    && (forall j :: 0 <= j < k ==> scores[j] < scores[k])
  }

  /** Python's `max(d, key=d.get)`: the first key, in insertion order, with the largest value. */
  function FirstMaxIndex(scores: seq<nat>): (k: nat)
    requires |scores| > 0
    ensures IsFirstMax(scores, k)
  {
    if |scores| == 1 then 0
    else
      var k := FirstMaxIndex(scores[..|scores| - 1]);
      if scores[|scores| - 1] > scores[k] then |scores| - 1 else k
  }

  /**
    * The decision over the six counters: `'general'` when the largest counter is zero,
    * otherwise the category at the first largest counter.
    */
  function Choose(scores: seq<nat>): (t: QueryType)
    requires |scores| == |ScoredTypes|
    ensures t == General <==> forall i :: 0 <= i < |scores| ==> scores[i] == 0
    ensures t != General ==> exists k :: IsFirstMax(scores, k) && ScoredTypes[k] == t && scores[k] > 0
  {
    var k := FirstMaxIndex(scores);
    if scores[k] == 0 then General else ScoredTypes[k]
  }

  /**
    * `analyze_query_type`: `'general'` exactly when no category has a hit, otherwise the
    * first category, in the dict's order, with the highest count, which is then positive.
    */
  function AnalyzeQueryType(message: string): (t: QueryType)
    ensures t == General <==>
      forall i :: 0 <= i < |ScoredTypes| ==> Score(Keywords(ScoredTypes[i]), Lower(message)) == 0
    ensures t != General ==>
      && t in ScoredTypes
      && Score(Keywords(t), Lower(message)) > 0
      && forall i :: 0 <= i < |ScoredTypes| ==>
           Score(Keywords(ScoredTypes[i]), Lower(message)) <= Score(Keywords(t), Lower(message))
    ensures t != General ==> exists k :: IsFirstMax(Scores(message), k) && ScoredTypes[k] == t
  {
    var scores := Scores(message);
    assert forall i :: 0 <= i < |ScoredTypes| ==> scores[i] == Score(Keywords(ScoredTypes[i]), Lower(message));
    Choose(scores)
  }

  /**
    * Ties go to the earlier category: when categories i < j share the top score, the
    * result is never category j.
    */
  lemma TieGoesToEarlierCategory(scores: seq<nat>, i: nat, j: nat)
    requires |scores| == |ScoredTypes| && i < j < |scores|
    requires scores[i] == scores[j]
    requires forall l :: 0 <= l < |scores| ==> scores[l] <= scores[j]
    ensures Choose(scores) != ScoredTypes[j]
  {
    var k := FirstMaxIndex(scores);
    assert k != j;
  }

  /** The classifier returns one of the seven tags and a scored one only when it has hits. */
  lemma ClassifiedTypeHasHits(message: string)
    ensures AnalyzeQueryType(message) in ScoredTypes + [General]
    ensures AnalyzeQueryType(message) != General ==>
      exists k :: 0 <= k < |Keywords(AnalyzeQueryType(message))|
        && Contains(Lower(message), Keywords(AnalyzeQueryType(message))[k])
  {
    var scores := Scores(message);
    var t := Choose(scores);
    if t != General {
      var k :| IsFirstMax(scores, k) && ScoredTypes[k] == t && scores[k] > 0;
      assert Score(Keywords(t), Lower(message)) > 0;
    }
  }
}
