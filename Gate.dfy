/**
  * The travel gate of the chat server (`is_travel_query` in travel_planner/helpers.py):
  * decides whether a message reaches the language model. It works on the lower-cased,
  * stripped text: too short rejects, a travel keyword (any substring) admits, a casual
  * phrase (whole text, leading words or trailing words) rejects, and otherwise only texts of
  * at least eight characters are admitted.
  */
module Gate {
  import opened Text

  /** The casual phrases, in the source's groups. */
  const Thanks: seq<string> := ["thank you", "thanks", "thx"]
  const Greetings: seq<string> := ["hello", "hi", "hey"]
  const Farewells: seq<string> := ["bye", "goodbye", "see you"]
  const Reactions: seq<string> := ["ok", "okay", "sure", "cool", "nice", "great", "awesome"]
  const Politeness: seq<string> := ["sorry", "please"]
  const SmallTalk: seq<string> := ["how are you", "what's up"]
  const Laughter: seq<string> := ["lol", "haha"]

  const CasualPhrases: seq<string> :=
    Thanks + Greetings + Farewells + Reactions + Politeness + SmallTalk + Laughter

  /** The travel keywords, line by line as the source lists them. */
  const PlanningWords: seq<string> :=
    ["trip", "visit", "travel", "plan", "itinerary", "day", "days", "budget", "cost"]
  const ServiceWords: seq<string> :=
    ["attraction", "hotel", "restaurant", "food", "eat", "transport", "train"]
  const LogisticsWords: seq<string> :=
    ["flight", "taxi", "bus", "weather", "season", "when", "where"]
  const ActivityWords: seq<string> :=
    ["what to do", "what to see", "best", "place", "places", "activity", "adventure"]
  const StayWords: seq<string> :=
    ["accommodation", "stay", "tour", "guide", "explore", "discover"]
  const SightWords: seq<string> :=
    ["temple", "museum", "beach", "mountain", "culture", "language"]
  const ScheduleWords: seq<string> :=
    ["itinerary", "schedule", "agenda", "things to do", "must see", "must-see"]

  const TravelKeywords: seq<string> :=
    PlanningWords + ServiceWords + LogisticsWords + ActivityWords + StayWords + SightWords
    + ScheduleWords

  /** `user_message.lower().strip()`. */
  function Normalize(message: string): string {
    PyStrip(Lower(message))
  }

  /** The whole text is a casual phrase, or starts with one plus a space, or ends with a
    * space plus one. */
  predicate IsCasual(text: string) {
    exists p | p in CasualPhrases ::
      text == p || StartsWith(text, p + " ") || EndsWith(text, " " + p)
  }

  predicate HasTravelKeyword(text: string) {
    exists k | k in TravelKeywords :: Contains(text, k)
  }

  /**
    * `is_travel_query`. Only a message that normalises to at least five characters can pass,
    * and every such message with a travel keyword does.
    */
  predicate IsTravelQuery(message: string)
    ensures IsTravelQuery(message) ==> |Normalize(message)| >= 5
    ensures |Normalize(message)| >= 5 && HasTravelKeyword(Normalize(message)) ==>
      IsTravelQuery(message)
  {
    Admits(Normalize(message))
  }

  /**
    * The decision of `is_travel_query` on the normalised text, tests in the source's order.
    * As a table: a text of fewer than five characters is rejected; otherwise a travel keyword
    * admits whatever the casual test says; otherwise a casual text is rejected; otherwise the
    * text is admitted exactly when it has at least eight characters.
    */
  predicate Admits(text: string)
    ensures Admits(text) <==>
      |text| >= 5 && (HasTravelKeyword(text) || (!IsCasual(text) && |text| >= 8))
  {
    if |text| < 5 then false
    else if IsCasual(text) && !HasTravelKeyword(text) then false
    else if HasTravelKeyword(text) then true
    else if |text| < 8 && !HasTravelKeyword(text) then false
    else true
  }

  /** A message made only of whitespace (or empty) never reaches the model. */
  lemma BlankMessageRejected(message: string)
    requires forall i :: 0 <= i < |message| ==> PyIsSpace(message[i])
    ensures Normalize(message) == []
    ensures !IsTravelQuery(message)
  {
    var lowered := Lower(message);
    assert forall i :: 0 <= i < |lowered| ==> PyIsSpace(lowered[i]);
  }

  /**
    * A travel keyword overrides everything but the length test: inserting any travel
    * keyword anywhere into a normalised text of at least five characters gives a text the
    * gate admits, whatever casual phrase it also carries. So adding a keyword never turns
    * an admitted text into a rejected one.
    */
  lemma InsertingTravelKeywordAdmits(text: string, keyword: string, at: nat)
    requires keyword in TravelKeywords
    requires |text| >= 5 && at <= |text|
    ensures Admits(text[..at] + keyword + text[at..])
  {
    ContainsInfix(text[..at], keyword, text[at..]);
    assert text[..at] + text[at..] == text;
  }

  /**
    * A message that normalises to a casual phrase containing a travel keyword is admitted:
    * the keyword test wins over the casual test, and it matches substrings, not words.
    * "great" is such a phrase (`GreatIsNormal`, `GreatContainsEat`).
    */
  lemma CasualPhraseWithKeywordIsAdmitted(message: string)
    requires Normalize(message) in CasualPhrases && |Normalize(message)| >= 5
    requires HasTravelKeyword(Normalize(message))
    ensures IsCasual(Normalize(message))
    ensures IsTravelQuery(message)
  {
  }

  /** "great" is already normalised. */
  lemma GreatIsNormal()
    ensures Normalize("great") == "great"
  {
    assert Lower("great") == "great";
    StripOfStripped("great", PyIsSpace);
  }

  /** "great" is a casual phrase and contains the travel keyword "eat". */
  lemma GreatContainsEat()
    ensures "great" in CasualPhrases
    ensures HasTravelKeyword("great")
  {
    var great, eat := Reactions[5], ServiceWords[4];
    assert great == "great" && eat == "eat";
    assert great in CasualPhrases && eat in TravelKeywords;
    assert OccursAt(great, eat, 2);
  }
}
