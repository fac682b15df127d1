/**
  * The canned replies the chat server gives instead of calling the model
  * (`get_redirect_message` in travel_planner/helpers.py): a short acknowledgement for a
  * thank-you message, a longer redirect listing the five supported topics otherwise, each
  * with and without a selected location.
  */
module Redirect {
  import opened Text
  import opened Wrappers

  const ThankYouPhrases: seq<string> := ["thank you", "thanks", "thx", "appreciate"]

  /** Some thank-you phrase occurs anywhere in the lower-cased, stripped message. */
  predicate IsThankYou(message: string) {
    var text := PyStrip(Lower(message));
    exists p | p in ThankYouPhrases :: Contains(text, p)
  }

  /** Python truthiness of the location argument: present and not the empty string. */
  predicate IsSet(location: Option<string>) {
    location.Some? && location.value != ""
  }

  /** The opening shared by both acknowledgements. */
  const Welcome: string := "You're welcome! "

  function ThanksWithLocation(location: string): string {
    Welcome + "Feel free to ask me anything else about your " + location + " trip."
  }

  const ThanksWithoutLocation: string :=
    Welcome + "Select a destination and I'll help you plan your trip."

  /** The five topics of the located redirect, one bullet per line. */
  const LocatedTopics: string :=
    "I can help with:\n- Creating day-by-day itineraries\n- Budget planning\n- Attraction recommendations\n- Best time to visit\n- Practical travel tips\n\n"

  /** The five topics of the generic redirect, one bullet per line. */
  const GenericTopics: string :=
    "\n\n- Itineraries and what to do\n- Budget and costs\n- Attractions and places to visit\n- Best time to travel\n- Travel logistics and tips\n\n"

  const LocatedOpening: string := "I'm here to help you plan your "
  const LocatedQuestion: string := " trip! What would you like to know?\n\n"
  const AspectOpening: string := "What aspect of your "
  const AspectClosing: string := " trip would you like help with?"

  function AspectQuestion(location: string): string {
    AspectOpening + location + AspectClosing
  }

  function RedirectWithLocation(location: string): string {
    LocatedOpening + (location + (LocatedQuestion + (LocatedTopics + AspectQuestion(location))))
  }

  const GenericOpening: string := "I'm your travel planning assistant! "

  const RedirectWithoutLocation: string :=
    GenericOpening + "Please select a destination first, then ask me about:"
    + GenericTopics
    + "Which destination would you like to explore?"

  /** The reply chosen by the thank-you test and the location. */
  function Reply(thanks: bool, location: Option<string>): string {
    if thanks then
      if IsSet(location) then ThanksWithLocation(location.value) else ThanksWithoutLocation
    else
      if IsSet(location) then RedirectWithLocation(location.value) else RedirectWithoutLocation
  }

  /**
    * `get_redirect_message(location, user_message)`: an acknowledgement exactly for a
    * thank-you message, naming the location whenever one is set.
    */
  function RedirectMessage(location: Option<string>, message: string): (reply: string)
    ensures StartsWith(reply, Welcome) <==> IsThankYou(message)
    ensures IsSet(location) ==> Contains(reply, location.value)
  {
    ThanksAcknowledged(location);
    RedirectIsNoAcknowledgement(location);
    if IsSet(location) then
      LocatedRedirect(location);
      Reply(IsThankYou(message), location)
    else
      Reply(IsThankYou(message), location)
  }

  /** The redirects open differently from the acknowledgement. */
  lemma RedirectIsNoAcknowledgement(location: Option<string>)
    ensures !StartsWith(Reply(false, location), Welcome)
  {
    assert Welcome[0] == 'Y';
    if IsSet(location) {
      assert LocatedOpening[0] == 'I';
      assert RedirectWithLocation(location.value)[0] == LocatedOpening[0];
    } else {
      assert GenericOpening[0] == 'I';
      assert RedirectWithoutLocation[0] == GenericOpening[0];
    }
  }

  /** A thank-you message gets an acknowledgement that names the location when one is set. */
  lemma ThanksAcknowledged(location: Option<string>)
    ensures StartsWith(Reply(true, location), Welcome)
    ensures IsSet(location) ==> Contains(Reply(true, location), location.value)
    ensures !IsSet(location) ==> Reply(true, location) == ThanksWithoutLocation
  {
    if IsSet(location) {
      ContainsInfix(Welcome + "Feel free to ask me anything else about your ",
                    location.value, " trip.");
    }
  }

  /**
    * Any other message with a location set gets the five located topics and names the
    * location twice: right after the opening, and again in the closing question after the
    * topic list.
    */
  lemma LocatedRedirect(location: Option<string>)
    requires IsSet(location)
    ensures Contains(Reply(false, location), LocatedTopics)
    ensures OccursAt(Reply(false, location), location.value, |LocatedOpening|)
    ensures OccursAt(Reply(false, location), location.value,
      |LocatedOpening| + |location.value| + |LocatedQuestion| + |LocatedTopics| + |AspectOpening|)
  {
    Mentions(LocatedOpening, location.value, LocatedQuestion, LocatedTopics, AspectOpening,
             AspectClosing);
  }

  /** Where the parts of `o + (x + (q + (t + (a + x + c))))` sit, for any text in each part. */
  lemma Mentions(o: string, x: string, q: string, t: string, a: string, c: string)
    ensures Contains(o + (x + (q + (t + (a + x + c)))), t)
    ensures OccursAt(o + (x + (q + (t + (a + x + c)))), x, |o|)
    ensures OccursAt(o + (x + (q + (t + (a + x + c)))), x, |o| + |x| + |q| + |t| + |a|)
  {
    var fromTopics := t + (a + x + c);
    var fromQuestion := q + fromTopics;
    var fromLocation := x + fromQuestion;
    // the first mention
    OccursAtFront(x, fromQuestion);
    OccursShift(o, fromLocation, x, 0);
    // the topic list
    OccursAtFront(t, a + x + c);
    OccursShift(q, fromTopics, t, 0);
    OccursShift(x, fromQuestion, t, |q|);
    OccursShift(o, fromLocation, t, |x| + |q|);
    // the second mention
    OccursInfix(a, x, c);
    OccursShift(t, a + x + c, x, |a|);
    OccursShift(q, fromTopics, x, |t| + |a|);
    OccursShift(x, fromQuestion, x, |q| + |t| + |a|);
    OccursShift(o, fromLocation, x, |x| + |q| + |t| + |a|);
  }

  /** Any other message without a location gets the generic topics. */
  lemma GenericRedirect()
    ensures Contains(Reply(false, None), GenericTopics)
    ensures Reply(false, None) == Reply(false, Some(""))
  {
    ContainsInfix(
      GenericOpening + "Please select a destination first, then ask me about:",
      GenericTopics, "Which destination would you like to explore?");
  }

  /**
    * Two messages with the same thank-you status get the same reply, and the four templates
    * are the only replies there are.
    */
  lemma RedirectIgnoresWording(location: Option<string>, m1: string, m2: string)
    requires IsThankYou(m1) == IsThankYou(m2)
    ensures RedirectMessage(location, m1) == RedirectMessage(location, m2)
    ensures IsSet(location) ==>
      || RedirectMessage(location, m1) == ThanksWithLocation(location.value)
      || RedirectMessage(location, m1) == RedirectWithLocation(location.value)
    ensures !IsSet(location) ==>
      || RedirectMessage(location, m1) == ThanksWithoutLocation
      || RedirectMessage(location, m1) == RedirectWithoutLocation
  {
  }
}
