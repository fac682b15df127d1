/**
  * The system prompt the chat server sends ahead of the conversation
  * (`build_system_prompt` in travel_planner/helpers.py).
  *
  * With a truthy location document the prompt is a fixed multi-line text with the document's
  * fields interpolated; it is written here as a template: a list of lines, each a list of
  * literal pieces and holes, so that what the prompt shows can be proved about the holes
  * without unfolding the text. Without one it is a fixed generic prompt.
  */
module Prompt {
  import opened Text
  import opened Wrappers
  import opened Locations

  /** What a hole of the template shows. */
  datatype Field =
    | LocationName | LocationUpper | AttractionsBlock | TipsBlock
    | BestTime | Currency | Language | CostCurrency
    | BudgetBlock | BudgetLow | BudgetMid | BudgetHigh | BudgetNotes

  datatype Part = Lit(text: string) | Hole(field: Field)

  // ---------------------------------------------------------------- rendering

  function RenderPart(p: Part, env: Field -> string): string {
    match p
    case Lit(text) => text
    case Hole(f) => env(f)
  }

  /** One line of the template with every hole filled in. */
  function RenderLine(line: seq<Part>, env: Field -> string): string {
    if line == [] then "" else RenderPart(line[0], env) + RenderLine(line[1..], env)
  }

  function RenderLines(template: seq<seq<Part>>, env: Field -> string): (lines: seq<string>)
    ensures |lines| == |template|
    ensures forall k :: 0 <= k < |template| ==> lines[k] == RenderLine(template[k], env)
  {
    seq(|template|, k requires 0 <= k < |template| => RenderLine(template[k], env))
  }

  /** The f-string: the rendered lines joined by newlines. */
  function Render(template: seq<seq<Part>>, env: Field -> string): string {
    JoinLines(RenderLines(template, env))
  }

  // ---------------------------------------------------------------- the templates

  /** The opening of the located prompt's first line, before the upper-cased destination. */
  const RoleOpening: string := "You are a professional TRAVEL PLANNING ASSISTANT SPECIALIZED IN "

  /** `budget_text`: a blank line, a heading, the three daily amounts and the notes. */
  const BudgetTemplate: seq<seq<Part>> := [
    [],
    [Lit("BUDGET REFERENCE FOR "), Hole(LocationUpper), Lit(":")],
    [Lit("- Budget Low: $"), Hole(BudgetLow), Lit("/day (hostels, street food, free attractions)")],
    [Lit("- Budget Mid: $"), Hole(BudgetMid), Lit("/day (mid-range hotels, local restaurants, paid attractions)")],
    [Lit("- Budget High: $"), Hole(BudgetHigh), Lit("/day (luxury hotels, fine dining, premium experiences)")],
    [Lit("- Notes: "), Hole(BudgetNotes)],
    []
  ]

  /** The header and the behaviour rules. */
  const RulesSection: seq<seq<Part>> := [
    [Lit(RoleOpening), Hole(LocationUpper), Lit(".")],
    [],
    [Lit("IMPORTANT BEHAVIOR RULES:")],
    [Lit("1. NEVER respond to casual greetings like \"thanks\", \"hi\", \"hello\", \"ok\", \"cool\"")],
    [Lit("2. NEVER say things like \"You're welcome!\" or \"Can I help with anything else?\"")],
    [Lit("3. NEVER engage in chitchat or small talk")],
    [Lit("4. ALWAYS redirect non-travel messages back to travel planning")],
    [Lit("5. FOCUS EXCLUSIVELY on travel-related assistance for "), Hole(LocationName)],
    [],
    [Lit("IF USER SENDS CASUAL MESSAGE (thanks, hello, hi, ok, great, cool, etc.):")],
    [Lit("RESPOND WITH: \"I'm here to help you plan your "), Hole(LocationName), Lit(" trip! What would you like to know? I can help with itineraries, budgets, attractions, and travel tips.\"")],
    [],
    [Lit("IF USER SENDS OFF-TOPIC MESSAGE:")],
    [Lit("RESPOND WITH: \"Let's focus on your "), Hole(LocationName), Lit(" trip! What aspect would you like help with? Itinerary planning, budget, attractions, or practical travel tips?\"")],
    [],
    [Lit("ONLY provide detailed responses to ACTUAL TRAVEL QUERIES.")],
    []
  ]

  /** The destination's own data: attractions, tips, facts and budget. */
  const ExpertiseSection: seq<seq<Part>> := [
    [Hole(LocationUpper), Lit(" EXPERTISE:")],
    [],
    [Lit("Location: "), Hole(LocationName)],
    [],
    [Lit("ATTRACTIONS IN "), Hole(LocationUpper), Lit(":")],
    [Hole(AttractionsBlock)],
    [],
    [Lit("TRAVEL TIPS FOR "), Hole(LocationUpper), Lit(":")],
    [Hole(TipsBlock)],
    [],
    [Lit("LOCATION FACTS:")],
    [Lit("- Best Time to Visit: "), Hole(BestTime)],
    [Lit("- Currency: "), Hole(Currency)],
    [Lit("- Language: "), Hole(Language)],
    [],
    [Hole(BudgetBlock)],
    []
  ]

  /** The responsibilities and how to answer each query type. */
  const GuideSection: seq<seq<Part>> := [
    [Lit("YOUR RESPONSIBILITIES:")],
    [Lit("1. ANALYZE the user's query carefully")],
    [Lit("2. IF NOT TRAVEL-RELATED: Redirect politely to travel planning")],
    [Lit("3. IF TRAVEL-RELATED: Provide detailed, structured information")],
    [Lit("4. PROVIDE specific details from the location database")],
    [Lit("5. FORMAT all responses using structured lists")],
    [],
    [Lit("QUERY TYPE HANDLING:")],
    [],
    [Lit("TYPE 1: ITINERARY REQUEST (keywords: plan, itinerary, days, schedule, what to do)")],
    [Lit("ACTION: Create day-by-day itinerary")],
    [Lit("FORMAT:")],
    [Lit("Day 1: [Title describing main theme/focus]")],
    [Lit("- Morning (8:00 AM): [Specific attraction/activity with brief description]")],
    [Lit("- Afternoon (1:00 PM): [Specific attraction/activity with brief description]")],
    [Lit("- Evening (6:00 PM): [Specific attraction/activity with brief description]")],
    [Lit("- Meals: [Suggested cuisine type or restaurant style]")],
    [Lit("- Day total cost: $XX-YY")],
    [],
    [Lit("TYPE 2: BUDGET QUESTION (keywords: budget, cost, price, how much, expensive)")],
    [Lit("ACTION: Provide detailed cost breakdown")],
    [Lit("FORMAT:")],
    [Lit("Budget Analysis for [number] Days in "), Hole(LocationName), Lit(":")],
    [Lit("- Accommodation: $XX/night \U{D7} [days] = $XXX total")],
    [Lit("- Food: $XX/day \U{D7} [days] = $XXX total")],
    [Lit("- Transportation: $XX/day \U{D7} [days] = $XXX total")],
    [Lit("- Activities: $XX/day \U{D7} [days] = $XXX total")],
    [Lit("- TOTAL ESTIMATED COST: $XXX-XXX")],
    [],
    [Lit("Budget Tips:")],
    [Lit("- [Money-saving tip 1]")],
    [Lit("- [Money-saving tip 2]")],
    [],
    [Lit("TYPE 3: ATTRACTION QUESTION (keywords: attraction, visit, place, spot, must-see, best places)")],
    [Lit("ACTION: Describe attractions with practical details")],
    [Lit("FORMAT:")],
    [Lit("[Attraction Name]:")],
    [Lit("- What: Brief description of what it is")],
    [Lit("- Why Visit: Why it's worth going")],
    [Lit("- Best Time: When to visit (time of day/season)")],
    [Lit("- Duration: How long to spend (XX minutes/hours)")],
    [Lit("- Cost: Entry fee or price range ($XX)")],
    [Lit("- Accessibility: How to get there")],
    [Lit("- Insider Tip: One practical advice for visiting")],
    [],
    [Lit("TYPE 4: TIME/SEASON QUESTION (keywords: when, best time, season, weather, climate)")],
    [Lit("ACTION: Explain seasonal information")],
    [Lit("FORMAT:")],
    [Lit("Best Time to Visit "), Hole(LocationName), Lit(":")],
    [Lit("- Ideal Season: [Season name and months]")],
    [Lit("  Weather: [Description]")],
    [Lit("  Crowds: [Crowd level]")],
    [Lit("  Price: [Relative cost]")],
    [Lit("  Why Visit: [Reasons]")],
    [],
    [Lit("- Alternative Season: [Season name and months]")],
    [Lit("  Weather: [Description]")],
    [Lit("  Avoid: [Why to avoid if applicable]")],
    [],
    [Lit("TYPE 5: PRACTICAL QUESTION (keywords: transport, food, language, culture, tips)")],
    [Lit("ACTION: Provide practical travel information")],
    [Lit("FORMAT:")],
    [Lit("[Topic - e.g., Transportation/Food/Language]:")],
    [Lit("- [Specific advice 1]: [Details]")],
    [Lit("- [Specific advice 2]: [Details]")],
    [Lit("- [Specific advice 3]: [Details]")],
    [],
    [Lit("Important Notes:")],
    [Lit("- [Key practical tip]")],
    [Lit("- [Safety or cultural consideration]")],
    [],
    [Lit("TYPE 6: ACTIVITY/INTEREST QUESTION (keywords: adventure, relax, family, couple, beach, hiking)")],
    [Lit("ACTION: Recommend activities matching interests")],
    [Lit("FORMAT:")],
    [Lit("[Interest Type] Activities in "), Hole(LocationName), Lit(":")],
    [Lit("- [Activity 1]: [Description, duration, cost, location]")],
    [Lit("- [Activity 2]: [Description, duration, cost, location]")],
    [Lit("- [Activity 3]: [Description, duration, cost, location]")],
    []
  ]

  /** The formatting rules, when to ask for details, and the quality checklist. */
  const FormattingSection: seq<seq<Part>> := [
    [Lit("CRITICAL FORMATTING RULES:")],
    [Lit("1. ALWAYS use headers with colons (Day 1:, Accommodation:, Attraction Name:)")],
    [Lit("2. ALWAYS use bullet points with hyphens (-) for lists")],
    [Lit("3. ALWAYS include specific numbers (prices, times, ratings, distances)")],
    [Lit("4. KEEP bullet points short (1-2 lines maximum)")],
    [Lit("5. SEPARATE sections with blank lines")],
    [Lit("6. NEVER write long paragraphs - use structured lists only")],
    [Lit("7. REFERENCE attractions from the database provided above")],
    [Lit("8. INCLUDE costs in the specified currency ("), Hole(CostCurrency), Lit(")")],
    [Lit("9. PROVIDE estimated duration for each activity")],
    [Lit("10. ASK clarifying questions if details are missing (number of days, budget level, travel style)")],
    [],
    [Lit("WHEN TO ASK CLARIFYING QUESTIONS:")],
    [Lit("- If itinerary request doesn't specify number of days: \"How many days will you be in "), Hole(LocationName), Lit("?\"")],
    [Lit("- If budget question doesn't specify duration: \"How many days are you planning to stay?\"")],
    [Lit("- If activity question doesn't specify interest type: \"What type of activities interest you? (adventure, relaxation, culture, family-friendly, etc.)\"")],
    [Lit("- If query is vague: Ask for 1-2 clarifying details, then provide response")],
    [],
    [Lit("RESPONSE QUALITY CHECKLIST:")],
    [Lit("\U{2713} Matches user's query type exactly")],
    [Lit("\U{2713} Uses only attractions from the database")],
    [Lit("\U{2713} Includes specific numbers and costs")],
    [Lit("\U{2713} Formatted with headers and bullet points")],
    [Lit("\U{2713} Practical and actionable information")],
    [Lit("\U{2713} Appropriate for "), Hole(LocationName), Lit(" specifically")],
    [Lit("\U{2713} No generic travel advice - only "), Hole(LocationName), Lit("-specific")],
    [],
    [Lit("Be professional, helpful, and SPECIFIC to "), Hole(LocationName), Lit(". ")],
    [Lit("Never provide generic travel advice. Always reference the location database.")]
  ]

  const LocationTemplate: seq<seq<Part>> :=
    RulesSection + ExpertiseSection + GuideSection + FormattingSection

  /** The prompt used when there is no location document. */
  const GenericLines: seq<string> := [
    "You are a professional TRAVEL PLANNING ASSISTANT.",
    "",
    "ANALYZE USER QUERIES and respond with appropriate travel information.",
    "",
    "QUERY TYPES:",
    "- Itinerary: Create day-by-day plans",
    "- Budget: Provide cost breakdowns",
    "- Attractions: Describe places to visit",
    "- Best Time: Explain seasonal info",
    "- Practical: Give travel logistics advice",
    "- Activities: Recommend based on interests",
    "",
    "RESPONSE FORMAT:",
    "[Header]:",
    "- Item 1: Details",
    "- Item 2: Details",
    "",
    "RULES:",
    "1. Use headers with colons",
    "2. Use bullet points with hyphens",
    "3. Include specific numbers",
    "4. Keep items short (max 2 lines)",
    "5. Never write paragraphs",
    "6. Ask clarifying questions if needed",
    "",
    "Be professional and helpful."
  ]

  // ---------------------------------------------------------------- the values

  /** `- {name}: {description} (Rating: {rating})`, the rating defaulting to `N/A`. */
  function AttractionLine(a: Attraction): string {
    "- " + a.name + ": " + a.description + " (Rating: " + a.rating.GetOr("N/A") + ")"
  }

  function AttractionLines(attractions: seq<Attraction>): (lines: seq<string>)
    ensures |lines| == |attractions|
    ensures forall k :: 0 <= k < |attractions| ==> lines[k] == AttractionLine(attractions[k])
  {
    seq(|attractions|, k requires 0 <= k < |attractions| => AttractionLine(attractions[k]))
  }

  function TipLines(tips: seq<string>): (lines: seq<string>)
    ensures |lines| == |tips|
    ensures forall k :: 0 <= k < |tips| ==> lines[k] == "- " + tips[k]
  {
    seq(|tips|, k requires 0 <= k < |tips| => "- " + tips[k])
  }

  const NoBudget: Budget := Budget(None, None, None, None)

  /** Every field but the budget block; `.get(key, default)` for each key. */
  function PlainValue(r: LocationRecord, f: Field): string {
    var budget := r.budget.GetOr(NoBudget);
    match f
    case LocationName => r.location.GetOr("")
    case LocationUpper => Upper(r.location.GetOr(""))
    case AttractionsBlock => JoinLines(AttractionLines(r.attractions.GetOr([])))
    case TipsBlock => JoinLines(TipLines(r.tips.GetOr([])))
    case BestTime => r.bestTimeToVisit.GetOr("N/A")
    case Currency => r.currency.GetOr("N/A")
    case Language => r.language.GetOr("N/A")
    case CostCurrency => r.currency.GetOr("USD")
    case BudgetBlock => ""
    case BudgetLow => budget.low.GetOr("N/A")
    case BudgetMid => budget.mid.GetOr("N/A")
    case BudgetHigh => budget.high.GetOr("N/A")
    case BudgetNotes => budget.notes.GetOr("N/A")
  }

  function FieldValue(r: LocationRecord, f: Field): string {
    if f == BudgetBlock then Render(BudgetTemplate, f' => PlainValue(r, f')) else PlainValue(r, f)
  }

  function Env(r: LocationRecord): Field -> string {
    f => FieldValue(r, f)
  }

  /**
    * `build_system_prompt(location_context)`: with a truthy document, the located prompt,
    * whose first line names the destination in upper case (empty when the document has
    * none); otherwise the generic prompt, whose first line names no destination.
    */
  function BuildSystemPrompt(ctx: Option<LocationRecord>): (prompt: string)
    ensures IsTruthy(ctx) ==>
      StartsWith(prompt, RoleOpening + Upper(ctx.value.location.GetOr("")) + ".")
    ensures !IsTruthy(ctx) ==>
      StartsWith(prompt, "You are a professional TRAVEL PLANNING ASSISTANT.")
  {
    if IsTruthy(ctx) then
      LocatedHeader(ctx.value);
      Render(LocationTemplate, Env(ctx.value))
    else
      JoinStartsWithFirst(GenericLines);
      JoinLines(GenericLines)
  }

  // ---------------------------------------------------------------- what the prompt shows

  lemma RenderLitHole(a: string, f: Field, env: Field -> string)
    ensures RenderLine([Lit(a), Hole(f)], env) == a + env(f)
  {
    var line := [Lit(a), Hole(f)];
    assert line[1..] == [Hole(f)] && [Hole(f)][1..] == [];
    assert RenderLine([Hole(f)], env) == env(f) + "";
    assert RenderLine(line, env) == a + RenderLine([Hole(f)], env);
    assert env(f) + "" == env(f);
  }

  lemma RenderLitHoleLit(a: string, f: Field, b: string, env: Field -> string)
    ensures RenderLine([Lit(a), Hole(f), Lit(b)], env) == a + env(f) + b
  {
    var line := [Lit(a), Hole(f), Lit(b)];
    assert line[1..] == [Hole(f), Lit(b)] && [Hole(f), Lit(b)][1..] == [Lit(b)];
    assert [Lit(b)][1..] == [];
    assert RenderLine([Lit(b)], env) == b + "";
    assert b + "" == b;
    assert RenderLine([Hole(f), Lit(b)], env) == env(f) + b;
    assert RenderLine(line, env) == a + (env(f) + b);
  }

  /** Every line of a template, rendered, occurs in the rendered template. */
  lemma TemplateLineOccurs(template: seq<seq<Part>>, env: Field -> string, k: nat)
    requires k < |template|
    ensures Contains(Render(template, env), RenderLine(template[k], env))
  {
    JoinContainsLine(RenderLines(template, env), k);
  }

  /** Line `k` of the located template, rendered with the document's values, is in the prompt. */
  lemma LocatedLineShows(r: LocationRecord, k: nat)
    requires IsTruthy(Some(r)) && k < |LocationTemplate|
    ensures Contains(BuildSystemPrompt(Some(r)), RenderLine(LocationTemplate[k], Env(r)))
  {
    TemplateLineOccurs(LocationTemplate, Env(r), k);
  }

  /** Where the expertise section sits in the located template. */
  lemma ExpertiseLine(k: nat)
    requires k < |ExpertiseSection|
    ensures |RulesSection| == 17 && 17 + k < |LocationTemplate|
    ensures LocationTemplate[17 + k] == ExpertiseSection[k]
  {
  }

  /** Where the formatting section sits in the located template. */
  lemma FormattingLine(k: nat)
    requires k < |FormattingSection|
    ensures |RulesSection| + |ExpertiseSection| + |GuideSection| == 113
    ensures 113 + k < |LocationTemplate| && LocationTemplate[113 + k] == FormattingSection[k]
  {
  }

  /** Line `k` of the located template is text, one field and text. */
  lemma LitHoleLitAt(r: LocationRecord, k: nat, a: string, f: Field, b: string)
    requires IsTruthy(Some(r)) && f != BudgetBlock
    requires k < |LocationTemplate| && LocationTemplate[k] == [Lit(a), Hole(f), Lit(b)]
    ensures Contains(BuildSystemPrompt(Some(r)), a + PlainValue(r, f) + b)
  {
    LocatedLineShows(r, k);
    RenderLitHoleLit(a, f, b, Env(r));
  }

  /** The currency rule, by its place in the located template. */
  lemma CurrencyRuleLine()
    ensures 121 < |LocationTemplate|
    ensures LocationTemplate[121]
      == [Lit("8. INCLUDE costs in the specified currency ("), Hole(CostCurrency), Lit(")")]
  {
    FormattingLine(8);
  }

  lemma PromptShowsBestTime(r: LocationRecord)
    requires IsTruthy(Some(r))
    ensures Contains(BuildSystemPrompt(Some(r)), "- Best Time to Visit: " + r.bestTimeToVisit.GetOr("N/A"))
  {
    ExpertiseLine(11);
    assert ExpertiseSection[11] == [Lit("- Best Time to Visit: "), Hole(BestTime)];
    LocatedLineShows(r, 28);
    RenderLitHole("- Best Time to Visit: ", BestTime, Env(r));
  }

  lemma PromptShowsCurrency(r: LocationRecord)
    requires IsTruthy(Some(r))
    ensures Contains(BuildSystemPrompt(Some(r)), "- Currency: " + r.currency.GetOr("N/A"))
  {
    ExpertiseLine(12);
    assert ExpertiseSection[12] == [Lit("- Currency: "), Hole(Currency)];
    LocatedLineShows(r, 29);
    RenderLitHole("- Currency: ", Currency, Env(r));
  }

  lemma PromptShowsLanguage(r: LocationRecord)
    requires IsTruthy(Some(r))
    ensures Contains(BuildSystemPrompt(Some(r)), "- Language: " + r.language.GetOr("N/A"))
  {
    ExpertiseLine(13);
    assert ExpertiseSection[13] == [Lit("- Language: "), Hole(Language)];
    LocatedLineShows(r, 30);
    RenderLitHole("- Language: ", Language, Env(r));
  }

  lemma PromptShowsCostCurrency(r: LocationRecord)
    requires IsTruthy(Some(r))
    ensures Contains(BuildSystemPrompt(Some(r)),
      "8. INCLUDE costs in the specified currency (" + r.currency.GetOr("USD") + ")")
  {
    CurrencyRuleLine();
    LitHoleLitAt(r, 121, "8. INCLUDE costs in the specified currency (", CostCurrency, ")");
  }

  /** The destination's facts, each with its `N/A` default, and the cost currency, defaulting to `USD`. */
  lemma PromptShowsFacts(r: LocationRecord)
    requires IsTruthy(Some(r))
    ensures Contains(BuildSystemPrompt(Some(r)), "- Best Time to Visit: " + r.bestTimeToVisit.GetOr("N/A"))
    ensures Contains(BuildSystemPrompt(Some(r)), "- Currency: " + r.currency.GetOr("N/A"))
    ensures Contains(BuildSystemPrompt(Some(r)), "- Language: " + r.language.GetOr("N/A"))
    ensures Contains(BuildSystemPrompt(Some(r)),
      "8. INCLUDE costs in the specified currency (" + r.currency.GetOr("USD") + ")")
  {
    PromptShowsBestTime(r);
    PromptShowsCurrency(r);
    PromptShowsLanguage(r);
    PromptShowsCostCurrency(r);
  }

  lemma RenderHole(f: Field, env: Field -> string)
    ensures RenderLine([Hole(f)], env) == env(f)
  {
    assert [Hole(f)][1..] == [];
    assert env(f) + "" == env(f);
  }

  /** The first line of the located template names the destination in upper case. */
  lemma LocatedHeader(r: LocationRecord)
    ensures StartsWith(Render(LocationTemplate, Env(r)),
      RoleOpening + Upper(r.location.GetOr("")) + ".")
  {
    var env := Env(r);
    var first := [Lit(RoleOpening), Hole(LocationUpper), Lit(".")];
    assert LocationTemplate[0] == RulesSection[0] == first;
    RenderLitHoleLit(RoleOpening, LocationUpper, ".", env);
    JoinStartsWithFirst(RenderLines(LocationTemplate, env));
  }

  /** The attractions text, one line per attraction in the document's order, sits in the
    * prompt whole. */
  lemma PromptShowsAttractionBlock(r: LocationRecord)
    requires IsTruthy(Some(r))
    ensures Contains(BuildSystemPrompt(Some(r)), JoinLines(AttractionLines(r.attractions.GetOr([]))))
  {
    ExpertiseLine(5);
    assert ExpertiseSection[5] == [Hole(AttractionsBlock)];
    LocatedLineShows(r, 22);
    RenderHole(AttractionsBlock, Env(r));
  }

  /** The tips text, one line per tip in the document's order, sits in the prompt whole. */
  lemma PromptShowsTipBlock(r: LocationRecord)
    requires IsTruthy(Some(r))
    ensures Contains(BuildSystemPrompt(Some(r)), JoinLines(TipLines(r.tips.GetOr([]))))
  {
    ExpertiseLine(8);
    assert ExpertiseSection[8] == [Hole(TipsBlock)];
    LocatedLineShows(r, 25);
    RenderHole(TipsBlock, Env(r));
  }

  /** Every attraction of the document is listed, as `- name: description (Rating: r)`. */
  lemma PromptListsAttraction(r: LocationRecord, k: nat)
    requires IsTruthy(Some(r)) && r.attractions.Some? && k < |r.attractions.value|
    ensures Contains(BuildSystemPrompt(Some(r)), AttractionLine(r.attractions.value[k]))
  {
    var block := JoinLines(AttractionLines(r.attractions.value));
    PromptShowsAttractionBlock(r);
    JoinContainsLine(AttractionLines(r.attractions.value), k);
    ContainsTransitive(BuildSystemPrompt(Some(r)), block, AttractionLine(r.attractions.value[k]));
  }

  /** Every tip of the document is listed, as `- tip`. */
  lemma PromptListsTip(r: LocationRecord, k: nat)
    requires IsTruthy(Some(r)) && r.tips.Some? && k < |r.tips.value|
    ensures Contains(BuildSystemPrompt(Some(r)), "- " + r.tips.value[k])
  {
    var block := JoinLines(TipLines(r.tips.value));
    PromptShowsTipBlock(r);
    JoinContainsLine(TipLines(r.tips.value), k);
    ContainsTransitive(BuildSystemPrompt(Some(r)), block, "- " + r.tips.value[k]);
  }

  /** The budget block sits in the prompt, as rendered from its own template. */
  lemma BudgetBlockOccurs(r: LocationRecord, k: nat)
    requires IsTruthy(Some(r)) && k < |BudgetTemplate|
    ensures Contains(BuildSystemPrompt(Some(r)), RenderLine(BudgetTemplate[k], f => PlainValue(r, f)))
  {
    var budgetEnv := f => PlainValue(r, f);
    var block := Render(BudgetTemplate, budgetEnv);
    ExpertiseLine(15);
    assert ExpertiseSection[15] == [Hole(BudgetBlock)];
    LocatedLineShows(r, 32);
    RenderHole(BudgetBlock, Env(r));
    assert Env(r)(BudgetBlock) == block;
    TemplateLineOccurs(BudgetTemplate, budgetEnv, k);
    ContainsTransitive(BuildSystemPrompt(Some(r)), block, RenderLine(BudgetTemplate[k], budgetEnv));
  }

  lemma PromptShowsBudgetLow(r: LocationRecord)
    requires IsTruthy(Some(r))
    ensures Contains(BuildSystemPrompt(Some(r)), "- Budget Low: $" + r.budget.GetOr(NoBudget).low.GetOr("N/A")
      + "/day (hostels, street food, free attractions)")
  {
    assert BudgetTemplate[2] == [Lit("- Budget Low: $"), Hole(BudgetLow),
      Lit("/day (hostels, street food, free attractions)")];
    BudgetBlockOccurs(r, 2);
    RenderLitHoleLit("- Budget Low: $", BudgetLow, "/day (hostels, street food, free attractions)",
      f => PlainValue(r, f));
  }

  lemma PromptShowsBudgetMid(r: LocationRecord)
    requires IsTruthy(Some(r))
    ensures Contains(BuildSystemPrompt(Some(r)), "- Budget Mid: $" + r.budget.GetOr(NoBudget).mid.GetOr("N/A")
      + "/day (mid-range hotels, local restaurants, paid attractions)")
  {
    assert BudgetTemplate[3] == [Lit("- Budget Mid: $"), Hole(BudgetMid),
      Lit("/day (mid-range hotels, local restaurants, paid attractions)")];
    BudgetBlockOccurs(r, 3);
    RenderLitHoleLit("- Budget Mid: $", BudgetMid,
      "/day (mid-range hotels, local restaurants, paid attractions)", f => PlainValue(r, f));
  }

  lemma PromptShowsBudgetHigh(r: LocationRecord)
    requires IsTruthy(Some(r))
    ensures Contains(BuildSystemPrompt(Some(r)), "- Budget High: $" + r.budget.GetOr(NoBudget).high.GetOr("N/A")
      + "/day (luxury hotels, fine dining, premium experiences)")
  {
    assert BudgetTemplate[4] == [Lit("- Budget High: $"), Hole(BudgetHigh),
      Lit("/day (luxury hotels, fine dining, premium experiences)")];
    BudgetBlockOccurs(r, 4);
    RenderLitHoleLit("- Budget High: $", BudgetHigh,
      "/day (luxury hotels, fine dining, premium experiences)", f => PlainValue(r, f));
  }

  lemma PromptShowsBudgetNotes(r: LocationRecord)
    requires IsTruthy(Some(r))
    ensures Contains(BuildSystemPrompt(Some(r)), "- Notes: " + r.budget.GetOr(NoBudget).notes.GetOr("N/A"))
  {
    assert BudgetTemplate[5] == [Lit("- Notes: "), Hole(BudgetNotes)];
    BudgetBlockOccurs(r, 5);
    RenderLitHole("- Notes: ", BudgetNotes, f => PlainValue(r, f));
  }

  /** The three daily budgets and the notes, each defaulting to `N/A`, also when the whole
    * `budget` object is missing. */
  lemma PromptShowsBudget(r: LocationRecord)
    requires IsTruthy(Some(r))
    ensures var b := r.budget.GetOr(NoBudget);
      && Contains(BuildSystemPrompt(Some(r)),
        "- Budget Low: $" + b.low.GetOr("N/A") + "/day (hostels, street food, free attractions)")
      && Contains(BuildSystemPrompt(Some(r)),
        "- Budget Mid: $" + b.mid.GetOr("N/A") + "/day (mid-range hotels, local restaurants, paid attractions)")
      && Contains(BuildSystemPrompt(Some(r)),
        "- Budget High: $" + b.high.GetOr("N/A") + "/day (luxury hotels, fine dining, premium experiences)")
      && Contains(BuildSystemPrompt(Some(r)), "- Notes: " + b.notes.GetOr("N/A"))
  {
    PromptShowsBudgetLow(r);
    PromptShowsBudgetMid(r);
    PromptShowsBudgetHigh(r);
    PromptShowsBudgetNotes(r);
  }

  /** With no newline in the attractions' fields, the attractions block has exactly one line
    * per attraction, in the document's order. */
  lemma AttractionBlockLines(attractions: seq<Attraction>)
    requires |attractions| >= 1
    requires forall k :: 0 <= k < |attractions| ==>
      '\n' !in attractions[k].name && '\n' !in attractions[k].description
      && '\n' !in attractions[k].rating.GetOr("")
    ensures SplitLines(JoinLines(AttractionLines(attractions))) == AttractionLines(attractions)
  {
    var lines := AttractionLines(attractions);
    forall k | 0 <= k < |lines| ensures '\n' !in lines[k] {
      var a := attractions[k];
      assert '\n' !in "- " && '\n' !in ": " && '\n' !in " (Rating: " && '\n' !in ")";
      assert '\n' !in a.rating.GetOr("N/A");
    }
    SplitOfJoin(lines);
  }

  /** An empty document is falsy: it gets the generic prompt, as no document does. */
  lemma EmptyDocumentGetsGenericPrompt()
    ensures BuildSystemPrompt(Some(LocationRecord(None, None, None, None, None, None, None, 0)))
      == BuildSystemPrompt(None)
  {
  }
}
