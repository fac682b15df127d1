# Travel planner chat: message routing and reply formatting

A Dafny model of the deterministic core of a travel-planning chat assistant.

The server side is `travel_planner/helpers.py`. Every chat message passes a **travel gate**
(`is_travel_query`). A message the gate rejects gets a **canned reply**
(`get_redirect_message`): a short thank-you acknowledgement, or a redirect that lists the
topics the assistant covers. Each reply has a variant with a selected destination and one
without. A message the gate admits goes to a **completion service** (`chat_with_groq`). The
request holds a **system prompt**, then the conversation history, then the message. The
system prompt (`build_system_prompt`) is rendered from the destination's database document
(`get_location_context`), or is a fixed generic prompt when there is no document. Two
helpers go with this: a **query-type classifier** (`analyze_query_type`) and a **trip-length
extractor** (`extract_duration`, the regular expression `(\d+)\s*-?\s*day`).

The browser side is `travel_planner/static/script.js`. It keeps the **conversation
history** (`sendMessage`, `clearChat`). It formats each reply as HTML (`formatMarkdown`): it
escapes the text, groups bullet lines into `<ul>` lists, turns newlines into `<br>` and wraps
prices in cost badges. It also picks a **weather icon** for a WMO weather code
(`getWeatherIcon`).

Modules, one per file:

- `Wrappers`: `Option`.
- `Text`: ASCII case mapping, Python's and JavaScript's whitespace, `strip`/`trim`, substring
  tests, and `split('\n')`/`join` with their round trips.
- `Classifier`, `Duration`, `Gate`, `Redirect`, `Locations`, `Prompt`, `Router`: helpers.py.
- `Markdown`, `WeatherIcons`, `ChatSession`: script.js.

The completion service is an oracle. `Router.CompletionClient` holds a pure function from
request to outcome, and it records every request it is sent. "The service is not called" is
then a statement about that record. Ratings and budget amounts are JSON numbers that the
server only interpolates into text, so the model keeps them as the strings Python prints.

Behaviour of the code worth knowing, which the model keeps:

- A classifier score counts the keywords of a category that occur in the message. It does not
  count occurrences.
- The chat route rejects only the empty message, not a whitespace-only one. Such a message
  still never reaches the model, because the gate rejects it (`Gate.BlankMessageRejected`).
- `TEMPERATURE` is read from the environment but never used. Every request carries 0.3.
- `"great"` is a casual phrase, but it contains the travel keyword `"eat"`, so the gate admits
  it (`Gate.GreatContainsEat`, `Gate.CasualPhraseWithKeywordIsAdmitted`).
- The browser appends the message to its history before posting it. The router then appends
  the message again, so the service sees the newest message twice (`ChatSession.Exchange`).

## Model

| member | source | states |
|---|---|---|
| Classifier.Score | travel_planner/helpers.py:138-145 | a category's score is at most the length of its keyword list, and it is 0 exactly when none of the keywords occurs in the lower-cased message |
| Classifier.ScoreCountsDistinctHits | travel_planner/helpers.py:138-145 | for a duplicate-free keyword list, the score equals the number of distinct keywords found in the message |
| Classifier.HitsOfAppend | travel_planner/helpers.py:138-145 | the keywords found in a list with one more keyword are those found before plus the new one when it occurs |
| Classifier.KeywordListsAreDuplicateFree | travel_planner/helpers.py:119-134 | none of the six keyword lists repeats a keyword, so each score counts distinct keywords |
| Classifier.Scores | travel_planner/helpers.py:137-145 | there are six scores, in the order itinerary, budget, attraction, time, practical, activity, and each is bounded by its list's length |
| Classifier.FirstMaxIndex | travel_planner/helpers.py:150 | the index chosen holds the maximum score, and every earlier index holds a strictly smaller one (Python `max` keeps the first maximum) |
| Classifier.Choose | travel_planner/helpers.py:147-150 | the result is `general` exactly when all six scores are 0; otherwise it is the first category with the maximum score, and that score is positive |
| Classifier.AnalyzeQueryType | travel_planner/helpers.py:114-150 | the result is `general` exactly when no category has a keyword in the lower-cased message; otherwise it is the first category, in the dict's order, with the highest count, and that count is positive (a tie goes to the earlier category) |
| Classifier.TieGoesToEarlierCategory | travel_planner/helpers.py:150 | when two categories tie for the maximum, the later one is never chosen |
| Classifier.ClassifiedTypeHasHits | travel_planner/helpers.py:114-150 | the result is one of the seven tags, and any tag other than `general` has at least one of its keywords in the lower-cased message |
| Duration.SpaceRunEnd | travel_planner/helpers.py:156 | `\s*` taken greedily: every character skipped is Python whitespace, and the next one is not |
| Duration.SeparatorThenDayGivesSplit | travel_planner/helpers.py:156 | when the greedy scan of `\s*-?\s*day` succeeds, the text splits as whitespace, an optional `-`, whitespace and `day` |
| Duration.SplitGivesSeparatorThenDay | travel_planner/helpers.py:156 | any such split makes the greedy scan succeed, since `\s` never matches `-` or `d` |
| Duration.SeparatorThenDayIsSplit | travel_planner/helpers.py:156 | the greedy scan of `\s*-?\s*day` after the digits succeeds exactly when the text there splits as whitespace, an optional `-`, whitespace and `day` |
| Duration.RegexGroupIsDigitRun | travel_planner/helpers.py:156 | in any match starting at a digit, the group `(\d+)` is the whole run of digits there |
| Duration.MatchStartsAtIsRegexMatch | travel_planner/helpers.py:156 | the scan's test at a position succeeds exactly when the regular expression matches there, and then the group is the full digit run |
| Duration.NoneMeansNoMatch | travel_planner/helpers.py:156-159 | when the scan from a position finds nothing, no match starts at or after it |
| Duration.FirstMatchPosition | travel_planner/helpers.py:156-159 | when the scan from a position finds a match, it is at the first position from there where a match starts, and the value is that match's digits |
| Duration.ExtractFromSome | travel_planner/helpers.py:156-159 | a found value is the digit value of the first match at or after the position |
| Duration.ExtractFromIsFirstMatch | travel_planner/helpers.py:156-159 | scanning from a position returns nothing exactly when no match starts at or after it, and otherwise the value of the first match |
| Duration.RegexMatchStarts | travel_planner/helpers.py:156 | a match of the regular expression starts inside the text at a position where the scan's test succeeds |
| Duration.ScanNone | travel_planner/helpers.py:156-159 | a scan of the whole text that finds nothing means the regular expression matches nowhere |
| Duration.ScanSome | travel_planner/helpers.py:156-159 | a scan of the whole text that finds a value returns the leftmost match's group value |
| Duration.ScanFindsLeftmostMatch | travel_planner/helpers.py:156-159 | the scan of a whole text finds nothing exactly when the regular expression matches nowhere, and otherwise the leftmost match's group value |
| Duration.ExtractDuration | travel_planner/helpers.py:153-159 | `extract_duration` is `None` exactly when `(\d+)\s*-?\s*day` does not match the lower-cased message, and otherwise the integer value of the leftmost match's digits |
| Duration.NoDigitsNoMatch | travel_planner/helpers.py:156-159 | a text without digits has no duration |
| Duration.SkipNonDigits | travel_planner/helpers.py:156-159 | the scan passes over positions without a digit, since `(\d+)` cannot start there |
| Duration.HyphenScan | travel_planner/helpers.py:156-159 | the scan of "plan a 5-day trip" gives 5 |
| Duration.ExampleHyphen | travel_planner/helpers.py:153-159 | "Plan a 5-day trip" gives 5 |
| Duration.ExampleGlued | travel_planner/helpers.py:153-159 | "3day tour" gives 3 |
| Duration.ExampleUpperCase | travel_planner/helpers.py:153-159 | "3 DAYS" gives 3 |
| Duration.ExampleNone | travel_planner/helpers.py:153-159 | "Plan a trip" gives `None` |
| Gate.IsTravelQuery | travel_planner/helpers.py:162-214 | only a message that is at least 5 characters long once lower-cased and stripped can pass, and every such message containing a travel keyword does |
| Gate.Admits | travel_planner/helpers.py:167-214 | on the stripped, lower-cased text: fewer than 5 characters is rejected; otherwise a travel keyword admits, whatever the casual test says; otherwise a text is admitted exactly when it is not casual and has at least 8 characters |
| Gate.BlankMessageRejected | travel_planner/helpers.py:164-168 | a message made only of whitespace normalises to the empty text and is rejected |
| Gate.InsertingTravelKeywordAdmits | travel_planner/helpers.py:199-207 | inserting a travel keyword anywhere into a text of at least 5 characters makes the gate admit it, so adding a keyword never turns admit into reject |
| Gate.CasualPhraseWithKeywordIsAdmitted | travel_planner/helpers.py:199-207 | a message whose normal form is a casual phrase of at least 5 characters that contains a travel keyword is casual and yet admitted |
| Gate.GreatIsNormal | travel_planner/helpers.py:164 | "great" is unchanged by lower-casing and stripping |
| Gate.GreatContainsEat | travel_planner/helpers.py:171-197 | "great" is in the casual list and contains the travel keyword "eat", so with `Gate.CasualPhraseWithKeywordIsAdmitted` the gate admits it |
| Redirect.RedirectMessage | travel_planner/helpers.py:217-233 | the reply opens with "You're welcome! " exactly when the message contains a thank-you phrase, and it names the location whenever one is set |
| Redirect.ThanksAcknowledged | travel_planner/helpers.py:223-227 | the reply to a thank-you message starts with "You're welcome! "; it names the location when one is set, and is the fixed location-free acknowledgement otherwise |
| Redirect.RedirectIsNoAcknowledgement | travel_planner/helpers.py:229-233 | neither redirect opens like the acknowledgement |
| Redirect.LocatedRedirect | travel_planner/helpers.py:230-231 | any other message with a location set gets the five-topic list, with the location named right after the opening and again in the closing question |
| Redirect.GenericRedirect | travel_planner/helpers.py:232-233 | any other message without a location gets the generic five-topic list, and an empty location counts as no location |
| Redirect.RedirectIgnoresWording | travel_planner/helpers.py:217-233 | two messages with the same thank-you status get the same reply, and the reply is one of the two templates for the location state: acknowledgement or redirect, with the location when one is set and without otherwise |
| Locations.Lookup | travel_planner/helpers.py:105-111 | the result is `None` exactly when no key equals the name up to case; otherwise it is the document of the first such key in insertion order |
| Locations.GetLocationContext | travel_planner/helpers.py:105-111 | the early-return loop over the table returns `Lookup` of the name; the table is a value, so it is left unchanged |
| Locations.LookupIgnoresCase | travel_planner/helpers.py:109 | names that agree after lower-casing select the same document |
| Locations.LookupFindsKey | travel_planner/helpers.py:108-110 | looking a key up by its own name always finds a document |
| Prompt.RenderLitHole | travel_planner/helpers.py:252-393 | a template line made of text and one field renders to the text followed by the field's value |
| Prompt.RenderLitHoleLit | travel_planner/helpers.py:252-393 | a line of text, one field and text renders to the three pieces in order |
| Prompt.RenderHole | travel_planner/helpers.py:274-284 | a line that is only a field renders to the field's value |
| Prompt.TemplateLineOccurs | travel_planner/helpers.py:252-393 | every line of a template occurs, rendered, in the rendered template |
| Prompt.LocatedLineShows | travel_planner/helpers.py:252-393 | every line of the located template, rendered with the document's values, occurs in the located prompt |
| Prompt.ExpertiseLine | travel_planner/helpers.py:252-285 | the destination's data lines come after the 17 header and rule lines of the prompt |
| Prompt.FormattingLine | travel_planner/helpers.py:365-393 | the formatting rules come after 113 lines of the prompt |
| Prompt.LitHoleLitAt | travel_planner/helpers.py:252-393 | a located template line made of text, one field and text occurs with the field's value |
| Prompt.CurrencyRuleLine | travel_planner/helpers.py:373 | the eighth formatting rule is the currency rule with the cost currency as its field |
| Prompt.PromptShowsBestTime | travel_planner/helpers.py:280 | the located prompt shows the best time to visit, `N/A` when missing |
| Prompt.PromptShowsCurrency | travel_planner/helpers.py:281 | the located prompt shows the currency, `N/A` when missing |
| Prompt.PromptShowsLanguage | travel_planner/helpers.py:282 | the located prompt shows the language, `N/A` when missing |
| Prompt.PromptShowsCostCurrency | travel_planner/helpers.py:373 | the cost rule names the currency, `USD` when missing |
| Prompt.BuildSystemPrompt | travel_planner/helpers.py:236-420 | a truthy document gets the located prompt, which starts with the role and the upper-cased location name; anything else gets the generic prompt, which starts with the role and no destination |
| Prompt.LocatedHeader | travel_planner/helpers.py:252 | the located template's first line, rendered, opens the text with the assistant's role and the upper-cased location name (empty when the document has none) |
| Prompt.PromptShowsFacts | travel_planner/helpers.py:280-282 | the located prompt shows the best time to visit, the currency and the language, each `N/A` when missing, and the cost rule names the currency, `USD` when missing (line 373) |
| Prompt.PromptShowsAttractionBlock | travel_planner/helpers.py:239-240 | the whole attractions text, one `- {name}: {description} (Rating: {rating})` line per attraction in stored order (`N/A` for a missing rating, nothing without attractions), occurs in the located prompt |
| Prompt.PromptShowsTipBlock | travel_planner/helpers.py:241 | the whole tips text, one `- {tip}` line per tip in stored order, occurs in the located prompt |
| Prompt.PromptListsAttraction | travel_planner/helpers.py:238-240 | every attraction's line occurs in the located prompt |
| Prompt.PromptListsTip | travel_planner/helpers.py:241 | every tip's line occurs in the located prompt |
| Prompt.AttractionBlockLines | travel_planner/helpers.py:239-240 | when names, descriptions and ratings have no newline, the attraction block splits back into exactly the attraction lines, in order |
| Prompt.BudgetBlockOccurs | travel_planner/helpers.py:244-250 | every line of the budget block occurs, rendered, in the located prompt |
| Prompt.PromptShowsBudgetLow | travel_planner/helpers.py:246 | the low daily amount appears, `N/A` when missing |
| Prompt.PromptShowsBudgetMid | travel_planner/helpers.py:247 | the mid daily amount appears, `N/A` when missing |
| Prompt.PromptShowsBudgetHigh | travel_planner/helpers.py:248 | the high daily amount appears, `N/A` when missing |
| Prompt.PromptShowsBudgetNotes | travel_planner/helpers.py:249 | the budget notes appear, `N/A` when missing |
| Prompt.PromptShowsBudget | travel_planner/helpers.py:242-250 | the three daily amounts and the notes appear in the prompt, each `N/A` when missing or when there is no budget object |
| Prompt.EmptyDocumentGetsGenericPrompt | travel_planner/helpers.py:394-420 | an empty document, like a missing one, gets the fixed generic prompt |
| Router.CompletionClient.constructor | travel_planner/helpers.py:23-25 | a client configured with a model, a token limit and a service, that has sent nothing yet |
| Router.CompletionClient.Create | travel_planner/helpers.py:437-442 | one call appends the request to the record and returns the service's outcome for it |
| Router.BuildMessages | travel_planner/helpers.py:434-435 | one user turn per history item, in order, then the message as the last user turn |
| Router.ChatWithGroq | travel_planner/helpers.py:423-446 | a rejected message gets the redirect for the document's location, and no request is sent; an admitted one sends exactly one request (system prompt, history as user turns in order, message last), and its reply is the outcome's text or the error text |
| WeatherIcons.WeatherIcon | travel_planner/static/script.js:277-305 | the icon is never empty, and every code the server has no description for gets the default icon |
| WeatherIcons.TableCoversDescribedCodes | travel_planner/static/script.js:278-303 | the icon table lists exactly the weather codes the server has descriptions for |
| WeatherIcons.DefaultIconCases | travel_planner/static/script.js:277-304 | the default icon is shown exactly for unlisted codes, and for code 1 by day, whose icon is the same |
| WeatherIcons.OnlyClearSkyDependsOnDaylight | travel_planner/static/script.js:279-280 | only codes 0 and 1 get a different icon by day and by night |
| Markdown.ReplaceChar | travel_planner/static/script.js:147-149 | a global one-character replacement leaves no occurrence of the character when the replacement does not contain it, and introduces no other character |
| Markdown.EscapeHtml | travel_planner/static/script.js:147-149 | the escaped text contains no `<` and no `>` |
| Markdown.ReplaceCharAppend | travel_planner/static/script.js:147-149 | the replacement works piece by piece over a concatenation |
| Markdown.ReplaceCharAbsent | travel_planner/static/script.js:147-149 | text without the character is unchanged |
| Markdown.EscapeHtmlAppend | travel_planner/static/script.js:147-149 | escaping works piece by piece over a concatenation |
| Markdown.EscapeHtmlChar | travel_planner/static/script.js:147-149 | escaping one character gives its entity, or the character itself |
| Markdown.EscapeIsCharwise | travel_planner/static/script.js:147-149 | the three chained replacements, `&` first, equal escaping each character on its own, so no entity is escaped twice |
| Markdown.UnescapeOfEscape | travel_planner/static/script.js:147-149 | decoding the three entities gives back the original text |
| Markdown.UnescapeStep | travel_planner/static/script.js:147-149 | decoding one character's entity followed by more text gives back the character first |
| Markdown.UnescapeOfEscapeEach | travel_planner/static/script.js:147-149 | the character-by-character escaping is undone by decoding |
| Markdown.EscapeOfPlain | travel_planner/static/script.js:147-149 | text without `&`, `<` and `>` is unchanged |
| Markdown.EntityIsEscapedAgain | travel_planner/static/script.js:147 | entity text already in the reply gets its `&` escaped again |
| Markdown.Grouped | travel_planner/static/script.js:164-189 | the output has as many lines as the input, plus an opening and a closing tag per maximal run of bullet lines, plus the closing tag of a list already open |
| Markdown.EmitLine | travel_planner/static/script.js:169-184 | one pass of the loop body appends exactly what the grouping emits for the line, and the new `inList` is whether the line is a bullet |
| Markdown.GroupBullets | travel_planner/static/script.js:164-189 | the line loop with its `inList` flag builds exactly `Grouped(lines, false)`, the line-by-line grouping that closes a list still open at the end |
| Markdown.ItemIsItemLine | travel_planner/static/script.js:176 | each bullet becomes a line that starts with `<li>` |
| Markdown.FilterAppend | travel_planner/static/script.js:164-189 | keeping the lines of a concatenation that pass a test keeps them part by part |
| Markdown.FilterEmitText | travel_planner/static/script.js:169-184 | of one line's output only the line itself is text, and only when it is not a bullet |
| Markdown.FilterEmitItems | travel_planner/static/script.js:169-184 | of one line's output only the item is an item line, and only when the line is a bullet |
| Markdown.TextLinesKept | travel_planner/static/script.js:178-184 | the output's non-tag lines are exactly the input's non-bullet lines, verbatim and in order |
| Markdown.ItemsInOrder | travel_planner/static/script.js:169-177 | the output's item lines are `<li>` + the trimmed bullet without its first two characters + `</li>`, one per bullet line, in order |
| Markdown.GroupedIsWellFormed | travel_planner/static/script.js:164-189 | when no kept line looks like a tag, every `<ul>` is followed by items and a `</ul>`, items appear only inside a list, lists never nest and none is left open |
| Markdown.SplitLinesAvoid | travel_planner/static/script.js:164 | a character absent from the text is absent from each line of its split |
| Markdown.EscapedLinesAreText | travel_planner/static/script.js:147-189 | after escaping, no line looks like a tag, so the grouping of an escaped reply is well formed |
| Markdown.LineBreaks | travel_planner/static/script.js:194 | text without newlines is unchanged, and a text not starting with a newline keeps its first character |
| Markdown.NewlinesOnlyBeforeTags | travel_planner/static/script.js:194 | every newline left after the `<br>` pass is directly followed by `<` |
| Markdown.PriceLength | travel_planner/static/script.js:197 | the match at a `$` followed by a digit has at least two characters and lies within the text |
| Markdown.PriceBound | travel_planner/static/script.js:197 | every prefix matching `\$\d+(?:-\d+)?` ends within the greedy match |
| Markdown.DashedPriceBound | travel_planner/static/script.js:197 | a prefix matching the dashed form `\$\d+-\d+` ends within the greedy match |
| Markdown.PriceIsLongestMatch | travel_planner/static/script.js:197 | the greedy match is a string of `\$\d+(?:-\d+)?`, and no longer prefix is one |
| Markdown.NoPriceHere | travel_planner/static/script.js:197 | where `$` is not followed by a digit, no prefix matches the price pattern |
| Markdown.NoDollarNoBadge | travel_planner/static/script.js:197 | text without `$` gets no badge |
| Markdown.NextPrice | travel_planner/static/script.js:197 | the first position from a start where a price can begin, or the end of the text, with no price beginning in between |
| Markdown.BadgesCopyUpTo | travel_planner/static/script.js:197 | up to where the first price begins, the text is copied unchanged |
| Markdown.PriceHasNoAngle | travel_planner/static/script.js:197 | a matched price contains no `<` |
| Markdown.NoTagAtFront | travel_planner/static/script.js:197 | text that does not contain a tag whose only `<` is its first character cannot start with that tag once badges are inserted |
| Markdown.UnwrapOfBadges | travel_planner/static/script.js:197 | removing the badge tags gives back the text whenever the text contains neither tag itself (it may contain other markup, such as the `<br>`, `<ul>` and `<li>` of the earlier passes), so what the pass adds is badge tags and nothing else; where they go is stated by `Markdown.CostBadgesWrapEveryPrice` |
| Markdown.CostBadges | travel_planner/static/script.js:197 | text without `$` is unchanged, and removing the badge tags gives back the text whenever it contains neither tag itself; that each price is wrapped is `Markdown.CostBadgesWrapEveryPrice` |
| Markdown.PriceHasNoInnerStart | travel_planner/static/script.js:197 | no price starts inside another price, since after its `$` a price holds only digits and `-` |
| Markdown.BadgesWrapPriceAt | travel_planner/static/script.js:197 | wherever `$` and a digit stand in the text, the left-to-right scan wraps the longest match of `\$\d+(?:-\d+)?` starting there whole, with the opening tag before it and the closing tag after it |
| Markdown.BadgesWrapFurtherOn | travel_planner/static/script.js:197 | the same, for a price in the rest of the text where the scan resumes |
| Markdown.PriceCountSkip | travel_planner/static/script.js:197 | stretches where no price starts do not change the number of prices |
| Markdown.BadgesLength | travel_planner/static/script.js:197 | the output is longer than the text by exactly one opening and one closing tag per price |
| Markdown.CostBadgesWrapEveryPrice | travel_planner/static/script.js:197 | with the real `<span class="cost-badge">` and `</span>` tags, every price in the text occurs in the output wrapped in a badge, and the output is longer than the text by exactly one badge per price |
| Markdown.BadgeTagsAreDistinct | travel_planner/static/script.js:197 | the badge's opening and closing tags both start with `<`, contain no other `<`, and differ in their second character |
| Markdown.FormatMarkdown | travel_planner/static/script.js:143-200 | the formatter applies escaping, the rewrites, the bullet grouping over the lines, the `<br>` pass and the cost badges, in that order |
| Text.Strip | travel_planner/helpers.py:164 | stripping leaves the slice of the text between all-whitespace ends, and the result neither starts nor ends with whitespace (also `trim()` at travel_planner/static/script.js:52) |
| Text.JoinOfSplit | travel_planner/static/script.js:164 | joining the lines of a split gives the text back |
| Text.SplitOfJoin | travel_planner/static/script.js:191 | splitting a join of lines without newlines gives the lines back |
| ChatSession.Conversation.constructor | travel_planner/static/script.js:7 | the history starts empty |
| ChatSession.Conversation.SendMessage | travel_planner/static/script.js:51-76 | a message that is empty once trimmed changes nothing and posts nothing; any other is appended, trimmed, to the history, and the post carries it with the whole history |
| ChatSession.Conversation.ClearChat | travel_planner/static/script.js:316-319 | the history becomes empty |
| ChatSession.PostedHistoryEndsWithMessage | travel_planner/static/script.js:64-76 | the posted history is the earlier history followed by the message itself |
| ChatSession.Exchange | travel_planner/app.py:22-35 | requests already sent are kept; a blank message sends nothing and gets no reply; a message the gate rejects sends nothing and gets the redirect for the selected destination; an admitted message sends one request, opened by the destination's system prompt, whose last two turns are both the message, and gets the service's reply |

## Left out

- File and network I/O: loading the database from JSON (`load_locations_from_json`), the weather service (`get_real_time_weather`), the scraper (`travel_planner/scraper.py`), and the routes and JSON marshalling of `travel_planner/app.py`. `ChatSession.Exchange` keeps only the chat route's lookup of the selected destination.
- The completion SDK and its configuration, read from the environment. The model name and token limit are constructor parameters of `Router.CompletionClient`. `TEMPERATURE` is unused.
- The DOM, `fetch`, the clipboard, timers and the loading indicator in script.js. The reply the browser shows is not modelled.
- `getTempColor`: it compares floating-point temperatures.
- Markdown.FormatMarkdown: the header, bold and italic rewrites are not modelled, because they rely on lazy quantifiers and on `\s` matching newlines across lines. They are the parameter `emphasis`, applied where the source applies them.
- Markdown.GroupedIsWellFormed: it assumes that no kept line looks like a list tag. Escaped text meets this (`Markdown.EscapedLinesAreText`), but lines made by the header, bold and italic rewrites are not covered.
- Floating-point numbers: ratings and budget amounts are the strings Python prints for them, and the temperature is the constant 0.3.
- Unicode: lower-casing, upper-casing and `\d` are ASCII, and whitespace is each language's exact set (Python's `str.isspace`, JavaScript's `trim`). Weather icons are sequences of Unicode scalar values, not of UTF-16 code units.
- Documents that break the server: an attraction without a name or description (Python raises `KeyError`), and JSON `null` or non-string values where text is expected.
- History items are strings. The browser never posts anything else.
- Duration.ExtractDuration: the result is an unbounded natural number. Python's `int` is unbounded too, so nothing is lost.
