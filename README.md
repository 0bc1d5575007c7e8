# Lead qualification and CRM reconciliation, modelled in Dafny

This project models the decision logic behind the chatbot's lead handling:

- **Scoring.** `LeadScorer.calculate_score` starts from a configurable base score. It adds threshold-gated bonuses for pages visited, time on site and urgency. It subtracts a penalty when the lead looks like spam, and clamps the result to [0, 100]. The score then gives a Hot/Warm/Cold tier and a 2/24/48-hour contact window.
- **Spam and nonsense heuristics.** `_is_spam` and `_is_nonsense` decide the penalty.
- **Intent detection.** `IntentDetector.detect` counts keyword hits per team and picks the team with the most hits. Ties go to the team that comes first in the keyword table.
- **Routing.** `RoutingEngine.create_routing_payload` sets the priority from the tier and lists three actions.
- **CRM client.** `ZohoCRMClient` caches an access token. It builds the create, update, search and task payloads, and accepts only certain status codes.
- **Create or update.** `LeadCreationService.create_or_update_lead` searches by e-mail and updates the first match. Failing that, it creates the lead in a bounded retry loop with exponential back-off.

## Modules

- `wrappers.dfy`, module `Wrappers`:
  - `Option` stands for a missing dictionary key or Python's None; `GetOr` is `dict.get` with a default.
  - `Result` stands for an operation that may raise, carrying the exception's text.
- `text.dfy`, module `Text`:
  - ASCII `str.lower`;
  - `k in s` on strings;
  - `len(s.split())` with Python's whitespace set;
  - decimal rendering of integers, proved to read back to the same number.
- `lead_scoring.dfy`, module `LeadScoring`:
  - `CalculateScore` is the step-by-step imperative score and breakdown update. It is proved against the pure `RawScore`, `Clamp`, `Qualification` and `ContactWindow`.
  - `IsNonsense` and `IsSpam` are the loop-based classifiers, proved against the predicates `Nonsense` and `Spam`.
  - `Detect` holds the keyword-counting loops, proved against `IsDetection`.
  - `CreateRoutingPayload` is the priority and actions part of the routing payload.
- `crm_lead.dfy`, module `CrmLead`:
  - The class `ZohoCrmClient` holds the token cache fields and a log of the requests sent. Its methods are proved against the pure token step `TokenStep`.
  - The payload builders and status-code sets are functions.
  - The class `LeadCreationService` records the client operations it invoked and the back-off sleeps it took. Its `CreateOrUpdateLead` is proved against the pure `Reconcile`.

## How the environment enters the model

- **HTTP.** Every HTTP exchange is an input. A client method receives the clock reading `now`, the reply the token endpoint would send and the reply of its own call. It appends what it sent to `sent`.
- **Outcomes.** `CreateOrUpdateLead` receives the outcome of the search (the ids found, or an exception), of the update, and of each create attempt in turn. It needs one create outcome per attempt.
- **Ratios.** `_is_nonsense` compares floating-point ratios with 0.5 and 0.7. These are stated as exact integer comparisons: `2·special > len` and `10·count > 7·len`. For the small integers involved, the double-precision quotient lies on the same side of 0.5 and of the double nearest 0.7 as the exact quotient.
- **Confidence.** `detect`'s confidence is a real number, `min(1, count / words)`.

## The token expiry

Line 61 of `backend/python/crm_lead.py` sets `token_expiry` to the current time truncated to the minute. The comment above it says "set expiry to 55 minutes". The stored expiry is therefore never after the refresh. The cache test `token_expiry > datetime.now()` fails on every later call, so every later call goes back to the token endpoint.

- `RefreshedTokenIsAlreadyStale` proves this about the code as written.
- `IntendedTokenStep` stores the expiry 55 minutes after the refresh. `IntendedTokenCachedWithinWindow` proves that a later call is then served from the cache exactly within those 55 minutes.
- The client class keeps the behaviour as written. Nothing else uses the intended step.

## Model

| member | source | states |
|---|---|---|
| LeadScoring.IsNonsense | backend/python/lead_scoring.py:121-136 | the result is true exactly when the text is shorter than 3 characters, or more than half of it is `!@#$%^&*` and it is upper case, or one character fills more than 70% of it |
| LeadScoring.IsSpam | backend/python/lead_scoring.py:102-119 | the result is true exactly when message frequency > 0.5, message count > 20, or the requirement is nonsense, each read with its default |
| LeadScoring.Clamp | backend/python/lead_scoring.py:90-91 | the clamped score is within [0, 100], equals the input when the input is in range, and is 0 below the range and 100 above it |
| LeadScoring.Qualification | backend/python/lead_scoring.py:138-144 | Hot iff score ≥ hot threshold; Warm iff warm threshold ≤ score < hot threshold; Cold iff score is below both |
| LeadScoring.ContactWindow | backend/python/lead_scoring.py:146-152 | the window is always the one of the score's tier (Hot 2, Warm 24, Cold 48), since both use the same thresholds |
| LeadScoring.CalculateScore | backend/python/lead_scoring.py:61-100 | the score is within [0, 100] and equals clamp(base + applicable bonuses − spam penalty) and clamp(base + the breakdown's total); the breakdown has a key exactly for each adjustment whose condition holds, with the configured amount (−penalty for spam); tier and window follow the score; pages count and time on site are echoed |
| LeadScoring.QualificationMonotone | backend/python/lead_scoring.py:138-144 | a higher score never gets a lower tier |
| LeadScoring.MoreEngagementNeverLowersTier | backend/python/lead_scoring.py:64-91 | with non-negative bonuses, more pages or more time, all else equal, never lowers the raw score or the tier |
| LeadScoring.MoreUrgencyNeverLowersTier | backend/python/lead_scoring.py:76-83 | with 0 ≤ Medium bonus ≤ High bonus, raising urgency from anything else (a missing one included) to Medium to High, all else equal, never lowers the raw score or the tier |
| LeadScoring.MissingRequirementIsSpam | backend/python/lead_scoring.py:115-124 | a lead without a requirement reads as '' and is spam |
| LeadScoring.SpamNeedsASignal | backend/python/lead_scoring.py:104-119 | below both rate limits, a lead is spam exactly when its requirement is nonsense |
| LeadScoring.SampleRequirementNotDominated | backend/python/lead_scoring.py:131-134 | no character fills more than 70% of "Need WhatsApp bot for customer support" |
| LeadScoring.PairsDifferNotDominated | backend/python/lead_scoring.py:131-134 | a text of three or more characters whose adjacent pairs differ has no character in more than 70% of its positions |
| LeadScoring.SampleRequirementIsNotNonsense | backend/python/lead_scoring.py:275 | the example requirement is not nonsense |
| LeadScoring.SampleLeadIsHot | backend/python/lead_scoring.py:270-285 | the example lead (5 pages, 420 s, High urgency, 3 messages at 0.01/s) is not spam and scores 85: Hot, 2 hours |
| LeadScoring.ShoutedHelpIsNonsense | backend/python/lead_scoring.py:126-129 | "HELP!!!!!!" is nonsense: upper case with 6 of 10 characters special |
| LeadScoring.ShoutedRequirementCostsPenalty | backend/python/lead_scoring.py:85-88 | the example lead with requirement "HELP!!!!!!" is spam, loses exactly 20 points and drops to Warm |
| LeadScoring.NonsenseRequirementCostsPenalty | backend/python/lead_scoring.py:85-88 | giving a non-spam lead a nonsense requirement makes it spam and lowers the raw score by exactly the penalty |
| LeadScoring.KeywordsStartWithLetter | backend/python/lead_scoring.py:158-180 | every keyword of the table is non-empty and starts with a lower-case letter |
| LeadScoring.MatchingAgreesWithCount | backend/python/lead_scoring.py:207 | a team's matched keywords are as many as its match count, and each is a table entry occurring in the text |
| LeadScoring.PositiveCountHasWitness | backend/python/lead_scoring.py:192 | a positive match count has a keyword of the list that occurs in the text |
| LeadScoring.CountMatches | backend/python/lead_scoring.py:192 | the count is the number of list entries, duplicates included, that occur in the text |
| LeadScoring.PositiveScoresEntries | backend/python/lead_scoring.py:191-194 | every entry of `intent_scores` is a team with its own, positive, count |
| LeadScoring.PositiveScoresOrdered | backend/python/lead_scoring.py:191-194 | `intent_scores` keeps the teams in the order of the keyword table |
| LeadScoring.PositiveScoresComplete | backend/python/lead_scoring.py:191-194 | every team with a positive count has an entry in `intent_scores` |
| LeadScoring.FirstMaxPos | backend/python/lead_scoring.py:199 | `max(d, key=d.get)` picks an entry with the largest value, and every earlier entry has a strictly smaller one |
| LeadScoring.WinnerBeats | backend/python/lead_scoring.py:199 | no team has a larger count than the one `max` picks, and no earlier team has an equal one |
| LeadScoring.WinnerIsFirstMaximal | backend/python/lead_scoring.py:199 | the team `max` picks has a positive and maximal count, strictly larger than that of every team before it in the table |
| LeadScoring.NoScoresMeansNoMatch | backend/python/lead_scoring.py:196-197 | `intent_scores` is empty exactly when every team's count is zero |
| LeadScoring.EmptyIffNoMatch | backend/python/lead_scoring.py:191-197 | `intent_scores` is empty exactly when no team has a keyword in the lower-cased text |
| LeadScoring.WinnerMatchesMost | backend/python/lead_scoring.py:199-200 | the chosen team matches, matches most and beats every earlier team, and the message has at least one word, so the confidence division is defined |
| LeadScoring.MatchedOverPositiveIsAll | backend/python/lead_scoring.py:207 | collecting keywords over the dictionary's teams gives the matched keywords of all teams in table order |
| LeadScoring.ScoreTeams | backend/python/lead_scoring.py:191-194 | the loop builds exactly the teams with a positive count, with their counts, in table order |
| LeadScoring.CollectMatched | backend/python/lead_scoring.py:207 | the comprehension lists each dictionary team's matching keywords, team by team |
| LeadScoring.AppendMatching | backend/python/lead_scoring.py:207 | the inner part of the comprehension appends one team's keywords that occur in the text, in list order |
| LeadScoring.Detect | backend/python/lead_scoring.py:188-208 | with no keyword in the lower-cased message: Support, 0.5, no keywords; otherwise the first team with the most matches, confidence min(1, matches / words), all scores, and every matched keyword |
| LeadScoring.PriorityFollowsScore | backend/python/lead_scoring.py:231-237 | priority High iff score ≥ hot threshold, Medium iff warm ≤ score < hot, Low otherwise |
| LeadScoring.CreateRoutingPayload | backend/python/lead_scoring.py:227-264 | the team is the detected intent of the requirement; priority follows the tier; the actions are "Create ticket", "Notify agent", "Contact within N hours"; lead data and score are echoed |
| LeadScoring.ContactActionNamesHours | backend/python/lead_scoring.py:259 | the last action reads back the hours it was built from |
| LeadScoring.RouteEngagedUrgentLead | backend/python/lead_scoring.py:283-290 | a non-spam lead with ≥ 5 pages, ≥ 300 s and High urgency scores 85 under the defaults: Hot, 2 hours, the three bonuses in the breakdown, priority High, last action "Contact within 2 hours" |
| Text.Lower | backend/python/lead_scoring.py:188 | lower-casing keeps the length, maps each character, and leaves no upper-case ASCII letter |
| Text.ContainsAt | backend/python/lead_scoring.py:192 | a substring found by `in` occurs at some position |
| Text.ContainsComplete | backend/python/lead_scoring.py:192 | a substring occurring at some position is found by `in` |
| Text.NotContainsPair | backend/python/lead_scoring.py:192 | a keyword with two adjacent characters that never stand next to each other in the text is not found by `in` |
| Text.WordCountAppendWord | backend/python/lead_scoring.py:200 | appending a run of non-whitespace characters after whitespace (or to nothing) adds one word to `split()` |
| Text.WordCountPositive | backend/python/lead_scoring.py:200 | a text with a non-whitespace character has at least one word |
| LeadScoring.MatchCountAllAbsent | backend/python/lead_scoring.py:192 | a team none of whose keywords is in the text has no match |
| LeadScoring.MatchCountOnlyOne | backend/python/lead_scoring.py:192 | a team exactly one of whose keywords is in the text has one match |
| LeadScoring.SalesScoresOne | backend/python/lead_scoring.py:158-192 | in a text shaped like the example's (its adjacent character pairs, holding "need" and "what"), Sales has one match |
| LeadScoring.FaqScoresOne | backend/python/lead_scoring.py:158-192 | in such a text, FAQ has one match ("what") |
| LeadScoring.BillingScoresNothing | backend/python/lead_scoring.py:158-192 | in such a text, Billing has no match |
| LeadScoring.SupportScoresNothing | backend/python/lead_scoring.py:158-192 | in such a text, Support has no match |
| LeadScoring.TechnicalScoresNothing | backend/python/lead_scoring.py:158-192 | in such a text, Technical has no match |
| LeadScoring.ExampleLikeGoesToSales | backend/python/lead_scoring.py:182-208 | a message lowering to such a text ties Sales and FAQ at one match, and `detect` picks Sales, the earlier team, with confidence min(1, 1/words) |
| LeadScoring.ExampleWordShapeHasSixWords | backend/python/lead_scoring.py:200 | a 38-character text of lower-case letters with single spaces at the example's positions splits into six words |
| LeadScoring.SampleRequirementGoesToSales | backend/python/lead_scoring.py:182-208 | `detect` on "Need WhatsApp bot for customer support" answers Sales with confidence 1/6 |
| Text.ContainsWordStartsWord | backend/python/lead_scoring.py:200 | a text containing a keyword that starts with a non-whitespace character has at least one word |
| Text.NatToStringRoundTrip | backend/python/lead_scoring.py:259 | reading back the decimal rendering of n gives n, with no leading zero |
| CrmLead.TruncateToMinute | backend/python/crm_lead.py:61 | the truncated instant is a whole minute, not after the input, and less than a minute before it |
| CrmLead.CachedTokenIffUsable | backend/python/crm_lead.py:41-42 | the cached token is returned without refresh and with the cache unchanged exactly when it is non-empty and its expiry is after now |
| CrmLead.FailedRefreshKeepsCache | backend/python/crm_lead.py:55-56 | a non-200 refresh raises "Failed to refresh token: " + text and leaves the cache unchanged |
| CrmLead.RefreshedTokenIsAlreadyStale | backend/python/crm_lead.py:59-61 | after a successful refresh the expiry is not after the refresh time, so any call at that time or later refreshes again |
| CrmLead.IntendedTokenCachedWithinWindow | backend/python/crm_lead.py:41-61 | with the expiry set 55 minutes after a successful refresh of a non-empty token, a later call skips the endpoint exactly when it comes within those 55 minutes, and then returns the cached token and keeps the cache |
| CrmLead.ZohoCrmClient.constructor | backend/python/crm_lead.py:36-37 | a new client has no token, no expiry and has sent nothing |
| CrmLead.ZohoCrmClient.GetAccessToken | backend/python/crm_lead.py:39-62 | the cache and the result follow the token step; the token endpoint is logged exactly when it is called |
| CrmLead.CreatePayloadFollowsFieldTable | backend/python/crm_lead.py:87-101 | the create record has exactly the nine CRM fields, each the lead's value or its default ('' except 'Website Chat' and 50) |
| CrmLead.TableFieldsAreDistinct | backend/python/crm_lead.py:87-101 | the nine lines of the mapping table name nine distinct CRM fields, so the table names nine fields |
| CrmLead.DistinctFieldsCount | backend/python/crm_lead.py:87-101 | a mapping table whose lines name distinct fields names as many fields as it has lines |
| CrmLead.CreatePayloadFollowsLine | backend/python/crm_lead.py:87-101 | each line of the mapping table puts its field in the create record, holding the lead's value for the line's key or the line's default |
| CrmLead.CreatePayloadHasOnlyTableFields | backend/python/crm_lead.py:87-101 | the create record has no field outside the mapping table |
| CrmLead.UpdatePayloadOverridesId | backend/python/crm_lead.py:206-213 | the update record has the update data's keys plus `id`; an `id` in the update data overrides the lead id |
| CrmLead.FollowUpTaskPayload | backend/python/crm_lead.py:288-295 | the follow-up task record has the fixed subject and description, the due date, High priority and the lead as `Who_Id` |
| CrmLead.SearchCriteriaReadsBack | backend/python/crm_lead.py:186 | the criteria are "(Email:equals:" + the e-mail's text + ")", and the e-mail's text reads back from them |
| CrmLead.ZohoCrmClient.CreateLead | backend/python/crm_lead.py:84-117 | after the token step, posts the mapped record; a status other than 200 or 201 raises "Lead creation failed: N"; otherwise the first record id (or the index error) |
| CrmLead.ZohoCrmClient.CreateTask | backend/python/crm_lead.py:136-164 | after the token step, posts the task record; a status other than 200 or 201 raises "Task creation failed: N"; otherwise the first record id |
| CrmLead.ZohoCrmClient.GetLead | backend/python/crm_lead.py:166-179 | after the token step, fetches the lead; any status but 200 raises "Lead fetch failed: N" |
| CrmLead.ZohoCrmClient.SearchLeadsByEmail | backend/python/crm_lead.py:181-200 | after the token step, sends the criteria; any status but 200 yields an empty list instead of raising |
| CrmLead.ZohoCrmClient.UpdateLead | backend/python/crm_lead.py:202-227 | after the token step, puts the update record; a status other than 200 or 204 raises "Lead update failed: N" |
| CrmLead.FirstOk | backend/python/crm_lead.py:262-266 | the position of the first successful attempt: every earlier one raised |
| CrmLead.BackoffSchedule | backend/python/crm_lead.py:269-270 | sleep i lasts 2^i seconds and n sleeps add up to 2^n − 1 |
| CrmLead.UpdatesExistingLead | backend/python/crm_lead.py:249-257 | a found lead updated without error: one search, one update of the first match's id, no create, no sleep, result "updated" |
| CrmLead.FailuresFallThroughToCreate | backend/python/crm_lead.py:249-264 | a search that raises or finds nothing, or an update that raises, leads to a create attempt and never to "updated" |
| CrmLead.NoRetriesReturnsNone | backend/python/crm_lead.py:262 | with `max_retries` ≤ 0 and no successful update, nothing is created or slept and the result is None |
| CrmLead.AttemptsAndSleeps | backend/python/crm_lead.py:262-276 | at most `max_retries` create attempts, one fewer sleeps than attempts, sleep i being 2^i seconds |
| CrmLead.SearchCallsCreateNothing | backend/python/crm_lead.py:248-259 | the search phase never calls create |
| CrmLead.RetryAttemptsAndSleeps | backend/python/crm_lead.py:262-276 | with a positive `max_retries`, between 1 and `max_retries` attempts, one fewer sleeps, sleep i being 2^i seconds; none when it is not positive |
| CrmLead.FirstSuccessWins | backend/python/crm_lead.py:262-266 | the first successful attempt returns "created" with its id, after k + 1 creates and k sleeps |
| CrmLead.AllAttemptsFail | backend/python/crm_lead.py:267-276 | when every attempt fails the result is a failure with the last attempt's error and the lead data as given |
| CrmLead.FailTwiceThenSucceed | backend/python/crm_lead.py:262-276 | two failures then a success with three retries: created, three create calls, sleeps of 1 and 2 seconds |
| CrmLead.LeadCreationService.constructor | backend/python/crm_lead.py:233-234 | the service holds the given client and has made no call and no sleep |
| CrmLead.LeadCreationService.CreateOrUpdateLead | backend/python/crm_lead.py:236-276 | the result, the calls made and the sleeps taken are those of `Reconcile` |
| CrmLead.LeadCreationService.CreateWithRetry | backend/python/crm_lead.py:262-276 | the retry loop's result, calls and sleeps are those of `Retry` |
| CrmLead.LeadCreationService.CreateFollowUpTask | backend/python/crm_lead.py:278-295 | sends the fixed follow-up template with the given due date through the client's task creation |

## Findings

| source | as written | input that shows it | evidently intended | confidence | as-written member | corrected member |
|---|---|---|---|---|---|---|
| backend/python/crm_lead.py:61 | a refresh stores the current time truncated to the minute as the token expiry | a successful refresh at any instant, then any call at that instant or later: the call refreshes again | the expiry 55 minutes after the refresh, as the comment on line 60 says, so calls within 55 minutes use the cached token | high, not executed | CrmLead.RefreshedTokenIsAlreadyStale | CrmLead.IntendedTokenCachedWithinWindow |

## Left out

- HTTP, `async`/`await` and `asyncio.sleep`: replies are inputs, and sleeps are recorded as durations in seconds.
- JSON decoding: a reply is its status, its text and the ids under its `data` member. The `data` member returned alongside a created lead or task is not carried. A missing `data` member or `id` key is not modelled; only the empty list's index error is.
- Environment-variable lookup and the URL in the client constructor, and all logging.
- Wall-clock readings: `now` is one parameter per call, in microseconds. `get_access_token` reads the clock twice (lines 41 and 61), and the model uses one reading for both.
- The `strftime` due date of `create_follow_up_task`: the due date is passed already formatted.
- LeadCreationService.CreateOrUpdateLead: it takes the outcomes of the client operations as inputs instead of calling `ZohoCrmClient`. The interplay of the token cache with the search, update and create calls is therefore not part of its contract.
- LeadCreationService.CreateOrUpdateLead: it requires at least `max_retries` create outcomes, one per attempt the loop may make.
- LeadCreationService.constructor: it requires a client. The source builds a default `ZohoCRMClient()` when none is given (line 234), and that client's constructor reads the environment, which is not modelled.
- LeadCreationService.CreateOrUpdateLead: `max_retries` is a parameter with no default. The source's default of 3 is the value `FailTwiceThenSucceed` uses.
- ZohoCrmClient.UpdateLead: a successful update returns `Ok(())`. The source returns the decoded reply body, or `{'success': True}` when the body is empty (line 227), and no caller reads it.
- The free-text `context` block of the routing payload, with its `:.1%` float formatting.
- Floating-point arithmetic: frequencies and confidences are reals, and the nonsense ratios are integer cross-multiplications.
- Non-ASCII text: `str.lower` and `str.isupper` are modelled on ASCII letters only.
- Values a dictionary holds explicitly as None, or with a type other than the one the code expects, are not modelled. For example, a `pages_visited` that is not a list.
- `print` and the `__main__` runners. The scoring example is the lemma `SampleLeadIsHot` and the method `RouteEngagedUrgentLead`. The CRM example lead is not modelled, since its outcome depends only on the HTTP replies.
