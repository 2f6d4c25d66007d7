# A verified model of the 8property lead CRM and enrichment backend

This project models the decision logic of the 8property website backend in
Dafny and proves what that logic guarantees. The backend is a Flask service
for a Hong Kong rental agency with four parts:

- a lead CRM: scoring leads, choosing the best agent for a lead, manual and
  automatic assignment, and recording inquiries from Instagram and WhatsApp;
- a property search over listings read from three spreadsheets, and a
  paginated property listing;
- content enrichment: captions, summaries, hashtags and images for listings,
  batch enrichment and its statistics;
- a scripted chatbot that keeps one conversation context per user, and the
  analytics counts (dashboard, conversion funnel, score distribution).

Databases, HTTP, the language model, the spreadsheet service and the image
service become plain inputs. Tables are sequences of records, and the
database session is the `LeadModel.Database` class. The `leads` collections
still loaded on agent objects that are alive are the `LeadRoutes.Loaded` map.
Model replies are
`Option` values, where `None` means the call raised. The clock is an integer
`now` in seconds. Python exceptions that the code catches, or that reach a
route, become the `Err` case of a `Result`.

Modules, one per source file:

| module | file | source |
|---|---|---|
| `Common` | common.dfy | Python semantics the code relies on: truthiness, `dict.get`, `str.lower`/`strip`/`split`/`join`, `int()`, slicing, `//`, comprehensions |
| `LeadModel` | lead.dfy | lead.py: the lead, agent and interaction records, `Lead.update_score`, `Agent.can_take_lead`, the store |
| `LeadRoutes` | leads.dfy | leads.py: `find_best_agent`, the two inquiry handlers, the `per_page` cap |
| `AgentRoutes` | agents.dfy | agents.py: `create_agent`, `assign_lead`, `auto_assign_leads` |
| `SheetSearch` | sheets.dfy | google_sheets_service.py: `search_properties`, `extract_price`, `_price_in_range` |
| `PropertyListing` | properties.dfy | properties.py: filtering and pagination in `get_properties` |
| `TextGen` | textgen.dfy | text_generator.py: captions, summaries, hashtags and their fallbacks |
| `Enrichment` | enrichment.dfy | content_enrichment.py: image choice, enrichment flags, post data, batch and statistics |
| `Chatbot` | chatbot.dfy | chatbot.py: `PropertyChatbot` and its routes |
| `Analytics` | analytics.dfy | analytics.py: dashboard counts, the conversion funnel, the score distribution |

Code that changes state step by step is imperative Dafny:

- `update_score` accumulates into a local total;
- `find_best_agent` keeps the best agent so far in a loop;
- the inquiry handlers, `create_agent`, `assign_lead` and the auto-assignment
  sweep change the `Database` object;
- the chatbot keeps its contexts in the `PropertyChatbot` class;
- the loops that collect listings, image URLs, hashtags, batch results,
  statistics and analytics rows are methods with loops.

Each such method is proved equal to a function, and the properties are
proved about that function as lemmas.

The model follows the code where the code is surprising:

- a lead's `preferred_areas` earns 5 points even when it holds an empty list
  (the text "[]" is truthy);
- the workload term of the agent score counts all of an agent's leads, not
  only the active ones;
- the workload term reads `len(agent.leads)`, which loads an agent's
  collection once and does not refresh it when a lead is assigned. The
  session holds unchanged agent objects weakly, so an agent object that no
  variable refers to is freed with its collection and reloaded at the next
  visit. During an auto-assignment sweep the previous visit's winner, still
  held by the loop's `agent` variable, keeps the length it read then, and
  every other agent is reloaded at each visit with its current leads
  (`AgentRoutes.TiesStayWithFirstAgent`, `AgentRoutes.FreedAgentIsReread`);
- one undecodable specialization column makes `find_best_agent` return
  `None` for every agent;
- the auto-assignment sweep visits priorities in text order, so "high" comes
  last;
- a chatbot budget is stored, and then formatting the reply raises;
- the dashboard route never answers with figures: its agent query raises,
  so every call ends in a 500 (see "Findings");
- in the figures the dashboard is meant to return, the conversion rate
  divides leads converted in the period by leads created in the period, so
  it can exceed 100 (`Analytics.DashboardRateCanPassHundred`).

## Model

| member | source | states |
|---|---|---|
| Common.Get | content_enrichment.py:147-159 | `d.get(key, default)`: the stored value when the key is present, else the default |
| Common.Lower | chatbot.py:15 | `lower()` maps each character on its own and keeps the length |
| Common.Strip | chatbot.py:15 | `strip()` removes exactly the white space at both ends: the result is the slice that follows the leading white space, only white space follows it, and it neither starts nor ends with white space |
| Common.SubstringAt | chatbot.py:28 | `needle in hay` holds exactly when the needle starts at some position of the text |
| Common.Split | text_generator.py:187 | `split('\n')` gives at least one piece and no piece holds the separator |
| Common.JoinSplit | text_generator.py:187-191 | joining the split pieces with the separator gives the text back |
| Common.JoinOccurrences | text_generator.py:191 | joining pieces without line breaks puts exactly one break between neighbours |
| Common.JoinPrefix | text_generator.py:188-191 | joining the first pieces gives a prefix of joining them all |
| Common.FloorDiv | properties.py:159 | Python's `//` rounds toward minus infinity |
| Common.PySlice | properties.py:150 | Python's `s[i:j]` for any integers, the ordinary slice when the bounds are in range, never longer than the list |
| Common.Filter | properties.py:137-145 | a list comprehension keeps exactly the entries its test accepts |
| Common.FilterCounts | properties.py:137-145 | each accepted entry is kept as many times as it occurs, and a rejected one never |
| Common.FilterIsSubsequence | properties.py:137-145 | a list comprehension keeps the order of the entries |
| Common.FirstIndex | leads.py:278 | `.first()`: the first entry satisfying the test, and none exactly when no entry does |
| Common.FilterOrFail | google_sheets_service.py:123-156 | a comprehension whose test may raise succeeds exactly when no test raises, and then keeps exactly the entries accepted |
| Common.FilterOrFailCounts | google_sheets_service.py:123-156 | on success each accepted entry is kept as many times as it occurs, and a rejected one never |
| Common.FilterOrFailIsSubsequence | google_sheets_service.py:123-156 | such a comprehension keeps the order of the entries |
| Common.PyIntDigits | chatbot.py:45 | `int()` reads well-formed digits, with or without a minus sign |
| Common.PyIntOfShown | properties.py:18-19 | `int(str(i)) == i` for every integer |
| Common.PyInt | chatbot.py:45 | `int()` fails on blank text, and a negative value comes only from text whose first non-blank character is '-' |
| LeadModel.Decode | lead.py:116-117 | decoding a truthy JSON column succeeds exactly when it holds a list, and yields that list |
| LeadModel.ContactPoints | lead.py:92-96 | the contact bucket is between 0 and 20 |
| LeadModel.EngagementPoints | lead.py:98-102 | the engagement bucket is between 0 and 30 |
| LeadModel.InteractionPoints | lead.py:104-106 | 5 points per stored interaction, capped at 25 |
| LeadModel.DaysSince | lead.py:110 | whole days since a timestamp, rounded toward minus infinity as `timedelta.days` does |
| LeadModel.RecencyPoints | lead.py:108-113 | the recency bucket is 0, 5, 10 or 15, and 0 without a last contact |
| LeadModel.PropertyPoints | lead.py:115-118 | raises exactly when the interested list does not decode; otherwise between 0 and 10 |
| LeadModel.LeadScore | lead.py:88-121 | the score fails only on an undecodable interested list and always lies in [0,100] |
| LeadModel.UpdateScore | lead.py:88-121 | the returned lead is the input with `score` set to the computed score; it fails exactly when scoring raises |
| LeadModel.AddContactPoints | lead.py:92-96 | the running total grows by exactly the contact bucket |
| LeadModel.AddEngagementPoints | lead.py:98-102 | the running total grows by exactly the engagement bucket |
| LeadModel.AddRecencyPoints | lead.py:108-113 | the running total grows by exactly the recency bucket |
| LeadModel.ScoreIsBucketSum | lead.py:90-120 | the buckets add up to at most 100, so the cap at 100 never changes the sum |
| LeadModel.ContactFieldWorthFive | lead.py:93-96 | filling an empty phone, email, name or WhatsApp number adds exactly 5; the Instagram handle never changes the score |
| LeadModel.ContactShift | lead.py:92-96 | leads differing only in contact fields differ in score by exactly their contact points |
| LeadModel.MessageBonusThreshold | lead.py:99 | a message longer than 50 characters adds 10; one of at most 50 adds nothing |
| LeadModel.BudgetBonusNeedsBoth | lead.py:100 | the budget bonus needs both bounds truthy; a bound of 0 counts as missing |
| LeadModel.ScoreMonotoneInInteractions | lead.py:105-106 | more interactions never lower the score, and beyond five they no longer raise it |
| LeadModel.RecencyByDays | lead.py:109-113 | at most 1 day gives 15, 2-3 days 10, 4-7 days 5, more than 7 days 0 |
| LeadModel.PropertyPointsCountDuplicates | lead.py:116-118 | duplicate entries count: two copies give 4, six copies hit the cap of 10 |
| LeadModel.ActiveLeadCount | lead.py:175-179 | the number of the agent's leads in an active status, at most the number of leads |
| LeadModel.AssignedLeadCount | lead.py:40-41 | the agent's leads whatever their status (`agent.leads`), at least the active count |
| LeadModel.NoneAssignedTo | lead.py:40-41 | an agent no lead names has an empty `leads` collection |
| LeadModel.ActiveLeadCountUpdate | lead.py:175-179 | replacing one lead changes the active count by what the old and new lead contribute |
| LeadModel.ActiveLeadCountAppend | lead.py:175-179 | appending a lead raises the active count by one exactly when that lead is active for the agent |
| LeadModel.InteractionCount | lead.py:105 | the interactions stored for a lead, at most the number of interactions |
| LeadModel.InteractionCountAppend | lead.py:105 | appending an interaction raises its lead's count by one and leaves the others alone |
| LeadModel.FindById | lead.py:10 | a primary-key lookup over leads or agents: the index found holds that id, and none is found exactly when no row has it |
| LeadModel.NextId | lead.py:10 | the id a new lead or agent row gets is larger than every id in use |
| LeadModel.CanTakeLead | lead.py:173-181 | an agent that can take a lead is active with a positive limit; an active agent whose limit exceeds the number of leads always can |
| LeadModel.Database.constructor | lead.py:5 | a new store is empty and satisfies the key invariants |
| LeadRoutes.AreaPoints | leads.py:423-427 | 20 exactly when both area columns decode and share an entry, else 0; raises when either truthy column does not decode |
| LeadRoutes.TypePoints | leads.py:429-432 | 15 exactly when the lead's type is in the agent's decoded type list, else 0; raises on an undecodable type column |
| LeadRoutes.WorkloadPoints | leads.py:434-437 | `max(0, 10 - len(agent.leads))`, with `len(agent.leads)` the length of the collection still loaded on a live agent object, or the current number of assigned leads (any status) when not loaded yet |
| LeadRoutes.LoadScored | leads.py:419-437 | the scoring loop leaves every cached collection as it was and caches, at its current length, the collection of each agent whose area and type terms were reached without an earlier error |
| LeadRoutes.LoadScoredMeaning | leads.py:416-437 | an agent's collection becomes cached exactly when it is one of the candidates and no candidate up to it raised while scoring |
| LeadRoutes.PerformancePoints | leads.py:439-442 | 0 without leads, otherwise the conversion rate times 10, within [0,10] for consistent counters |
| LeadRoutes.AgentScore | leads.py:419-442 | the score fails exactly when an area or type column fails; it is at least 0 and at most 55 for consistent counters, whatever the session has cached |
| LeadRoutes.Available | leads.py:409-410 | exactly the agents that can take a lead, in query order |
| LeadRoutes.SelectFrom | leads.py:419-446 | the selection never lowers the best score, and a new winner is one of the candidates with a strictly greater score |
| LeadRoutes.BestAgent | leads.py:405-452 | the agent returned, if any, is in the agent list and can take a lead |
| LeadRoutes.FindBestAgent | leads.py:405-452 | the loop returns the agent the selection fold `BestAgent` picks and loads collections as `LoadScored` says; of those, only the returned agent's collection stays loaded after the call (`KeptLoaded`), at the length it was scored with |
| LeadRoutes.WinnerStaysLoaded | leads.py:405-452 | the agent returned was scored, so the collection it keeps after the call is the one loaded during the call |
| LeadRoutes.SelectFromMaximum | leads.py:416-446 | the selection ends with a score at least every candidate's, reached first by the chosen agent (strict `>` keeps the earliest) |
| LeadRoutes.SelectFromError | leads.py:450-452 | one candidate whose scoring raises aborts the whole selection |
| LeadRoutes.NoneWithoutAvailableAgent | leads.py:409-413 | without an agent that can take a lead, no agent is returned |
| LeadRoutes.ErrorMeansNoAgent | leads.py:423-452 | a scoring error for any available agent means no agent at all is returned |
| LeadRoutes.BestAgentIsFirstMaximum | leads.py:416-448 | the returned agent is available, scores at least every available agent, and every available agent before it scores strictly less |
| LeadRoutes.SomeAgentWhenAvailable | leads.py:410-446 | with an available agent and no scoring error, an agent is returned, since every score is at least 0 and beats -1 |
| LeadRoutes.WithPropertyAddsOnce | leads.py:286-290 | afterwards the property is listed, the old list is a prefix, the list grew by at most one and no duplicate was added |
| LeadRoutes.AddInterestedProperty | leads.py:286-290 | fails exactly on an undecodable column; otherwise writes back the list with the property added once |
| LeadRoutes.FillName | leads.py:360-361 | the name is stored only when the lead has none; an existing name is never overwritten |
| LeadRoutes.PerPage | leads.py:23 | `per_page` defaults to 20 and is capped at 100 |
| LeadRoutes.AgentIdOf | leads.py:305-307 | the id of the agent found, or none |
| LeadRoutes.RecordInquiry | leads.py:312-326 | appends one inbound interaction, stores the rescored lead, and on a scoring error leaves the store unchanged |
| LeadRoutes.InstagramInquiry | leads.py:260-336 | rejects a missing handle or message; updates the first lead with that handle (property added once) or creates an assigned new lead; records one interaction and rescores; any error changes nothing |
| LeadRoutes.WhatsAppInquiry | leads.py:338-403 | rejects a missing number or message; updates the first lead with that number (name filled only if empty) or creates an assigned new lead; records one interaction and rescores; any error changes nothing |
| AgentRoutes.ListColumn | agents.py:43-48 | a list column is stored exactly when the list given is non-empty, holds that list, and is never malformed |
| AgentRoutes.AgentFromPayload | agents.py:34-48 | the new row has the given name and email, no leads counted, `max_leads` 50 and `is_active` true when not given, and no malformed list column |
| AgentRoutes.CreateAgent | agents.py:20-60 | rejects a missing name or email and an email already held; otherwise appends one agent with the given name, email, phone and WhatsApp number, `max_leads` 50 and `is_active` true by default, each list column stored only when non-empty, an id above every id in use, and nothing else changes |
| AgentRoutes.AssignLead | agents.py:288-329 | needs both ids (400) and both rows (a missing one makes `get_or_404` raise inside the `try`: rollback and 500 with the 404's text), and an agent that can take a lead (400, nothing changed); on success sets the lead's agent and update time, appends one automated outbound 'assignment' interaction naming the agent, and the agent stays within capacity |
| AgentRoutes.LexLessTotal | agents.py:339 | text order is total on distinct strings, so the visit order is determined |
| AgentRoutes.VisitsFirstTotal | agents.py:339 | any two leads are ordered by priority descending, then creation time ascending |
| AgentRoutes.PriorityStringOrder | agents.py:339 | `priority DESC` compares text: "urgent" comes first and "high" comes after "low" |
| AgentRoutes.CandidatesFrom | agents.py:336-338 | exactly the positions of unassigned leads with status new or contacted, in increasing order |
| AgentRoutes.InsertVisit | agents.py:339 | inserting a visit adds exactly that position |
| AgentRoutes.SortVisits | agents.py:339 | sorting the visits permutes them |
| AgentRoutes.InsertVisitSorted | agents.py:339 | insertion keeps the visits in `ORDER BY priority DESC, created_at ASC` order |
| AgentRoutes.SortVisitsSorted | agents.py:339 | sorted visits are in `ORDER BY priority DESC, created_at ASC` order |
| AgentRoutes.SortVisitsDistinct | agents.py:336-339 | sorting never repeats a lead |
| AgentRoutes.VisitOrder | agents.py:336-339 | the visit order names leads of the store |
| AgentRoutes.VisitOrderMembers | agents.py:336-338 | the sweep visits exactly the unassigned leads with status new or contacted |
| AgentRoutes.VisitOrderIsSorted | agents.py:339 | each lead is visited once, by priority descending and then creation time |
| AgentRoutes.Sweep | agents.py:341-363 | ids never change and every visit adds at most one interaction and one to `assigned_count`; at each visit only the previous winner's collection is still loaded, and every other agent is read at its current assigned leads |
| AgentRoutes.AutoAssignLeads | agents.py:331-375 | on commit the store holds the swept leads and log and returns `assigned_count`; a failed commit rolls every assignment back |
| AgentRoutes.RunSweep | agents.py:343-363 | the loop leaves the session, and the collection still loaded between visits, exactly as the sweep function says |
| AgentRoutes.AdvanceSweep | agents.py:343-363 | one turn of the loop moves the session from the sweep over the first `i` visits to the sweep over the first `i + 1` |
| AgentRoutes.VisitLead | agents.py:344-363 | one visit changes the leads and the log as one sweep step says, and afterwards only the agent it assigned, if any, still has its collection loaded |
| AgentRoutes.SweepPrefix | agents.py:343 | one more visit is one more sweep step |
| AgentRoutes.StepFromEmptyLog | agents.py:362-363 | a step only appends to the log and the count |
| AgentRoutes.SweepKeepsIds | agents.py:349-350 | lead ids stay unique through the sweep |
| AgentRoutes.SweepHoldsLastWinner | agents.py:343-348 | between visits the only agent whose collection can still be loaded is the one the last visit assigned; after a visit that finds nobody, none is |
| AgentRoutes.SweepRereadsOthers | leads.py:409-435 | at each visit every agent except the previous visit's winner has its workload read from its current assigned leads, the sweep's own assignments included |
| AgentRoutes.SweepKeepsWinnerLength | agents.py:346-348 | a visit keeps a loaded collection exactly when it assigns an agent, and the kept length is the one that visit scored with |
| AgentRoutes.PairVisit | leads.py:419-446 | with two agents that can both take the lead and score without error, a visit assigns the first unless the second scores strictly more, and keeps only the winner's collection |
| AgentRoutes.TiesStayWithFirstAgent | leads.py:435 | two equal agents without leads and three new leads: the sweep gives all three to the first agent, because the loop keeps holding it with the empty collection it loaded, so its workload stays 10 |
| AgentRoutes.FreedAgentIsReread | leads.py:435 | agents for areas X and Y and leads for X, Y and Z: the first two go to their area's agent; at the Z lead agent 1, no longer held, is reloaded with one lead and scores 9, so agent 2, still held at 10, wins |
| AgentRoutes.SweepUntouched | agents.py:336-339 | leads the sweep does not visit are left as they were |
| AgentRoutes.SweepLeadOutcome | agents.py:346-350 | a lead is either unchanged (no agent found) or given an agent from the list with the update time set |
| AgentRoutes.SweepLogOutcome | agents.py:352-362 | every recorded interaction is an automated outbound 'assignment' to an agent from the list |
| AgentRoutes.LogKeys | agents.py:354-359 | the (lead id, agent id) pair of each recorded interaction, in log order |
| AgentRoutes.AssignedRecords | agents.py:343-349 | the (lead id, agent id) pairs of the visited leads that hold an agent, in visit order |
| AgentRoutes.AssignedRecordsOnce | agents.py:343-349 | distinct visits of leads with distinct ids name each lead once |
| AgentRoutes.SweepLogMatchesLeads | agents.py:343-363 | the log records, in visit order, exactly the visited leads that received an agent, each with the agent now stored on it |
| AgentRoutes.SweepLogOnce | agents.py:343-363 | with unique lead ids, no lead is named by two of the sweep's interactions |
| AgentRoutes.SweepRespectsCapacity | agents.py:346-350 | an agent receives a lead only while it can take one, so no agent's active count passes its maximum through the sweep |
| AgentRoutes.AssignedAmongFrame | agents.py:343-363 | changing a lead outside the visit order does not change the count of assigned visited leads |
| AgentRoutes.SweepCountsAssignments | agents.py:341-363 | `assigned_count` equals the number of visited leads that ended up with an agent |
| AgentRoutes.AutoAssignKeepsCapacity | agents.py:331-365 | the real sweep keeps every agent within capacity and counts exactly the leads it assigned |
| AgentRoutes.AutoAssignLogMatches | agents.py:336-363 | the real sweep's log names, in visit order and once each, exactly the leads it assigned, with the agent each received |
| SheetSearch.CleanPrice | google_sheets_service.py:135 | the cleaned price keeps no '$', ',' or ' ' and is never longer |
| SheetSearch.ExtractPrice | google_sheets_service.py:131-138 | a value that is not text, or whose cleaned text does not parse as an integer, reads as 0 |
| SheetSearch.PriceInRange | google_sheets_service.py:160-166 | in range exactly when every bound that is given holds; with no bounds always in range |
| SheetSearch.CleanAppend | google_sheets_service.py:135 | cleaning distributes over concatenation |
| SheetSearch.CleanPlain | google_sheets_service.py:135 | text without '$', ',' or ' ' is left alone |
| SheetSearch.CleanDollar | google_sheets_service.py:135 | a leading '$' is dropped |
| SheetSearch.GroupedClean | google_sheets_service.py:135-136 | a number written with thousands commas cleans to its own digits |
| SheetSearch.ExtractPriceText | google_sheets_service.py:131-138 | `extract_price` reads back any rent written as "$18,000" |
| SheetSearch.TagAll | google_sheets_service.py:113-116 | every row gets `source` set to its sheet's name and keeps every other key and value |
| SheetSearch.Tagged | google_sheets_service.py:109-116 | every collected row carries a source |
| SheetSearch.CollectListings | google_sheets_service.py:109-116 | the collecting loop yields the tagged rows of every sheet, in order |
| SheetSearch.LowerOf | google_sheets_service.py:122-127 | `.lower()` succeeds exactly on text and lowercases it |
| SheetSearch.SearchProperties | google_sheets_service.py:93-158 | the method returns the staged search over the collected rows |
| SheetSearch.StageOutcome | google_sheets_service.py:121-156 | a filter stage keeps an order-preserving subsequence, exactly the rows its test accepts |
| SheetSearch.StageCounts | google_sheets_service.py:121-156 | a successful stage keeps each accepted row as many times as it occurs, and a rejected one never |
| SheetSearch.Search | google_sheets_service.py:119-158 | a successful search returns, in their original order, exactly the rows that pass every stage switched on, each as many times as it occurs |
| SheetSearch.SearchStages | google_sheets_service.py:121-156 | the four stages in turn keep a subsequence of the rows, exactly those passing every stage switched on |
| SheetSearch.SearchStageCounts | google_sheets_service.py:121-156 | after the four stages each row passing every stage switched on is kept as many times as it occurs, and any other never |
| SheetSearch.NoFilterKeepsAll | google_sheets_service.py:119-158 | with no query, bounds, rooms or development the search returns every row |
| SheetSearch.PlainRowsSearchSucceeds | google_sheets_service.py:121-156 | rows whose title, address, development and rooms are text or absent never make the search raise |
| PropertyListing.IntArg | properties.py:18-19 | a missing argument takes its default |
| PropertyListing.GetProperties | properties.py:11-166 | a non-integer page or limit, or a limit of 0, is reported as a failure; otherwise the answer succeeds with the page and limit asked for |
| PropertyListing.FilteredMeaning | properties.py:134-145 | the filtered list keeps the records' order and holds exactly the records that pass every filter switched on |
| PropertyListing.NoFilterKeepsAll | properties.py:136-145 | an empty search with status and source 'all' removes nothing |
| PropertyListing.PageAtMostLimit | properties.py:148-150 | a page never holds more than `limit` records, whatever `page` is |
| PropertyListing.PageIsRun | properties.py:148-150 | from page 1 on, the page is the run after the earlier pages, cut short at the end of the list |
| PropertyListing.TotalPagesIsCeiling | properties.py:159 | `total_pages` is the total divided by the limit, rounded up |
| PropertyListing.PagesUpToPrefix | properties.py:148-150 | pages 1 to n together are the first n·limit records |
| PropertyListing.PagesCoverAll | properties.py:148-159 | reading pages 1 to `total_pages` gives back every filtered record exactly once and in order |
| PropertyListing.AnswerIsFilteredPage | properties.py:147-160 | a successful answer holds the slice, for the page and limit asked for, of the filtered list, and counts the whole filtered list |
| PropertyListing.AnswerBounds | properties.py:150-159 | with a positive limit the page holds at most `limit` records and the page count is the rounded-up quotient |
| PropertyListing.TotalIgnoresPage | properties.py:156-159 | `total` and `total_pages` do not depend on the page asked for |
| Enrichment.PrimaryImageUrl | content_enrichment.py:165-174 | the first truthy of `image_url`, `photo_url`, `image_url1`, or none exactly when none of them is truthy |
| Enrichment.NumberedUrls | content_enrichment.py:180-184 | at most one truthy value per numbered field |
| Enrichment.CollectImageUrls | content_enrichment.py:176-192 | the two loops produce the URL list the model defines |
| Enrichment.NumberedUrlsHasFirst | content_enrichment.py:181-184 | a truthy `image_url` is always collected by the first loop |
| Enrichment.AllImageUrls | content_enrichment.py:176-192 | at most 21 URLs, all truthy |
| Enrichment.ImageFieldNotImageUrl1 | content_enrichment.py:182 | field 1 is read as `image_url`, so no numbered field is `image_url1` |
| Enrichment.NumberedUrlsIgnoreImageUrl1 | content_enrichment.py:181-184 | the first loop never reads `image_url1` |
| Enrichment.AddIfNewFrame | content_enrichment.py:187-190 | the second loop reads only the fields it names |
| Enrichment.AllImageUrlsIgnoreImageUrl1 | content_enrichment.py:176-192 | changing `image_url1` never changes the collected URLs |
| Enrichment.StrList | content_enrichment.py:39-41 | the generated tags stored as a list of strings, one per tag |
| Enrichment.EnrichListing | content_enrichment.py:11-74 | only a failing fallback summary raises; a result keeps every other key with its value, adds only generated keys and never the error mark, stores the generated caption, summary and tags, and stores the overlay and the collage exactly when produced (otherwise an existing one is kept) |
| Enrichment.EnrichedCopy | content_enrichment.py:27-72 | the copy keeps every key outside the generated ones with its value, holds the given caption, summary and tags, and each image only when produced or already present |
| Enrichment.WithText | content_enrichment.py:31-41 | the copy gains exactly the caption, summary and hashtag keys with the generated values |
| Enrichment.WithImages | content_enrichment.py:48-62 | the overlay and collage keys are set exactly when produced, and every other key keeps its value |
| Enrichment.CopyFlags | content_enrichment.py:65-72 | the metadata flags say whether the copy holds each image key, and the tag count is the number of tags stored |
| Enrichment.EnrichFlags | content_enrichment.py:49-72 | `has_enriched_image` and `has_collage` are true exactly when the key is present (added now or already there); `hashtag_count` is the number of stored tags |
| Enrichment.JoinTags | content_enrichment.py:151 | `' '.join` succeeds on text and on a list exactly when every item is text, and fails on null, booleans and numbers |
| Enrichment.AppendTags | content_enrichment.py:151 | `+=` extends text by text and a list by the text's characters, and fails on anything else |
| Enrichment.CreatePostData | content_enrichment.py:127-163 | without truthy tags the caption is `ai_caption` unchanged; with tags the post succeeds exactly when the caption is text or a list and the tags join, and the caption is then the old one, a blank line and the joined tags; the other fields are the listing's, with their defaults |
| Enrichment.PostImage | content_enrichment.py:137-144 | the post has no image only when the overlay key, else the collage key, else every primary field gives none; a primary image is truthy |
| Enrichment.PostFromEnriched | content_enrichment.py:49-62 | a freshly enriched record posts its overlay when one was added, else its collage |
| Enrichment.BatchEnrich | content_enrichment.py:99-125 | one entry per listing in input order: the enriched copy, or the listing marked with the error |
| Enrichment.EnrichOne | content_enrichment.py:115-123 | one turn of the batch loop |
| Enrichment.CountWith | content_enrichment.py:215-225 | the number of records holding a key, at most the number of records |
| Enrichment.GetEnrichmentStats | content_enrichment.py:199-235 | successes plus errors equal the total; image and collage counts are key counts; both rates are 0 for an empty list and otherwise sum to 1 |
| Enrichment.RatesSumToOne | content_enrichment.py:230-234 | the two rates of a non-empty list add up to 1 |
| Enrichment.Failures | content_enrichment.py:119-123 | the number of outcomes that raised, at most the number of outcomes |
| Enrichment.BatchErrorsCounted | content_enrichment.py:112-125 | over unmarked listings, the stats' error count equals the number of enrichments that raised |
| Enrichment.MarkedExactlyOnFailure | content_enrichment.py:115-123 | an unmarked listing comes out marked exactly when its enrichment raised |
| Enrichment.MarkedOnError | content_enrichment.py:119-123 | an entry carries the mark exactly when its outcome is an exception |
| TextGen.FallbackRent | text_generator.py:131-135 | the rent line is present exactly when the price is truthy, and then starts with '💰' |
| TextGen.FallbackCaption | text_generator.py:128-140 | the fallback caption starts with the title line and ends with the fixed hashtag line; a rent line follows the title exactly when the price is truthy |
| TextGen.GenerateCaption | text_generator.py:53-63 | a reply becomes the stripped reply followed by exactly the DM/WhatsApp call to action; a failed call gives the fallback caption |
| TextGen.FirstLines | text_generator.py:187-191 | the first three lines joined again hold at most two line breaks |
| TextGen.SummaryFromReply | text_generator.py:184-191 | a summary from a reply holds at most two line breaks |
| TextGen.FirstLinesMeaning | text_generator.py:187-191 | the text is its first three lines followed by a rest that is empty for at most three lines and otherwise starts with a break |
| TextGen.SummaryFromReplyMeaning | text_generator.py:184-191 | the summary is the whole stripped reply when that has at most three lines; otherwise it is exactly its first three lines, followed in the reply by a line break |
| TextGen.FirstThreeLines | text_generator.py:187-191 | of more than three lines, the first three hold two breaks and the rest starts with a break |
| TextGen.FallbackSummaryLines | text_generator.py:197-210 | the development (or title) cut to 15 characters, `$` and the price, and the area, each exactly when truthy and in that order; it raises exactly when the development is truthy but not text |
| TextGen.FallbackSummary | text_generator.py:197-211 | fails exactly when collecting the lines fails, and otherwise joins every collected line, since there are at most three |
| TextGen.FallbackSummaryLineCount | text_generator.py:197-211 | when no collected value holds a line break, the fallback summary has at most three lines |
| TextGen.GenerateSummary | text_generator.py:142-195 | a reply always yields a summary; only the fallback can raise |
| TextGen.AddDefaults | text_generator.py:264-266 | the tags found stay in front; a default is appended only when absent and fewer than 15 are held; the added tags are distinct defaults |
| TextGen.DefaultsAllAdded | text_generator.py:264-266 | when the tags found and the defaults fit in 15, every default is present |
| TextGen.Take | text_generator.py:268 | `hashtags[:15]` keeps a prefix of at most 15 tags |
| TextGen.AppendDefaults | text_generator.py:264-266 | the loop appends the defaults as `AddDefaults` says |
| TextGen.MergeHashtags | text_generator.py:256-268 | the merged tags are the found tags with defaults added, cut to 15 |
| TextGen.GenerateHashtags | text_generator.py:213-275 | the tags for a reply, or exactly the nine defaults when the call failed |
| TextGen.HashtagsFor | text_generator.py:213-275 | at most 15 tags; the nine defaults when the call failed; otherwise the tags found come first and what follows is not among them |
| TextGen.HashtagsMeaning | text_generator.py:256-268 | at most 15 tags; the tags found come first in their order; anything after them is a missing default; with room, every default is present |
| Chatbot.IntentOf | chatbot.py:28-194 | the group picked is mentioned in the message and no group checked before it is; the default answer means no group is |
| Chatbot.IntentOfMeaning | chatbot.py:28-194 | the answer comes from the first keyword group, in the order greeting, price, rooms, area, search, agent, help, found as a substring; the default answers exactly when none is |
| Chatbot.DigitRunEnd | chatbot.py:69 | the digit run starting at a position is as long as possible |
| Chatbot.FirstDigitRun | chatbot.py:69 | `re.search(r'(\d+)')`: the leftmost, longest run of digits, or none exactly when no digit occurs |
| Chatbot.RoomsText | chatbot.py:69-71 | the rooms capture is a non-empty run of digits |
| Chatbot.PriceText | chatbot.py:41 | the price capture exists exactly when a digit does, extends the first digit run and holds only digits and commas |
| Chatbot.Without | chatbot.py:44 | `replace(',', '')` drops every comma and keeps every other character |
| Chatbot.BudgetDigits | chatbot.py:41-44 | with the commas removed the budget text is a non-empty run of digits |
| Chatbot.CommasRemoved | chatbot.py:44 | removing the commas from digits and commas leaves only digits |
| Chatbot.BudgetParses | chatbot.py:44-45 | `int(budget)` always succeeds and reads the digits |
| Chatbot.FirstAreaMentioned | chatbot.py:95-106 | no area is found exactly when no area word occurs; otherwise the first area found is the first in check order whose word occurs |
| Chatbot.KeywordInsideWord | chatbot.py:28 | keywords match inside words: "which area" holds "hi" and gets the greeting |
| Chatbot.PriceStoresBudget | chatbot.py:41-65 | with a number, the budget is stored as an integer and then formatting the reply raises; without one, the budget question is asked and nothing changes |
| Chatbot.RoomsStoresDigits | chatbot.py:68-91 | with a number, its first digit run is stored as the rooms text; without one, the rooms question is asked and nothing changes |
| Chatbot.AreaStoresFirst | chatbot.py:94-125 | the first recognised area, checking Central/Admiralty first, is stored and named; without one, the area question is asked and nothing changes |
| Chatbot.PriceTurn | chatbot.py:40-65 | the price answer succeeds exactly when the message has no number, and then changes nothing; the stage, rooms and area are kept, and a changed budget is the number read with commas removed |
| Chatbot.Respond | chatbot.py:25-194 | only the price answer can fail; only the greeting sets the stage; the last search is kept; answers other than price, rooms and area keep every preference |
| Chatbot.RespondKeepsStage | chatbot.py:18-29 | no answer moves the stage off 'greeting' or sets the last search |
| Chatbot.RespondChangesOwnPreference | chatbot.py:40-125 | only the price, rooms and area answers change a preference, each only its own, and none removes one |
| Chatbot.SearchListsPreferences | chatbot.py:128-159 | the search answer lists one criterion per stored preference and asks for preferences when none is stored |
| Chatbot.Converse | chatbot.py:25-194 | the branch chain returns the answer and leaves the context as `Respond` says |
| Chatbot.GreetingKept | chatbot.py:18-29 | storing a context at the greeting stage keeps every context at the greeting stage |
| Chatbot.PropertyChatbot.constructor | chatbot.py:10-11 | a new bot holds no contexts |
| Chatbot.PropertyChatbot.ProcessMessage | chatbot.py:13-194 | the message is lowercased and stripped, an unknown user gets a fresh context, and only that user's context changes; the user count grows by one exactly for a new user |
| Chatbot.PropertyChatbot.ProcessText | chatbot.py:17-194 | the answer and the new context of one user for already normalised text; other users are untouched |
| Chatbot.PropertyChatbot.ChatMessage | chatbot.py:199-227 | a missing message is a 400; a non-text message or an unusable user id is an error that changes nothing; otherwise the reply and new context are the bot's |
| Chatbot.PropertyChatbot.ResetChat | chatbot.py:229-249 | only the given user's context is removed, nothing happens when it has none, and the user count drops by at most one |
| Analytics.Count | analytics.py:18-19 | a filtered count never exceeds the number of rows |
| Analytics.CountMonotone | analytics.py:282-318 | a weaker filter never counts fewer rows |
| Analytics.PercentBounds | analytics.py:321-327 | a share of at most the whole is a percentage between 0 and 100, monotone in the share |
| Analytics.GuardedRate | analytics.py:43 | a rate over nothing is 0; a part of at most the whole gives a rate in [0,100]; the whole gives 100 |
| Analytics.DaysArg | analytics.py:14-15 | `days` defaults to 30 and an argument `int()` rejects falls back to 30 |
| Analytics.Bump | analytics.py:22-25 | counting one more row with a key adds that key, raises its count by one, leaves the other counts alone and keeps keys distinct |
| Analytics.TallyShape | analytics.py:22-25 | the grouping has one row per distinct key, exactly the keys of the column, and the counts add up to the number of rows |
| Analytics.TallyCounts | analytics.py:22-25 | each key's count is the number of rows holding it |
| Analytics.TallyMeaning | analytics.py:22-27 | `group_by` counting: distinct keys, exactly the keys present, each counted by multiplicity, summing to the row count |
| Analytics.ToMap | analytics.py:27 | the dict holds exactly the grouped keys with their counts |
| Analytics.Statuses | analytics.py:23 | the status column, one entry per lead |
| Analytics.Sources | analytics.py:31 | the source column, one entry per lead |
| Analytics.GroupCountsMeaning | analytics.py:18-35 | `status_counts` and `source_counts` hold exactly the values present, each with its number of leads, and the per-status counts add up to `total_leads` |
| Analytics.AssignedCountAgrees | analytics.py:46-50 | the outer-join count of an agent's leads is its `leads` relationship count |
| Analytics.AgentRowFor | analytics.py:53-59 | the row the agent query is meant to give: all the agent's leads, converted ones at most that, and an agent without leads gets 0 converted and a rate of 0; the rate lies in [0,100] |
| Analytics.AgentPerformance | analytics.py:52-59 | one row per agent, in table order |
| Analytics.AgentQueryAsWritten | analytics.py:46-50 | the agent query as written raises whatever the tables hold |
| Analytics.GetDashboardMetrics | analytics.py:9-95 | as written, every call ends in the `except`: a 500 with the agent query's exception |
| Analytics.DashboardFigures | analytics.py:14-92 | the figures the route is meant to return: every figure is the count the queries define over the period, the conversion rate is 0 without new leads, and one agent row per agent |
| Analytics.DashboardRateCanPassHundred | analytics.py:38-43 | converted leads are counted by update time but divided by leads created in the period, so the rate can reach 200 |
| Analytics.PeriodStart | analytics.py:15 | the period starts no later than now exactly when `days` is not negative, and exactly at now for 0 days |
| Analytics.Funnel | analytics.py:282-318 | number of leads ≥ total ≥ contacted ≥ qualified ≥ viewing ≥ applied ≥ converted, since each stage's statuses include the next stage's |
| Analytics.FunnelRates | analytics.py:320-327 | the rates are empty exactly when the period has no leads, and otherwise have the five rate keys |
| Analytics.FunnelRatesMeaning | analytics.py:320-327 | the rates are empty exactly when the period has no leads; otherwise five rates, 100 ≥ contact ≥ qualification ≥ viewing ≥ application ≥ conversion ≥ 0 |
| Analytics.GetConversionFunnel | analytics.py:271-335 | the route answers the funnel counts for the period and their rates |
| Analytics.RangeOf | analytics.py:345-351 | every score from 0 to 100 lies in some range |
| Analytics.ScoreRangesPartition | analytics.py:345-351 | the ranges are disjoint and cover 0 to 100: a score there lies in exactly one range, any other in none |
| Analytics.BucketStats | analytics.py:355-372 | a bucket counts the leads in its range and the converted ones among them; converted ≤ count; the rate is 0 for an empty bucket and lies in [0,100] |
| Analytics.BucketsFor | analytics.py:353-372 | the loop yields one bucket per range, in order |
| Analytics.ScoreDistribution | analytics.py:344-372 | `score_distribution` has one bucket per score range, in order |
| Analytics.BucketTotalStep | analytics.py:355-358 | the first lead adds to the bucket total the number of ranges holding its score |
| Analytics.BucketsCountScoredLeads | analytics.py:345-372 | the bucket counts add up to the number of leads scored from 0 to 100, each counted once |

## Left out

- Flask routing, `request.get_json`, `jsonify` and status-code plumbing: route outcomes are `Result` values whose error kind stands for the status code (`BadRequest` 400, `Internal` 500).
- SQLAlchemy queries and sessions: tables are sequences in store order, and `.first()` is the first match in that order. The session is the `Database` object, committed or rolled back as a whole. The identity map is modelled only as far as it reaches `len(agent.leads)`: a loaded `leads` collection keeps its length while its agent object is alive, because setting `assigned_agent_id` does not refresh the backref; the identity map holds unchanged objects weakly, so only the agent a live variable refers to (the last one `find_best_agent` returned) keeps its collection, and every other agent is reloaded at its next query (`LeadRoutes.Loaded`). Garbage collection timing beyond CPython's reference counting is not modelled.
- `to_dict` renderings of leads and agents, and every read-only listing, detail, update and delete route of leads.py and agents.py. The only part of `get_leads` modelled is the `per_page` cap.
- The OpenAI calls, their prompts and the regular expression that extracts hashtags: replies, and the tags found, are inputs.
- The spreadsheet fetch of google_sheets_service.py: each sheet's rows are inputs.
- image_processor.py (downloads, compositing, uploads): the overlay and collage URLs it returns are inputs.
- Clocks: `now` and the enrichment timestamp are inputs. The chatbot route's reply timestamp is not modelled.
- Floating point: rates and the agent performance term are exact reals, and `round(…, 2)` is not applied.
- Analytics.DashboardFigures: `avg_response_hours` (a `julianday` average) is not modelled.
- Analytics routes other than the dashboard, funnel and score distribution are not modelled: leads trend, source performance, agent comparison, property performance and export. The per-status score averages of the lead-scoring route are not modelled either.
- Analytics.AgentRowFor: models the per-agent counts the outer-join query is meant to produce, for the intended figures (`Analytics.DashboardFigures`). As written, the query raises before any row exists (see "Findings"). The SQL `case` expression itself is not modelled.
- Analytics.PeriodStart: integers are unbounded, so the `OverflowError` that `timedelta` raises for a huge `days` is not modelled.
- Common.Lower: lowercases ASCII letters only. Other case mappings of `str.lower()` are not modelled.
- Common.PyInt: accepts ASCII digits only. The other Unicode decimal digits that `int()` accepts are not modelled, and neither is the `ValueError` that `int()` raises for text of more than 4300 digits.
- Chatbot.FirstDigitRun: `\d` also matches non-ASCII decimal digits, such as the full-width '２' in "２房". The model's digits are ASCII only, so such a message reads as holding no number. The same holds for Chatbot.RoomsText and Chatbot.PriceText.
- Enrichment.CreatePostData: a JSON object stored as `ai_hashtags` is joined by its keys, in insertion order. The model's objects are unordered maps, so the model reports a failure for that case instead (Enrichment.JoinTags returns none for an object).
- Common.Show: renders lists and dictionaries as a placeholder instead of Python's `repr`. The model only shows text and numbers where a property depends on the text.
- Concurrency: simultaneous requests and the resulting race on agent capacity are not modelled.
- dashboard.py, enrichment.py, scraper.py, the spreadsheet access script and the front-end files are mock data, user interface or I/O glue, and are not part of this model.

## Findings

| source | as written | input that shows it | evidently intended | confidence | as-written member | corrected member |
|---|---|---|---|---|---|---|
| analytics.py:49 | `func.case([...], else_=0)` builds a generic SQL function named `case`, and constructing it with the keyword `else_` raises a `TypeError`; the `except` at analytics.py:94-95 turns it into a 500 | any call of `GET /analytics/dashboard`, even on empty tables | SQLAlchemy's `case((Lead.status == 'converted', 1), else_=0)`, so that each agent gets a row with its lead and conversion counts | not executed | Analytics.GetDashboardMetrics | Analytics.DashboardFigures |
