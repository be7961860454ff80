# Construction estimator core, modelled in Dafny

This project models the deterministic code that a construction-estimating SaaS runs around its vendor calls. The product is a React dashboard with Vercel API routes. A contractor asks a generative model for a priced estimate, adjusts markup and overhead, commits the result to a per-user ledger, and pays for a plan through Stripe. The model, the shopping-price search, Firestore, localStorage, Stripe, the clock and id generation are all oracles. Each one is a function or value given as a parameter, and the model states what the repository's own code does with their answers.

The model has six parts, with one Dafny module per source file:

- **Estimate post-processing.** Three paths are modelled: the client path (`ClientEstimate`, src/geminiService.ts), the older root variant (`LegacyEstimate`, geminiService.ts) and the server multi-pass handler (`ServerEstimate`, api/generate-estimate.ts). They share the closed-enum schema (`Schema`, `EstimateTypes`) and helpers for price search (`MarketApi`, `MarketClient`), historical bids (`Rag`) and error messages (`ErrorHandler`). JSON is a datatype (`Json`), and JavaScript truthiness, member access and template text are spelled out there.
- **Financial arithmetic.** `Financial` covers the burdened price and the ledger sum, `DigitalTwin` the Standard/Premium tier, and `DivisionGroups` the CSI-division grouping. All of it is exact `real` arithmetic.
- **Ledger and quota state.** Each store is a class holding its collections as `seq` or `map` fields:
  - `LocalStore.Storage` for localStorage (dbService.ts);
  - `UserStore.CloudStore` for Firestore in src/dbService.ts;
  - `AccountStore.Workspace` for Firestore in src/services/dbService.ts, covering the quota, leads, auto-booking and the waitlist.
- **Billing.** `Plans` holds the plan table. `Checkout` validates the checkout request and chooses the line item. `Webhook.Store` upserts waitlist and user records.
- **Small state machines:**
  - the voice tool-call loop (`Voice.VoiceLine`);
  - the waitlist filter (`WaitlistView`);
  - the leads board (`LeadsBoard`);
  - the onboarding tour (`OnboardingTour.Tour`);
  - the intake form (`IntakeForm.Form`).
- **The two application shells.** `RootApp.App` models App.tsx and `AuthApp.App` models src/App.tsx.

The model follows the code where the code disagrees with the repository's tests or type declarations:

- The checkout handler refuses a Founder request that has no userId (`Checkout.FounderCheckoutRefused`), and src/services/paymentService.ts:84-95 sends none. It also answers with `clientSecret` rather than the `id` that tests/e2e/complete-payment-e2e.spec.ts expects.
- The checkout handler forwards no waitlist metadata, so the webhook's waitlist branch cannot be reached through it.
- The voice agent stores lead status "HOT" or "NEW", while the leads board has only Hot, Warm and Cold columns (`LeadsBoard.VoiceLeadsHidden`).
- The `UserPlan` enumeration in src/types.ts:2-9 has no ESSENTIAL and no FOUNDER. So the default session of src/App.tsx carries no plan (`AuthApp.DefaultSession`), and the Founder table entry sits under the key "undefined" (see Findings).
- `GroundingSource` in src/types.ts:61-66 declares fields other than the `{title, uri}` objects the code builds. The model uses what the code builds.
- The checkout handler, the plan lookups and saveEstimate are modelled as written (`Checkout.Respond`, `Plans.CanAccessFeature`, `AccountStore.Workspace.SaveEstimate`). The corrected behaviour is modelled beside them (see Findings).
- The server path neither validates the model output nor recomputes totals (`ServerEstimate.MergeSources` keeps every key of the model output), and a lookup that throws aborts the request (`ServerEstimate.ThrowingLookupFails`).
- No path lowercases an insight's `impact`: the enumeration is matched exactly.
- A markup plus overhead of 100 or more is not guarded by the formula, only by the slider bounds (`Financial.FullBurdenNotFinite`).

## Model

| member | source | states |
|---|---|---|
| ErrorHandler.NewAppError | src/errorHandler.ts:2-11 | an `AppError` keeps its message and code and has status 500 unless one is given |
| ErrorHandler.Name | src/errorHandler.ts:9 | an `AppError` is named "AppError" |
| ErrorHandler.HandleError | src/errorHandler.ts:13-26 | an `AppError` or any other `Error` maps to its own message; any other value maps to the generic apology |
| ErrorHandler.RethrowKeepsMessage | src/errorHandler.ts:13-26 | handling, wrapping the text in a new `Error` and handling again yields the same message |
| EstimateTypes.ParseCategory | src/geminiService.ts:16 | a category name is accepted only as one of the five exact names |
| EstimateTypes.ParseCategoryInverse | src/geminiService.ts:16 | every category's name parses back to that category |
| EstimateTypes.ParseInsightKind | src/geminiService.ts:23 | an insight type is accepted only as "risk", "market" or "compliance" |
| EstimateTypes.ParseInsightKindInverse | src/geminiService.ts:23 | every insight type's name parses back to it |
| EstimateTypes.ParseImpact | src/geminiService.ts:26 | an impact is accepted only as exactly "low", "medium" or "high" |
| EstimateTypes.ParseImpactInverse | src/geminiService.ts:26 | every impact's name parses back to it |
| Schema.CategoryNames | src/geminiService.ts:16 | a category parses iff it is one of Material, Labor, Permit, Sub, Equipment (no case folding) |
| Schema.KindAndImpactNames | src/geminiService.ts:23-26 | an insight type parses iff it is in {risk, market, compliance}; an impact iff it is in {low, medium, high} |
| Schema.ItemAccepted | src/geminiService.ts:9-21 | a line item validates iff every required field has its type, the category is in the closed set and `logic` is absent or a string |
| Schema.InsightAccepted | src/geminiService.ts:22-27 | an insight validates iff its four fields have their types and type and impact are in their closed sets |
| Schema.EachValid | src/geminiService.ts:9-30 | an array validates iff each of its elements does |
| Schema.EachValues | src/geminiService.ts:9-30 | a validated array holds one value per element, in order |
| Schema.EachReports | src/geminiService.ts:9-30 | every issue of every element is reported by the array |
| Schema.ItemsAccepted | src/geminiService.ts:9-21 | the item array validates iff every element has the item shape |
| Schema.InsightsAccepted | src/geminiService.ts:22-27 | the insight array validates iff every element has the insight shape |
| Schema.StringsAccepted | src/geminiService.ts:30 | the agenda array validates iff every element is a string |
| Schema.ParseEstimate | src/geminiService.ts:6-31 | `EstimateResultSchema.parse`: a value that is not an object fails with a single issue at the root path; a parsed estimate carries the model's own `projectSummary`, `paymentTerms`, `marketConfidence` and `regionalMultiplier` and never any sources; what it accepts is stated by Schema.EstimateAccepted and its round trip by Schema.EstimateRoundTrip |
| Schema.EstimateAccepted | src/geminiService.ts:6-31 | the schema accepts exactly the values of the declared shape: all required keys typed, only `logic` and `suggestedAgenda` optional |
| Schema.RequiredKeyReported | src/geminiService.ts:6-31 | a missing required top-level key (or a non-array items/insights) fails validation, with an issue under that key |
| Schema.UnknownCategoryReported | src/geminiService.ts:16 | an item whose category is outside the closed set fails validation, with an issue at that item's category |
| Schema.UnknownKeysIgnored | src/geminiService.ts:6-31 | keys the schema does not name change neither the verdict nor the value |
| Schema.ItemRoundTrip | src/geminiService.ts:9-21 | the JSON form of any line item validates back to that item |
| Schema.InsightRoundTrip | src/geminiService.ts:22-27 | the JSON form of any insight validates back to that insight |
| Schema.ItemsRoundTrip | src/geminiService.ts:9 | the JSON array of any item list validates back to the list |
| Schema.InsightsRoundTrip | src/geminiService.ts:22 | the JSON array of any insight list validates back to the list |
| Schema.StringsRoundTrip | src/geminiService.ts:30 | a JSON array of strings validates back to the strings |
| Schema.EstimateRoundTrip | src/geminiService.ts:6-31 | the JSON form of any estimate validates back to the estimate, without its sources (the schema strips unknown keys) |
| ClientEstimate.BlueprintPart | src/geminiService.ts:51-60 | an image part is sent iff a non-empty blueprint is given, always as image/jpeg |
| ClientEstimate.DataUrlSendsPayload | src/geminiService.ts:57 | a data URL `header,payload` sends exactly the payload |
| ClientEstimate.NoCommaSendsWhole | src/geminiService.ts:57 | a blueprint without a comma is sent whole |
| ClientEstimate.RecomputeTotals | src/geminiService.ts:101-104 | every total becomes qty × rate; item count, order and every other field are unchanged |
| ClientEstimate.RecomputeKeepsConsistent | src/geminiService.ts:101-104 | items whose totals already equal qty × rate come back unchanged |
| ClientEstimate.RecomputeIdempotent | src/geminiService.ts:101-104 | recomputing twice is recomputing once |
| ClientEstimate.CitedSources | src/geminiService.ts:109-118 | at most one source per chunk, each with a non-empty title and uri |
| ClientEstimate.CitedSourcesAppend | src/geminiService.ts:109-118 | sources keep chunk order: those of a concatenation are those of each part in turn |
| ClientEstimate.CitedSourcesEmpty | src/geminiService.ts:109-118 | there are no cited sources iff no chunk has both web.uri and web.title |
| ClientEstimate.SourcesOf | src/geminiService.ts:106-122 | the attached sources are never empty |
| ClientEstimate.PlaceholderIffNothingCited | src/geminiService.ts:120-122 | the single placeholder {"AI Market Reasoning (General)", "#"} appears iff no chunk is usable; otherwise the cited sources are attached |
| ClientEstimate.ReplyText | src/geminiService.ts:88 | the reply text, or "{}" when the reply has none: never empty |
| ClientEstimate.Generate | src/geminiService.ts:33-130 | without an API key the call fails with the configuration error; a throwing model fails with its error; a reply text that does not parse fails as malformed JSON; a success has consistent totals and non-empty sources |
| ClientEstimate.MalformedReplyFails | src/geminiService.ts:88-95 | a reply that JSON.parse rejects is rethrown as `Error("AI returned malformed data. Please retry.")` |
| ClientEstimate.ThrownError | src/geminiService.ts:40-129 | each failure is rethrown as an `Error` carrying the handled message: the configuration text, the malformed-data text, or the cause's message |
| ClientEstimate.NoKeyNoCall | src/geminiService.ts:39-43 | without a key the outcome does not depend on the model: it is never called |
| ClientEstimate.SuccessShape | src/geminiService.ts:88-124 | a success is the validated reply with only the totals recomputed and the chunk sources attached |
| ClientEstimate.OutOfSetFails | src/geminiService.ts:16-98 | a reply outside the schema (a category, type or impact outside its set included) fails with a schema rejection and no partial result |
| ClientEstimate.EmptyTextRejected | src/geminiService.ts:88-98 | empty reply text is read as "{}", which the schema rejects |
| LegacyEstimate.WebSources | geminiService.ts:85-88 | at most one source per chunk |
| LegacyEstimate.Generate | geminiService.ts:49-95 | every failure surfaces as the single "Terminal Logic Timeout" message; a success means the model answered, its text (or "{}") parsed and validated, and the result is the validated reply with groundingSources set to the web sources of its chunks, or none when it has no chunks |
| LegacyEstimate.SuccessShape | geminiService.ts:81-90 | a reply of the schema's shape succeeds with exactly the validated reply, spread, and groundingSources set to the web sources of its chunks |
| LegacyEstimate.ValidatedSucceeds | geminiService.ts:81-90 | the same for any reply the schema validates |
| LegacyEstimate.ItemsAsValidated | geminiService.ts:81-90 | a reply of the schema's shape succeeds and its items, totals included, are returned exactly as validated |
| LegacyEstimate.OutOfSchemaFails | geminiService.ts:16-94 | a reply outside the schema (out-of-set category, type or impact; a missing field) fails with the single message |
| LegacyEstimate.EmptyTextFails | geminiService.ts:81-83 | empty reply text is read as "{}" and fails |
| LegacyEstimate.WebSourcesAppend | geminiService.ts:85-88 | sources keep chunk order |
| LegacyEstimate.WebSourcesEmpty | geminiService.ts:85-90 | the sources are empty exactly when no chunk has a web part: no placeholder is added |
| LegacyEstimate.UntitledChunk | geminiService.ts:87 | a web chunk without a title is cited as "Market Source" with its uri as given |
| MarketApi.FromData | api/market.ts:33-64 | upstream data of `null` makes the handler throw, answered 500 |
| MarketApi.Handle | api/market.ts:5-65 | any method other than POST is answered 405 "Method not allowed" |
| MarketApi.MissingKeyNoCall | api/market.ts:12-18 | without SERPAPI_KEY the answer is 500 with the configuration message, whatever the search would say |
| MarketApi.UpstreamStatusPropagated | api/market.ts:33-39 | a non-OK upstream answer keeps its status and says "SerpApi error" |
| MarketApi.NoResultsIsNull | api/market.ts:41-44 | absent, null or empty shopping results answer 200 with result `null` |
| MarketApi.FirstResultChosen | api/market.ts:46-57 | otherwise the first result is chosen: name from title, price from extracted_price, locationGrounding the requested location, status 200 |
| MarketApi.QueryIsRequest | api/market.ts:11-31 | the request's material and location are what the search is asked for |
| MarketClient.FetchMaterialPrice | src/services/marketService.ts:15-31 | a network failure or a non-2xx status gives `null`; a 2xx body gives its `result` field unchanged |
| MarketClient.GroundEstimates | src/services/marketService.ts:36-42 | at most min(3, items) results; a value is among them exactly when it is the non-null price lookup of one of the first three items |
| MarketClient.ThreeLookupsInOrder | src/services/marketService.ts:36-42 | with three or more items the result is the first, second and third lookups in that order, each dropped when `null` |
| MarketClient.KeepNonNull | src/services/marketService.ts:41 | a value is kept exactly when it is in the input and is not `null` |
| MarketClient.KeepNonNullAppend | src/services/marketService.ts:41 | dropping nulls keeps input order |
| MarketClient.OnlyFirstThree | src/services/marketService.ts:37 | items after the third are never looked up |
| MarketClient.ThroughEndpoint | src/services/marketService.ts:15-31 | against the real endpoint the result is never undefined: the endpoint's result object, or `null` on any failure |
| Rag.Matching | src/services/ragService.ts:11-14 | a record is kept exactly when it is in the collection, belongs to this user and has status "won" |
| Rag.MatchingAppend | src/services/ragService.ts:11-14 | the query keeps collection order: the matches of a concatenation are those of each part in turn |
| Rag.WonQuery | src/services/ragService.ts:11-16 | at most 5 records, each from the collection, this user's and won |
| Rag.ToBid | src/services/ragService.ts:19-24 | margins is the record's margins when truthy, and 20 otherwise |
| Rag.HistoricalContext | src/services/ragService.ts:8-29 | a failed query gives []; otherwise at most 5 bids, each with status "won" |
| Rag.BidsFollowRecords | src/services/ragService.ts:19-24 | the k-th bid is the k-th matching record mapped field by field |
| Rag.OthersIgnored | src/services/ragService.ts:13-14 | records of other users, or not won, never contribute |
| Rag.BidsJson | src/services/ragService.ts:19-24 | one JSON element per bid |
| ServerEstimate.ParseProject | api/generate-estimate.ts:96 | the project is accepted iff it is an object with string scope, location and description (the shape declared at api/generate-estimate.ts:8-13) |
| ServerEstimate.StripFences | api/generate-estimate.ts:114 | stripping never lengthens the text and adds no character |
| ServerEstimate.StripKeepsFirst | api/generate-estimate.ts:114 | fence stripping keeps a first character that is not a backtick |
| ServerEstimate.StripNoDoubleStart | api/generate-estimate.ts:114 | stripping never creates a leading "``" |
| ServerEstimate.StripLeavesNoFence | api/generate-estimate.ts:114 | no "```" survives the removal of every "```json" and "```" marker |
| ServerEstimate.StripWithoutBackticks | api/generate-estimate.ts:114 | text without a backtick is left as it is |
| ServerEstimate.GroundingStep | api/generate-estimate.ts:115-127 | an unparseable list gives no lookups; a parsed array is looked up only when non-empty and SERPAPI_KEY is set, cut to its first 3 |
| ServerEstimate.BestMatch | api/generate-estimate.ts:136 | reading `shopping_results` throws exactly for a `null` body; a match is found exactly when the body holds a non-null `shopping_results` with a first element, and it is that element |
| ServerEstimate.LookupOne | api/generate-estimate.ts:134-137 | a throwing search or a `null` body aborts with the search's error; a truthy best match is priced from its fields; anything else is `null` |
| ServerEstimate.LookupAll | api/generate-estimate.ts:126-139 | a completed fan-out has one result per material |
| ServerEstimate.Valid | api/generate-estimate.ts:141 | a match is kept exactly when the lookups produced it; no more matches than lookups |
| ServerEstimate.ValidAppend | api/generate-estimate.ts:141 | the filter keeps lookup order: the matches of a concatenation are those of each part in turn |
| ServerEstimate.GroundingLines | api/generate-estimate.ts:143-144 | one grounding line per surviving result, same order |
| ServerEstimate.SourcesJson | api/generate-estimate.ts:145 | one source per surviving result, same order |
| ServerEstimate.GroundingContext | api/generate-estimate.ts:142-146 | the grounding block is empty exactly when nothing was found; otherwise it opens with the LIVE_MARKET_GROUNDING_DATA header, and one match gives the header and its line |
| ServerEstimate.BidLines | api/generate-estimate.ts:151-154 | one line per bid in input order with no filter or cap; a `null` bid throws |
| ServerEstimate.RagContext | api/generate-estimate.ts:150-154 | the history block is empty unless historicalBids is an array |
| ServerEstimate.FinalPrompt | api/generate-estimate.ts:157-159 | the prompt opens with the project's lines, then holds the grounding block, a newline and the history block verbatim, and ends with the ACTION instruction |
| ServerEstimate.AttachmentStep | api/generate-estimate.ts:161-168 | no image exactly for a falsy attachment; a crash exactly when a truthy attachment has no string data; an image keeps the given MIME type, and data without a comma is sent whole |
| ServerEstimate.AttachmentSendsPayload | api/generate-estimate.ts:161-168 | a data URL `header,payload` with comma-free parts and a non-empty payload sends exactly the payload, under the attachment's MIME type |
| ServerEstimate.MergeSources | api/generate-estimate.ts:180 | the model's keys are kept and groundingSources is overwritten by the lookup sources |
| ServerEstimate.Ground | api/generate-estimate.ts:122-147 | pass 2 yields no more matches than lookups, none without lookups, or a 500 |
| ServerEstimate.Synthesis | api/generate-estimate.ts:170-188 | 200 exactly when the model answers text that JSON.parse accepts, and then the body is that parsed answer spread with `groundingSources` set to the lookup sources; a throwing model gives 500 with its message; otherwise 500 |
| ServerEstimate.SynthesisIsAnswer | api/generate-estimate.ts:179-180 | a 200 from the synthesis step is the merge of some parsed synthesis answer with the lookup sources |
| ServerEstimate.Finish | api/generate-estimate.ts:149-188 | passes 3 and 4 answer 200 or 500; a 200 body is a parsed synthesis answer of the model spread with `groundingSources` set to the lookup sources |
| ServerEstimate.AbortPropagates | api/generate-estimate.ts:126-139 | a lookup that throws aborts the whole fan-out |
| ServerEstimate.QueryTexts | api/generate-estimate.ts:128-131 | each material is queried by its own text |
| ServerEstimate.LookupAllAgree | api/generate-estimate.ts:126-139 | the fan-out depends only on the answers to its own queries |
| ServerEstimate.Queries | api/generate-estimate.ts:89-127 | at most 3 price queries, and only for a POST with both keys configured |
| ServerEstimate.LookupsBeyondQueriesIgnored | api/generate-estimate.ts:125-147 | the price service influences the response only through the queries actually sent |
| ServerEstimate.NonPostRefused | api/generate-estimate.ts:89-91 | any method other than POST gets 405 and sends no price query |
| ServerEstimate.Respond | api/generate-estimate.ts:88-189 | 405 exactly for a method other than POST; every answer is 200, 405 or 500; a 200 body is a parsed synthesis answer of the model spread with a `groundingSources` array |
| ServerEstimate.InvalidProjectRefused | api/generate-estimate.ts:94-96 | a POST whose body is not JSON, is `null`, or whose project does not validate gets 500 and sends no price query |
| ServerEstimate.UnparseableAnswerFails | api/generate-estimate.ts:179-188 | when the synthesis answer never parses, every POST gets 500 |
| ServerEstimate.FinishFails | api/generate-estimate.ts:149-188 | when the synthesis answer never parses, passes 3 and 4 answer 500 |
| ServerEstimate.MissingKeyRefused | api/generate-estimate.ts:101-103 | a valid request without GEMINI_API_KEY gets 500 "API Key missing" whatever the model would say |
| ServerEstimate.SuccessCarriesLookupSources | api/generate-estimate.ts:179-183 | a 200 body is a parsed synthesis answer of the model spread with `groundingSources` set to the sources of the priced matches, of which there are no more than price queries sent |
| ServerEstimate.ThrowingLookupFails | api/generate-estimate.ts:126-188 | a lookup that throws is not absorbed: the request gets 500 |
| ServerEstimate.WonBidLine | api/generate-estimate.ts:153 | a won bid renders as "- Project: name, Outcome: won, Margins: m%" |
| ServerEstimate.HistoryRendersWon | api/generate-estimate.ts:153 | every bid of the won-bid query renders with outcome "won" and its own name and margins |
| ServerEstimate.GroundMaterials | api/generate-estimate.ts:122-147 | the sequential lookup loop computes exactly pass 2 |
| ServerEstimate.Handle | api/generate-estimate.ts:88-189 | the step-by-step handler computes exactly the response of the specification |
| ServerEstimate.FinishRequest | api/generate-estimate.ts:149-188 | the prompt-building steps compute exactly passes 3 and 4 |
| Financial.Figure | src/components/EstimateResultView.tsx:17-22 | no estimate gives zeros; base is the sum of item totals; below a 100% burden the final price times (1 - burden) is the base |
| Financial.SliderDivisorBounds | src/components/EstimateResultView.tsx:107-111 | at any slider position 1 - burden lies between 0.25 and 0.85 |
| Financial.FinalAtLeastBase | src/components/EstimateResultView.tsx:20-111 | with a non-negative base, the final price is finite and between the base and four times it |
| Financial.DefaultsDouble | src/components/EstimateResultView.tsx:14-20 | the initial 35% markup and 15% overhead double the base |
| Financial.FullBurdenNotFinite | src/components/EstimateResultView.tsx:20 | a 100% burden divides by zero and gives no finite price |
| Financial.Stored | App.tsx:203 | a finite price is stored as that number, a non-finite one as JSON null |
| Financial.Billed | App.tsx:261 | a record adds its numeric total_cost, and 0 when it has none (a `null` record never reaches it: see Financial.Dashboard) |
| Financial.LifetimeBilled | App.tsx:261 | an empty ledger bills 0; records that each bill a non-negative amount bill a non-negative sum |
| Financial.Dashboard | App.tsx:261 | the rendered figure is absent exactly when some record is `null` (`c.total_cost` throws), and otherwise is the Lifetime Billed sum |
| Financial.DashboardPrepend | App.tsx:197-208 | a non-null record put at the front of the ledger adds its amount to the rendered figure, which stays absent when the ledger already held a `null` record |
| Financial.LifetimeBilledAppend | App.tsx:261 | Lifetime Billed over a concatenation is the sum over the parts |
| Financial.CommitAddsTotal | App.tsx:261 | a new record adds its own total_cost, or nothing when it has none |
| Financial.Base | src/components/EstimateResultView.tsx:19 | no items give a base of 0; non-negative item totals give a non-negative base |
| Financial.BaseAppend | src/components/EstimateResultView.tsx:19 | the base of a concatenation is the sum of the bases |
| DigitalTwin.Multiplier | src/components/DigitalTwinViewer.tsx:13 | the multiplier is 1 exactly for Standard and 1.25 for Premium |
| DigitalTwin.BaseTotal | src/components/DigitalTwinViewer.tsx:14 | no items gives 0, otherwise the sum of item totals |
| DigitalTwin.DisplayedTotals | src/components/DigitalTwinViewer.tsx:67-74 | each displayed item total is the item's total times the multiplier, one per item |
| DigitalTwin.DisplayedSumIsTotal | src/components/DigitalTwinViewer.tsx:13-74 | the displayed item totals add up to the displayed total |
| DigitalTwin.CurrentTotal | src/components/DigitalTwinViewer.tsx:13-15 | no items show 0; Standard shows the base; a non-negative base is never shown lower |
| DigitalTwin.TierTotals | src/components/DigitalTwinViewer.tsx:10-15 | the initial tier shows the base, Premium shows 5/4 of it |
| DigitalTwin.ToggleRestores | src/components/DigitalTwinViewer.tsx:51-58 | Premium then Standard restores the initial total |
| DivisionGroups.Insert | src/components/EstimateResultView.tsx:39 | inserting a new heading keeps the list ascending and adds exactly that heading |
| DivisionGroups.Sort | src/components/EstimateResultView.tsx:39 | sorting distinct headings gives an ascending permutation |
| DivisionGroups.DivisionSetStep | src/components/EstimateResultView.tsx:39 | the set of divisions grows by the last item's division |
| DivisionGroups.Divisions | src/components/EstimateResultView.tsx:39 | the `Set` of divisions has no duplicates and holds exactly the items' divisions |
| DivisionGroups.Section | src/components/EstimateResultView.tsx:43 | a section is no longer than the item list |
| DivisionGroups.HeadingsSortedDistinct | src/components/EstimateResultView.tsx:39 | the headings are ascending and are exactly the items' divisions |
| DivisionGroups.SectionMembers | src/components/EstimateResultView.tsx:43 | an item is in a section iff it is in the estimate with that division |
| DivisionGroups.OccursOnce | src/components/EstimateResultView.tsx:39-43 | a heading of a distinct list occurs once |
| DivisionGroups.NoOccurrence | src/components/EstimateResultView.tsx:39-43 | a division that is not a heading occurs nowhere |
| DivisionGroups.CoveredStep | src/components/EstimateResultView.tsx:39-43 | one more item adds the number of headings equal to its division |
| DivisionGroups.CoveredCountsItems | src/components/EstimateResultView.tsx:39-43 | under distinct headings that cover every division, each item is shown once |
| DivisionGroups.EmptyCovered | src/components/EstimateResultView.tsx:39-43 | no items show nothing |
| DivisionGroups.SectionsPartition | src/components/EstimateResultView.tsx:39-43 | the sections together show every item exactly once |
| LocalStore.WithoutId | dbService.ts:40 | fails exactly when an entry is `null`; otherwise keeps exactly the entries without the id, nothing else |
| LocalStore.WithoutIdAppend | dbService.ts:40 | the filter keeps list order: filtering a concatenation joins the filtered parts, and fails when either part fails |
| LocalStore.WithoutAbsentId | dbService.ts:40 | deleting an id no entry carries leaves the history as it is |
| LocalStore.Storage.constructor | dbService.ts:4-8 | both keys start absent |
| LocalStore.Storage.SaveSession | dbService.ts:12-14 | the session key holds the session; the history key is untouched |
| LocalStore.Storage.GetSession | dbService.ts:16-19 | the stored session, or null when the key is absent |
| LocalStore.Storage.ClearSession | dbService.ts:21-23 | the session key is removed; the history key is untouched |
| LocalStore.Storage.GetHistory | dbService.ts:33-36 | the stored list, or the empty list when the key is absent |
| LocalStore.Storage.SaveEstimate | dbService.ts:26-31 | the estimate is prepended to the old history, stored and returned; the session is untouched |
| LocalStore.Storage.DeleteEstimate | dbService.ts:38-43 | the history without the id is stored and returned; a `null` entry throws and nothing is written |
| LocalStore.SaveThenDeleteRestores | dbService.ts:26-43 | saving an estimate under a fresh id and then deleting that id restores the history |
| UserStore.OwnedBy | src/dbService.ts:97-100 | exactly the documents whose userId is the user's, no others |
| UserStore.Listed | src/dbService.ts:106 | the listed entry has every stored field and the document id when no id field is stored |
| UserStore.InsertByTime | src/dbService.ts:107-109 | inserting into a newest-first list keeps it newest first and adds exactly that document |
| UserStore.SortNewestFirst | src/dbService.ts:107-109 | the history order is newest first and a permutation of the documents |
| UserStore.ListAll | src/dbService.ts:105-106 | one listed entry per document, in order |
| UserStore.History | src/dbService.ts:93-114 | nothing without a user or when the read fails; otherwise one entry per document of the user |
| UserStore.HistoryIsUsersNewestFirst | src/dbService.ts:93-114 | a successful read lists the user's documents and no others, each as often as stored, newest first |
| UserStore.Deleted | src/dbService.ts:117 | exactly the documents with a different id remain |
| UserStore.CloudStore.constructor | src/dbService.ts:45 | no users and no estimates at start |
| UserStore.CloudStore.SaveSession | src/dbService.ts:46-56 | without a user nothing is written; otherwise the session is merged over the stored document with updatedAt |
| UserStore.CloudStore.GetSession | src/dbService.ts:58-73 | the document exactly when there is a user, the read succeeds and the document exists; null otherwise |
| UserStore.CloudStore.SaveEstimate | src/dbService.ts:79-91 | without a user it throws and writes nothing; otherwise it adds the fields with userId and createdAt and returns the refreshed history |
| UserStore.CloudStore.DeleteEstimate | src/dbService.ts:116-119 | the document with that id is removed and the refreshed history returned |
| UserStore.SessionReadsBack | src/dbService.ts:52-55 | every saved field reads back from the merged document |
| UserStore.SavedEstimateListed | src/dbService.ts:84-90 | a saved estimate appears in its owner's history |
| AccountStore.QuotaMessage | src/services/dbService.ts:98 | the refusal opens with "Plan limit reached: You can only create " and names a text limit as it is stored |
| AccountStore.QuotaRefusal | src/services/dbService.ts:93-101 | a refusal exactly when the session has a truthy usage whose limit is not -1 and whose count is at least the limit by JavaScript's `>=`; the refusal is the limit message |
| AccountStore.QuotaRule | src/services/dbService.ts:94-101 | a limit of -1 never refuses; a numeric limit refuses exactly once the numeric count reaches it |
| AccountStore.TextCountAgainstNumber | src/services/dbService.ts:97 | a count stored as text is compared by the number it spells against a numeric limit |
| AccountStore.TextCountAgainstTextLimit | src/services/dbService.ts:97 | a count and a limit both stored as text compare as text: "10" does not reach "9", while 10 reaches 9 |
| AccountStore.NoUsageNoGate | src/services/dbService.ts:93-97 | no session, no usage, or a usage without a count never refuses |
| AccountStore.Incremented | src/services/dbService.ts:114 | a falsy count restarts at 1; a number goes up by one |
| AccountStore.NextUsageAsWritten | src/services/dbService.ts:111-115 | the counter update throws exactly when the session has no usage (or a null one) |
| AccountStore.NewSessionSaveFails | src/services/dbService.ts:94-118 | a freshly created session passes the quota gate and then makes the counter update throw |
| AccountStore.NextUsage | src/services/dbService.ts:111-115 | the written usage has a count; a missing usage becomes a count of 1; every other usage field is kept |
| AccountStore.NextUsageAgrees | src/services/dbService.ts:111-115 | where the code as written does not throw, the corrected counter is the same |
| AccountStore.SaveCountsOne | src/services/dbService.ts:111-118 | a numeric count goes up by exactly one, a missing one becomes 1, other usage fields are kept |
| AccountStore.PositionOf | src/services/dbService.ts:137-138 | the cursor's position in the ordering, or None exactly when it is not there |
| AccountStore.Start | src/services/dbService.ts:137-138 | a page starts at the beginning without a cursor and right after the cursor otherwise |
| AccountStore.PageDocs | src/services/dbService.ts:130-139 | a page holds at most 20 documents |
| AccountStore.HistoryPage | src/services/dbService.ts:126-150 | an empty page without a user or when the read fails; otherwise the items are the listed page documents (the user's, newest first, after the cursor, at most 20) and lastDoc is the last of them, present exactly when the page is not empty |
| AccountStore.WindowFollowsOn | src/services/dbService.ts:128-137 | without a cursor the query gives the first 20 of the ordering; with a cursor from the ordering, only documents after it |
| AccountStore.WindowLastIn | src/services/dbService.ts:141-143 | the last document of a non-empty page is a document of the ordering |
| AccountStore.NextPageAfterLastDoc | src/services/dbService.ts:126-146 | asking for the page after a page's lastDoc gives only documents that come after it in the user's newest-first history |
| AccountStore.SliceNewestFirst | src/services/dbService.ts:133-134 | any window of a newest-first list is newest first |
| AccountStore.SliceUsersDocs | src/services/dbService.ts:132-134 | any window of the user's documents holds only the user's documents |
| AccountStore.NewestIsUsers | src/services/dbService.ts:130-134 | the user's documents ordered newest first are the user's, drawn from the collection, and newest first |
| AccountStore.PageIsUsersNewestFirst | src/services/dbService.ts:130-146 | a page holds only the user's documents, newest first |
| AccountStore.PagesFollowOn | src/services/dbService.ts:130-146 | the first page is the start of the user's history and the next page starts right after its last document |
| AccountStore.Walkthrough | src/services/dbService.ts:220-236 | the booked walkthrough runs tomorrow 10:00-11:00, type walkthrough, for the lead and user, with one attendee: the e-mail or the fallback; the title is "Walkthrough - " followed by the lead's summary when truthy, else "New Lead" |
| AccountStore.LeadId | src/services/dbService.ts:169 | a provided non-empty string id is kept, a missing one is generated |
| AccountStore.Workspace.constructor | src/services/dbService.ts:54 | every collection starts empty |
| AccountStore.Workspace.SaveEstimate | src/services/dbService.ts:88-123 | no user or over quota: it throws and writes nothing; otherwise the stamped estimate is stored; a session without usage then throws, after the store; a session with usage gets the as-written counter and the first page is returned |
| AccountStore.MergeLead | src/services/dbService.ts:171-176 | the merge write keeps the document's other fields and the other leads, takes the lead's fields, and stamps id, userId and updatedAt |
| AccountStore.Workspace.SaveLead | src/services/dbService.ts:164-180 | no user throws, as does a truthy non-string id; otherwise the lead is merged under its id and nothing is answered |
| AccountStore.Workspace.UpdateLead | src/services/dbService.ts:202-247 | the lead is saved as by saveLead; a hot lead with auto-booking on throws after the save when it has no id or the appointments lookup fails; a walkthrough is booked exactly when the lead is hot, auto-booking is on, it has an id, the lookup succeeds and none exists, so at most one per lead |
| AccountStore.Workspace.SubmitWaitlist | src/services/dbService.ts:365-377 | the entry is stored as pending, or the fixed message is thrown and nothing is stored |
| Plans.TableAsWritten | src/config/planDefinitions.ts:3-111 | as written the Founder entry sits under the key "undefined", not "Founder" |
| Plans.Table | src/config/planDefinitions.ts:3-111 | the intended table has Starter and Founder, no "undefined" key, and every plan under its own name |
| Plans.Limits | src/config/planDefinitions.ts:133 | a plan's own features when its key is in the table, Starter's otherwise |
| Plans.FounderKeyMisplaced | src/config/planDefinitions.ts:94-134 | as written, Founder gets the Starter limits and a missing plan gets Founder's unlimited ones |
| Plans.FounderKeyCorrected | src/config/planDefinitions.ts:94-134 | with the intended table, Founder gets its own limits and a missing plan Starter's |
| Plans.UnknownPlanIsStarter | src/config/planDefinitions.ts:132-134 | as written, a plan key outside the table — "Founder" among them — falls back to Starter; a listed plan gets its own features |
| Plans.GetPlanLimitsAsWritten | src/config/planDefinitions.ts:132-134 | as written: a listed plan's own features, Starter's for "Founder", Founder's for a missing plan |
| Plans.GetPlanLimits | src/config/planDefinitions.ts:132-134 | over the intended table: a plan's own features, Starter's for a plan key outside it |
| Plans.CanAccessFeature | src/config/planDefinitions.ts:136-139 | as written: a listed plan's own feature, Starter's for "Founder" and for unknown keys, Founder's for a missing plan |
| Plans.CanAccessFeatureCorrected | src/config/planDefinitions.ts:136-139 | over the intended table: the plan's own feature, Starter's for an unknown or missing plan |
| Plans.ContractsFromBusinessUp | src/config/planDefinitions.ts:13-103 | contracts are available on plans other than Starter and Pro; as written Founder gets none either, with the intended table it does |
| Plans.PlanPrices | src/config/planDefinitions.ts:6-96 | the monthly prices, and their order among the paid tiers |
| Plans.EstimateAllowances | src/config/planDefinitions.ts:9-99 | 3 estimates a month on Starter, 25 on Pro, unlimited elsewhere |
| Plans.OnlyFounderIsLifetime | src/config/planDefinitions.ts:108-109 | only Founder is lifetime and only it has a slot limit, 30 |
| Plans.FounderSlotsRemaining | src/config/planDefinitions.ts:114-130 | at most 30; 30 when counting fails; 0 exactly when 30 or more are taken; otherwise 30 less the taken |
| Plans.SlotsShrink | src/config/planDefinitions.ts:123-124 | more paid Founders never leave more slots |
| Checkout.UnitAmount | api/create-checkout-session.ts:26-34 | a positive table price exactly when the plan name's text (the property key JavaScript uses) is in the table, and then that table price; a string name is looked up as itself |
| Checkout.ArrayPlanNamePriced | api/create-checkout-session.ts:34-50 | a plan name `["Pro"]` without a priceId is charged the Pro price, 14900 cents, under the product name "Myers Subscription: Pro" |
| Checkout.ChoiceAsWritten | api/create-checkout-session.ts:36-53 | as written, a request is invalid exactly without a table price and without a truthy priceId; an unknown plan with a non-"price_" priceId is sent with no amount (NaN) |
| Checkout.UnknownPlanGetsNaN | api/create-checkout-session.ts:36-53 | plan "Gold" with priceId "abc" gets a NaN unit amount as written, and is refused as invalid by the corrected choice |
| Checkout.Choose | api/create-checkout-session.ts:36-53 | invalid exactly when there is no table price and no "price_" priceId; a price reference is the given "price_" id; a table plan is charged its price in cents |
| Checkout.ChooseAgrees | api/create-checkout-session.ts:36-53 | wherever the code as written yields a real amount, the corrected choice is the same |
| Checkout.Fields | api/create-checkout-session.ts:12-23 | non-POST gets 405; a body that is not JSON or is `null` is a 500; otherwise the fields come back only when planName and userId are both truthy |
| Checkout.Prepare | api/create-checkout-session.ts:12-65 | as written: the refusals of the first checks are kept; "Invalid plan selected" exactly when there is no table price and no truthy priceId; a price_data item has no amount exactly when the plan has no table price |
| Checkout.PrepareCorrected | api/create-checkout-session.ts:12-65 | with the intended validation every price_data item carries a positive amount |
| Checkout.ReturnUrl | api/create-checkout-session.ts:65 | the origin header (or "null") followed by the path that returns the session id |
| Checkout.Respond | api/create-checkout-session.ts:12-76 | as written: 200 with the client secret exactly when the request is accepted and Stripe creates the session; a Stripe error is a 500 carrying its message; a refusal is answered as is |
| Checkout.RespondCorrected | api/create-checkout-session.ts:12-76 | the same handler over the intended validation: 200 exactly when the corrected preparation succeeds and Stripe creates the session |
| Checkout.NaNAmountSentToStripe | api/create-checkout-session.ts:36-53 | the "Gold"/"abc" request reaches Stripe with a NaN amount; the corrected handler answers 400 "Invalid plan selected" |
| Checkout.NonStringPriceIdFails | api/create-checkout-session.ts:41 | a numeric priceId makes `startsWith` throw, a 500; the corrected handler refuses it 400 for a plan outside the table |
| Checkout.NonPostRefused | api/create-checkout-session.ts:13-15 | anything but POST is answered 405 whatever Stripe would do |
| Checkout.MissingFieldsRefused | api/create-checkout-session.ts:21-23 | a body without a truthy planName or userId is refused 400 |
| Checkout.FounderCheckoutRefused | api/create-checkout-session.ts:21-23 | a Founder request without a userId, as src/services/paymentService.ts:84-95 sends it, is refused 400 |
| Checkout.UnknownPlanRefused | api/create-checkout-session.ts:34-38 | a plan outside the table without a priceId is refused as invalid |
| Checkout.LineItemRule | api/create-checkout-session.ts:41-53 | a "price_" priceId is used as is; otherwise a table plan is charged its price in cents |
| Json.Get | api/stripe-webhook.ts:57-58 | optional chaining yields a value exactly when the object has that member, and it is that member |
| Json.PrimitiveText | src/services/dbService.ts:97 | `ToPrimitive` gives text exactly for a string, an array or an object, and a string is its own text |
| Json.NumberOf | src/services/dbService.ts:97 | `undefined` converts to NaN, a number to itself, and any value with a primitive text to the number read from that text |
| Json.AtLeastCases | src/services/dbService.ts:97 | `>=` compares two numbers as numbers and two strings as text, and is false whenever a side is `undefined` |
| Text.BeforeIsStrictTotal | src/services/dbService.ts:97 | text order is irreflexive, asymmetric and total on distinct texts |
| Text.BeforeTransitive | src/components/EstimateResultView.tsx:39 | text order, the default `sort()` order, is transitive |
| Webhook.RouteOf | api/stripe-webhook.ts:53-113 | only completed checkouts act; a waitlist flag of "true" records a Founder; otherwise a truthy uid and plan grant the plan to that uid |
| Webhook.FirstWithEmail | api/stripe-webhook.ts:64-67 | the first waitlist entry with the e-mail, or None when there is none |
| Webhook.PaidEntries | api/stripe-webhook.ts:68-86 | both the update and the new entry are marked PAID_FOUNDER, the new one with the e-mail |
| Webhook.RecordPaid | api/stripe-webhook.ts:63-87 | a matching entry is updated in place; otherwise a new paid entry is appended |
| Webhook.GrantActivates | api/stripe-webhook.ts:98-106 | the granted fields carry the plan, subscriptionActive true and status "active" |
| Webhook.PaidCount | src/config/planDefinitions.ts:120-123 | the paid count never exceeds the number of entries |
| Webhook.PaidCountUpdate | src/config/planDefinitions.ts:120-123 | replacing one entry changes the paid count by that entry alone |
| Webhook.PaidCountAppend | src/config/planDefinitions.ts:120-123 | appending an entry adds one exactly when it is paid |
| Webhook.RecordPaidCounts | api/stripe-webhook.ts:63-87 | recording a Founder changes exactly one entry, leaves it paid and raises the paid count by one unless it was already paid |
| Webhook.Store.constructor | api/stripe-webhook.ts:63-98 | the collections start as given |
| Webhook.Store.Handle | api/stripe-webhook.ts:36-116 | non-POST gets 405, a bad signature 400 and nothing written; every verified event gets 200 with the routed write applied when it succeeds |
| Voice.LeadRecord | api/voice.ts:112-121 | null arguments throw; otherwise the lead keeps the arguments' fields, has source voice_agent and status HOT exactly when urgency is "High", NEW otherwise |
| Voice.RunCall | api/voice.ts:110-148 | a call that does not throw pushes an entry exactly when its name is handled, carrying the call's id; a lead is stored only for create_lead, from the agent |
| Voice.CreateLeadContinues | api/voice.ts:111-130 | a create_lead call with parsed arguments never stops the loop; a failed store gives an error entry, and a lead is stored exactly when the entry is a result |
| Voice.BookingAnswersStub | api/voice.ts:132-139 | a bookAppointment call answers the fixed stub under its own id and stores nothing |
| Voice.DispatchEmbedsArguments | api/voice.ts:141-148 | a dispatch_supplier call answers with the given supplier name and material list |
| Voice.Run | api/voice.ts:110-149 | no more entries than calls and no more leads than entries |
| Voice.OneEntryPerHandledCall | api/voice.ts:110-149 | when no call throws there is one result per handled call, in call order, with that call's id |
| Voice.LeadsFromAgent | api/voice.ts:116-121 | every stored lead comes from the voice agent and is HOT or NEW |
| Voice.CrashStays | api/voice.ts:110-149 | once a call throws, the later calls do nothing |
| Voice.VoiceLine.constructor | api/voice.ts:14 | the leads start as given |
| Voice.VoiceLine.Handle | api/voice.ts:17-160 | non-POST gets 405; a message that is not tool-calls gets the assistant config; tool-calls run the loop, store its leads and answer the results, or 500 if a call throws |
| Voice.VoiceLine.Dispatch | api/voice.ts:109-150 | the loop stores exactly the leads of the run over the calls and answers its entries, or 500 once a call throws, keeping the leads already stored |
| WaitlistView.StoredSearch | src/components/WaitlistDashboard.tsx:82 | the stored search lower-cases to what was typed lower-cased |
| WaitlistView.Filtered | src/components/WaitlistDashboard.tsx:29-33 | exactly the entries whose name, trade or e-mail contains the search, ignoring case |
| WaitlistView.FilteredAppend | src/components/WaitlistDashboard.tsx:29-33 | filtering keeps the original order |
| WaitlistView.EmptySearchShowsAll | src/components/WaitlistDashboard.tsx:18-33 | the initial empty search shows every entry |
| WaitlistView.CaseIgnored | src/components/WaitlistDashboard.tsx:29-82 | upper-casing the typed search selects the same entries |
| WaitlistView.FilterAgrees | src/components/WaitlistDashboard.tsx:29-33 | searches that match the same entries filter the same way |
| WaitlistView.SpotsRemaining | src/components/WaitlistDashboard.tsx:35 | at most 30 and equal to the slot count with every entry taken |
| WaitlistView.TotalIntent | src/components/WaitlistDashboard.tsx:63 | the spots shown plus the total intent is at least 30 |
| WaitlistView.PaidFounders | src/config/planDefinitions.ts:120-123 | the paid entries are no more than all entries |
| WaitlistView.DashboardUnderstatesSpots | src/components/WaitlistDashboard.tsx:35 | the dashboard never shows more spots than the paid-only count of src/config/planDefinitions.ts:114-130 |
| LeadsBoard.Column | src/components/LeadsDashboard.tsx:61-65 | a column lists exactly the leads with its status |
| LeadsBoard.ColumnAppend | src/components/LeadsDashboard.tsx:61-65 | a column keeps list order: the column of a concatenation is the columns of the parts, joined |
| LeadsBoard.ColumnsPartition | src/components/LeadsDashboard.tsx:52-65 | the three columns together with the leads of any other status account for every lead exactly once |
| LeadsBoard.OtherStatusHidden | src/components/LeadsDashboard.tsx:52-65 | a lead whose status is not Hot, Warm or Cold is on no column |
| LeadsBoard.VoiceLeadsHidden | src/components/LeadsDashboard.tsx:52-65 | leads stored by api/voice.ts:120 with "HOT" or "NEW" appear on no column |
| LeadsBoard.Actions | src/components/LeadsDashboard.tsx:90-97 | Mark Hot shows exactly off the Hot column, Mark Cold exactly off the Cold column |
| LeadsBoard.WithStatus | src/components/LeadsDashboard.tsx:18 | the changed lead has the new status and keeps every other field |
| LeadsBoard.Replaced | src/components/LeadsDashboard.tsx:21 | every lead with the changed lead's id is replaced by it, the others are kept, same length |
| LeadsBoard.ChangeMovesLead | src/components/LeadsDashboard.tsx:17-65 | after a change the lead is on its new column and on no other |
| LeadsBoard.StatusChange | src/components/LeadsDashboard.tsx:17-24 | the list shown and the record persisted carry the same changed lead |
| OnboardingTour.Advance | src/components/OnboardingTour.tsx:35-41 | "next" moves to the following step exactly when there is one |
| OnboardingTour.After | src/components/OnboardingTour.tsx:35-41 | n presses of "next" reach step min(n, last) |
| OnboardingTour.Tour.constructor | src/components/OnboardingTour.tsx:11 | the tour starts on the first step with no completion |
| OnboardingTour.Tour.Next | src/components/OnboardingTour.tsx:35-41 | advances by one before the last step; on the last it completes and stays |
| OnboardingTour.Tour.Close | src/components/OnboardingTour.tsx:51 | the close button completes the tour from any step |
| OnboardingTour.Tour.Bars | src/components/OnboardingTour.tsx:58-59 | one bar per step, exactly the current one highlighted |
| OnboardingTour.Tour.ButtonText | src/components/OnboardingTour.tsx:67 | the button reads "Start Commanding" exactly on the last step |
| OnboardingTour.Tour.Label | src/components/OnboardingTour.tsx:71 | on the last step the counter reads "Step 4 of 4" |
| OnboardingTour.Tour.Current | src/components/OnboardingTour.tsx:49-63 | the card shows the step at the current index, one of the four steps |
| IntakeForm.FinalText | src/components/IntakeForm.tsx:37-42 | an empty range gives no text |
| IntakeForm.FinalTextSplit | src/components/IntakeForm.tsx:37-42 | reading a batch in two parts gives the same text as at once |
| IntakeForm.OnlyFinalsCount | src/components/IntakeForm.tsx:38-41 | results that are not final add nothing |
| IntakeForm.FinalTextAgree | src/components/IntakeForm.tsx:38-41 | two batches that agree on their final results give the same text |
| IntakeForm.Appended | src/components/IntakeForm.tsx:43-47 | an empty transcript changes nothing; otherwise the trimmed description, space and transcript |
| IntakeForm.AppendedIsTrimmed | src/components/IntakeForm.tsx:46 | an appended description has nothing to trim at either end |
| IntakeForm.Form.constructor | src/components/IntakeForm.tsx:23-62 | no error, not listening, a recognizer only where the browser has one |
| IntakeForm.Form.HandleFileChange | src/components/IntakeForm.tsx:79-91 | an upload over 4 MB sets the size error and is not read; an accepted one clears it and is read as a data URL |
| IntakeForm.Form.OnResult | src/components/IntakeForm.tsx:36-49 | the final transcripts from the result index on are appended to the description |
| IntakeForm.Form.ToggleListening | src/components/IntakeForm.tsx:64-77 | without a recognizer it alerts only; otherwise it stops a running session or starts one |
| IntakeForm.Form.OnStop | src/components/IntakeForm.tsx:51-58 | an error or the end of recognition stops listening, and a present recognizer no longer runs |
| RootApp.OnboardingSession | App.tsx:108-114 | the handed-over session is on the "Essential (Pay-per-use)" plan (types.ts:21), with the entered company and trade, not subscribed |
| RootApp.ScreenFor | App.tsx:213-214 | onboarding exactly without a session; the main screen exactly for a truthy subscriptionActive; the paywall otherwise |
| RootApp.App.Screen | App.tsx:213-214 | the app shows onboarding exactly without a truthy session, and the paywall exactly for a session not subscribed |
| RootApp.OnboardingShowsPaywall | App.tsx:213-214 | a fresh onboarding session (built at App.tsx:108-115) always lands on the paywall |
| RootApp.Subscribed | App.tsx:173 | the new session has the plan and subscriptionActive true, keeps every other field and adds nothing else |
| RootApp.SubscribedIsMain | App.tsx:213-214 | a subscribed session passes the gate |
| RootApp.SourceJson | App.tsx:200 | a stored source has its title and, exactly when the source has one, its uri, and no other key |
| RootApp.SourcesJson | App.tsx:200 | one stored source per grounding source |
| RootApp.EstimateFields | App.tsx:200 | no fields without an estimate; otherwise the estimate's own fields, with groundingSources exactly when it has sources |
| RootApp.CopiedEstimateReparses | App.tsx:200 | the copied fields of an estimate validate back, under the reply schema, to that estimate without its sources |
| RootApp.CommitRecord | App.tsx:199-206 | the record has the id, created_at, client name, county and the final price as stored, and otherwise exactly the estimate's own fields |
| RootApp.CommitBillsFinal | App.tsx:197-208 | committing with the sliders in range (App.tsx:449-453) adds a finite final price to Lifetime Billed (App.tsx:261) |
| RootApp.App.constructor | App.tsx:137-151 | no session, dashboard view, billing off, empty ledger, 35% markup and 15% overhead |
| RootApp.App.Mount | App.tsx:153-162 | a stored truthy session is taken, the ledger is read, billing turns on when a key was already selected |
| RootApp.App.CompleteOnboarding | App.tsx:105-115 | the onboarding session is set and the paywall shows |
| RootApp.App.HandleSubscriptionComplete | App.tsx:171-176 | without a session nothing happens; otherwise the subscribed session is set and stored |
| RootApp.App.RunEstimate | App.tsx:178-195 | with billing off it only turns billing on; otherwise the estimate is shown, or the view returns to intake with the fixed alert |
| RootApp.App.Proposal | App.tsx:164-169 | zeros without an estimate; with one and the sliders in range, the final price grosses up the base |
| RootApp.App.LifetimeBilled | App.tsx:261 | the dashboard's figure: none exactly when a ledger record is `null`, 0 for an empty ledger, otherwise the Lifetime Billed sum, non-negative when every record bills a non-negative amount |
| RootApp.App.HandleCommit | App.tsx:197-211 | the commit record is put at the front of the stored ledger, which is shown, and the view returns to the dashboard; Lifetime Billed grows by the final price, or stays absent when the ledger already held a `null` record |
| RootApp.App.DeleteEntry | App.tsx:292 | the ledger becomes the stored list without the id; a null entry throws and nothing changes |
| RootApp.App.Logout | App.tsx:237 | the stored session is cleared and the reloaded app, mounting as at App.tsx:153-162, shows onboarding with the stored ledger |
| RootApp.App.SetOverhead | App.tsx:449 | the overhead slider sets the overhead within 5-25 and nothing else |
| RootApp.App.SetMarkup | App.tsx:453 | the markup slider sets the markup within 10-50 and nothing else |
| AuthApp.DefaultSession | src/App.tsx:49-56 | signature "NODE-" and the upper-cased first six uid characters, the display name or "New Entity", trade GC, not subscribed, and no plan (the enumeration in src/types.ts:2-9 has no ESSENTIAL) |
| AuthApp.ScreenFor | src/App.tsx:140-149 | splash exactly while loading, login exactly without an account, nothing exactly without a session, main exactly for a truthy subscriptionActive |
| AuthApp.App.Screen | src/App.tsx:140-149 | the app shows the splash exactly while loading, and the paywall exactly for a signed-in account whose session is not subscribed |
| AuthApp.DefaultSessionShowsPaywall | src/App.tsx:140-149 | a newly created default session (src/App.tsx:49-56) always shows the paywall |
| AuthApp.CommitFields | src/App.tsx:108-113 | the record has the client name, county and final price as stored, and otherwise exactly the estimate's own fields |
| AuthApp.CommittedTotalIsFinal | src/App.tsx:108-113 | with the sliders in range the committed total is the finite final price that the result view passes up (src/App.tsx:204-211) |
| AuthApp.App.constructor | src/App.tsx:24-38 | no account or session, loading, dashboard view, empty ledger, no error; the splash shows |
| AuthApp.App.AuthChanged | src/App.tsx:40-73 | signed out: no session, empty ledger, login; signed in: the stored session, or the default one saved (paywall), or the sync error when that save fails; loading ends either way |
| AuthApp.App.LoadSession | src/App.tsx:46-58 | the stored session, else the default one merged into the user document, else nothing when the save fails |
| AuthApp.App.HandleSubscriptionComplete | src/App.tsx:78-87 | without a session nothing happens; otherwise the subscribed session is set and saved, or the subscription error is shown when the save fails |
| AuthApp.App.RunEstimate | src/App.tsx:89-102 | the estimate is shown, or the view returns to intake with the handled error message |
| AuthApp.App.HandleCommit | src/App.tsx:104-122 | a successful save stores the record with the user and time and shows the refreshed history on the dashboard; otherwise the ledger error; paying ends either way |
| AuthApp.App.HandleLogout | src/App.tsx:124-130 | signing out leaves no account, no session, an empty ledger and the login screen |
| AuthApp.CommitListed | src/App.tsx:114-115 | a committed estimate appears in the refreshed history |

## Left out

- Number-to-text conversion (`${n}`, `toString`) is the parameter `numText`; JavaScript's shortest round-trip formatting is not modelled.
- Strings are sequences of characters rather than UTF-16 code units. `toUpperCase` and `toLowerCase` are modelled for ASCII letters only.
- `Promise.all` fan-out (api/generate-estimate.ts:126, src/services/marketService.ts:38) is modelled as a sequential, order-preserving map; interleaving is not modelled.
- Firestore query order, `merge: true` semantics and the rejection of `undefined` field values (except the `undefined` lead id that updateLead passes to a query, which `AccountStore.Workspace.UpdateLead` models as a throw) are reduced to a stored sequence or map plus the oracle flags `readOk`, `lookupOk` and `writeOk`; the writes of src/services/dbService.ts (saveLead, createAppointment, saveEstimate and the others) are taken as accepted; src/firebaseConfig is not part of this model.
- Clock values (`Date.now`, `toISOString`, "tomorrow at 10:00") are abstract timestamps given as parameters.
- UserStore.CloudStore: the store's methods take every write (`setDoc`, `addDoc`, `deleteDoc`) as accepted; only reads carry the flag `readOk`. A rejected write is modelled one level up, in AuthApp.App, whose `writeOk` flag skips the store call and takes the caller's error branch. A rejected `deleteDoc` is not modelled.
- AuthApp.CommitFields: the final price is written through Financial.Stored, so a non-finite price would be `null`, the browser-storage form; Firestore would store NaN or Infinity instead. With the sliders in their ranges the price is always finite (Financial.FinalAtLeastBase), so the two never differ.
- Financial.Stored: an infinite or NaN final price is stored as JSON `null`, as `JSON.stringify` would write it; no other double behaviour is modelled.
- JavaScript double rounding, `toLocaleString` and `parseInt` are not modelled: prices are exact reals.
- SMS (api/send-sms.ts), analytics, the view-only components, ContractGenerator's PDF drawing and the vendor and payment clients are not part of this model; they hold no logic beyond I/O and layout.
- The root errorHandler.ts is not part of this model; its `handleError` is the same as src/errorHandler.ts:13-26, and its `logError` is console and Sentry I/O.
- The Dashboard's own delete and sums (src/components/Dashboard.tsx) are not modelled; its sums repeat App.tsx:261-262.
- The API-key picker of App.tsx (`window.aistudio`) is an oracle: `RootApp.App.Mount` takes whether a key is already selected as a parameter. The page reload after clearing the session (App.tsx:237) is modelled as a fresh mount over the same storage (`RootApp.App.Logout`); the browser's reload itself is not.
- Keys inherited from `Object.prototype` (`toString`, `constructor`) are not looked up in `PRICING_TABLE`; only the table's own keys are.
- Waitlist entries whose name, trade or email is missing or not a string are not modelled: `WaitlistView.Entry` holds strings only.
- The project field setters and other input bindings of the intake form and the shells are not modelled; they only copy widget values.
- The online/offline listeners (src/services/dbService.ts:33-52, src/dbService.ts:24-43) are not modelled; they only log and toggle the Firestore network.
- The other operations of src/services/dbService.ts are not modelled: getLeads, searchLeads, getAppointments, the agent configuration calls, saveCalendarConfig, getWaitlist, triggerSmsAlert and deleteEstimate. They are single reads or writes with no rule of their own. getSession, saveSession, getCalendarConfig, getAppointmentsForLead and createAppointment are modelled only as saveEstimate and updateLead use them (`AccountStore.Workspace.SessionOf`, the users write in `SaveEstimate`, `AutoBookAsked`, `AppointmentsFor` and the appointments write in `UpdateLead`).
- The natural-language rules in the system prompts (the 20% contingency and the "market" insight on conflicting bids) are instructions to the model; no code enforces them.
- Json.NumberOf: reading a number from text (JavaScript's `ToNumber` on a string) is the parameter `toNumber`; its grammar (white space, hexadecimal, `Infinity`) is not modelled.
- Text.Before: compares characters rather than UTF-16 code units, so the order can differ from JavaScript's for characters outside the Basic Multilingual Plane.
- ServerEstimate.PositiveLength: a `length` member that is a string, an array or an object is taken as not positive. JavaScript converts it to a number, so `{"length": "5"}` would pass `length > 0` and then throw on `.slice` (a 500, when SERPAPI_KEY is set) where the model makes no lookups.
- Financial.Billed: a `total_cost` that is a string, `true`, an array or an object counts as 0. JavaScript adds `true` as 1 and turns the running sum into text for the others. The app writes only numbers or `null` there (App.tsx:203).
- Financial.LifetimeBilled: is a number for every ledger, for the reason given for Financial.Billed; a `null` record, on which the dashboard throws, is handled by Financial.Dashboard. The ledger list (App.tsx:291) throws on the same record; the model does not render that list.
- AccountStore.Start: a cursor document that is no longer among the user's documents ends the history (an empty page). Firestore's `startAfter` positions by the cursor's `createdAt` value and would still start a page after it.
- OnboardingTour.Tour.Label: states only the text on the last step, "Step 4 of 4"; the text on earlier steps follows from the same expression but is not stated.
- Checkout.FounderCheckoutRefused: uses a request body with only planName and priceId, while the client also sends customerEmail and metadata; those fields are ignored by the handler either way.

## Findings

| source | as written | input that shows it | evidently intended | confidence | as-written member | corrected member |
|---|---|---|---|---|---|---|
| src/services/dbService.ts:94-118 | `saveEstimate` reads `session.usage.estimatesThisMonth` even when the quota guard found no usage | a session record without a `usage` field, as src/App.tsx:49-58 creates it | a missing usage counts as 0 and the save writes a count of 1 | not executed | AccountStore.NewSessionSaveFails | AccountStore.NextUsage |
| src/config/planDefinitions.ts:94-134 | the key `[UserPlan.FOUNDER]` evaluates to "undefined" because the enumeration has no FOUNDER | `getPlanLimits("Founder")` gives the Starter limits, and `getPlanLimits(undefined)` gives Founder's unlimited ones | the Founder entry is keyed "Founder" | not executed | Plans.FounderKeyMisplaced | Plans.FounderKeyCorrected |
| api/create-checkout-session.ts:36-53 | an unknown plan passes validation whenever any priceId is given, and then gets `undefined * 100` as its amount | planName "Gold" with priceId "abc" | a plan without a table price is accepted only with a "price_" priceId | not executed | Checkout.NaNAmountSentToStripe | Checkout.RespondCorrected |
