# Verified model of the gateway's services

This project models, in Dafny, the parts of an LLM gateway whose correctness is
about many calls rather than one: the response cache, the provider key
scheduler and the retry chain over it, the translators between wire protocols,
the in-memory registry and its pricing, discovery and cleanup, and the framing
of the event streams the web panel reads.

`dafny verify dfyconfig.toml` checks everything. There is one file per
component:

| file | component |
|---|---|
| `LruCache.dfy`, `CacheKey.dfy` | the cache as an object with a history, and the keys it is addressed by |
| `KeyScheduler.dfy`, `RetryChain.dfy`, `RetryDrift.dfy` | cyclic key selection with cooldowns, and the retry recursion |
| `Translate.dfy`, `DataUrl.dfy`, `TranslateLoops.dfy`, `RoundTrip.dfy`, `Settling.dfy`, `ToolPairing.dfy`, `WireForms.dfy` | OpenAI and Anthropic request bodies |
| `Gemini.dfy`, `GeminiLoops.dfy`, `GeminiWire.dfy` | the Gemini content loops |
| `Registry.dfy`, `Pricing.dfy` | dictionaries over the tables, routing, the default flag, prices and their reconciliation |
| `Discovery.dfy`, `ModelHealth.dfy`, `GroupPruning.dfy` | listings and imports, deactivation of models, deletion of groups |
| `SseReader.dfy`, `DropNulls.dfy` | event framing (a simplification of section 9.2 of the WHATWG HTML Living Standard) and the request cleaner |
| `Wrappers.dfy`, `Text.dfy`, `Sets.dfy` | the optional value, Python's string operations, and facts about finite sets |

Code that works by changing things is a class, an array or a loop, proved
against a specification function; the theorems are about that function.
Python's `ProviderManager` appears as one class per concern:
`KeyScheduler.ProviderManager` for key selection and `Registry.ProviderManager`
for routing. Beside the theorems about whole runs, lemmas "in plain terms" say what
one call does in terms of the rows, texts and time stamps themselves, with none of
the model's own functions in between. Clock readings, upstream replies, completion order, insertion
failures and what other coroutines do during an `await` are parameters. JSON
texts are reached through a pair of functions whose only assumed law is stated
where it is used (`Translate.Lawful`, `SseReader.Prints`).

## Where the code does not do what its documentation suggests

- Retrying with the next key (`app/services/provider_manager.py:191-197`) adds the attempt number to a pointer that has already moved. When nobody else uses the registry meanwhile, the last attempt of a chain that fails with 401, 402 or 403 therefore starts at the key just tried and takes it again unless it is cooling and another key is live. Such a chain reaches every key if and only if there is one key, or there are three or a power of two, all cooling until the last attempt, which finds the key left over (`RetryChain.RotatingChainReachesEveryKeyIff`; with two live keys `RetryChain.TwoKeysRetryTheSameKey`). A cooldown that ends in between (`RetryChain.EndedCooldownReachesTheOtherKey`), or another request that picks a key in between (`RetryChain.AnotherPickReachesTheOtherKey`), can let it reach the other key.
- A data URL whose media type still contains `data:` after one removal changes again on the second round trip (`DataUrl.MarkedMediaTypeIsUnstable`, `RoundTrip.UncleanBodyIsUnstable`). Every URL and every body settles after finitely many (`DataUrl.UrlSettles`, `Settling.RoundTripsSettle`).
- A data URL that is not base64 comes back labelled base64, with its data unchanged (`DataUrl.DataUrlsAreRelabelled`).
- Text in a content part that is neither `text` nor `image_url` is kept in a turn without images and lost in a turn with one (`RoundTrip.TurnKeepsRoleAndText`, `RoundTrip.RefusalIsLostBesideAnImage`).
- A tool result comes back from Gemini as the JSON text of the object it was wrapped in (`Gemini.ToolTurnThroughGemini`).
- Through Gemini a call is known by its function name while its result keeps the call id, so a transcript comes back well paired if and only if every result carries the name of a function called before it (`Gemini.GeminiKeepsPairingIffAnsweredByName`); with ordinary ids it does not (`Gemini.GeminiUnpairsOrdinaryIds`).
- A turn with calls comes back from Gemini as one message for each call, its text behind them (`Gemini.CallTurnThroughGemini`).
- A stored price under a key other than the three known ones makes reconciliation mark a price as known where dispatch does not, and a null price stops reconciliation after the metadata was stored (`Pricing.ForeignPriceDisagrees`, `Pricing.ReconcileUsage`).
- Only eight characters of the caller's key hash separate one tenant's cache entries from another's (`CacheKey.SlotsCoincideIff`).
- With a capacity of zero or less, every cache write raises (`LruCache.SetFailsOnlyWithoutCapacity`).

Groups are pruned as promised, only without children or keys, and so those on a
parent cycle or above one, where every group has a child, are never deleted
(`GroupPruning.NeverDeletedIff`).

## Model

| member | source | states |
|---|---|---|
| LruCache.CacheService.Get | app/services/cache.py:106-115 | the object's store is always the one its history of calls leads to, and a get answers what that history answers |
| LruCache.CacheService.Set | app/services/cache.py:117-126 | a write extends the history and reports exactly the case in which the original raises |
| LruCache.CacheService.Invalidate | app/services/cache.py:128-137 | collecting the matching keys and deleting them one by one is one step of the history, and the returned count is the number removed |
| LruCache.RunAgrees | app/services/cache.py:106-137 | after every history, who is stored, in which recency order, with which value and deadline is a function of the history alone; the size never exceeds the capacity |
| LruCache.GetIsExact | app/services/cache.py:106-115 | a get hits if and only if the last uncancelled write of the key is unexpired and fewer than the capacity of other keys ever became more recent than it at once; it returns what that write wrote |
| LruCache.HitIsSound | app/services/cache.py:106-137 | a hit returns the value of the most recent write of that key, made strictly less than the time to live ago, with no matching invalidation since |
| LruCache.LruIsComplete | app/services/cache.py:106-126 | an unexpired, uncancelled write is returned as long as fewer than `max_entries` other keys were written or hit since the key's last touch |
| LruCache.NeverOverCapacity | app/services/cache.py:117-126 | after any history the store holds at most `max_entries` entries, none when that is not positive |
| LruCache.DistinctInRecencyOrder | app/services/cache.py:106-126 | the store has no key twice and lists its keys from least to most recently written or hit |
| LruCache.InvalidateIsExact | app/services/cache.py:128-137 | exactly the held keys containing the pattern go, and their number is returned |
| LruCache.InvalidateKeepsOrder | app/services/cache.py:128-137 | the entries left keep their values and their relative order |
| LruCache.SetFailsOnlyWithoutCapacity | app/services/cache.py:123-126 | a write raises exactly when the capacity is not positive |
| CacheKey.RawKeyIsInjective | app/services/cache.py:43-58 | the colon-joined key determines all five fields although model ids may contain colons |
| CacheKey.ColonsInTheTenantCollide | app/services/cache.py:56-57 | without colon-free outer fields the encoding is ambiguous |
| CacheKey.SlotsCoincideIff | app/services/cache.py:43-104 | two requests share a slot if and only if they are both plain or both streaming and agree on the eight-character tenant, the model id and the digested fields |
| CacheKey.TenantInPlainTerms | app/services/cache.py:56 | the tenant is the first eight characters of the key hash, and `panel` without one |
| KeyScheduler.ProviderManager.Scan | app/services/provider_manager.py:203-208 | the scan finds the live position nearest to its start around the ring, or none when every key is cooling |
| KeyScheduler.ProviderManager.PickKey | app/services/provider_manager.py:191-214 | the key handed out is the nearest live one, or the start when all are cooling, the pointer moves one past it, and nothing else changes |
| KeyScheduler.PickInPlainTerms | app/services/provider_manager.py:183-214 | from the pointer plus the offset on, the first key that was never rate limited or whose cooldown has ended is handed out and the pointer moves behind it; with all cooling it is the key at the start |
| KeyScheduler.BoundedWait | app/services/provider_manager.py:191-214 | whatever the other cooldowns do between picks, a key that is never cooling is handed out within as many picks as there are keys |
| KeyScheduler.FairRotation | app/services/provider_manager.py:191-214 | while the set of live positions is constant, as many consecutive picks as it has members hand out each of them exactly once; with every key cooling, as many as there are keys hand out each key once |
| KeyScheduler.EachLiveOnce | app/services/provider_manager.py:203-210 | a live position is picked at the one turn given by the number of live positions ahead of it |
| KeyScheduler.FreshProviderStartsWithItsOwnKey | app/services/provider_manager.py:183-214 | a provider never used before, with no key cooling, hands out its own key first and then the first of its pool |
| RetryChain.DoRequest | app/services/dispatch.py:148-200 | the recursion over the object sends the keys, ends with the outcome and leaves the registry that the chain specification gives, under arbitrary replies, failing sends and interference |
| RetryChain.OneReply | app/services/dispatch.py:165-200 | another key is tried if and only if an error of 401, 402, 403 or 429, or with an authentication or billing text, meets more keys than attempts; a 429 puts the key off for five seconds; every other reply ends the chain with its outcome |
| RetryChain.SecondAttemptIff | app/services/failover.py:35-56 | of two attempts the second is made if and only if the first reply rotates and more than one key is left after it |
| RetryChain.ChainIsBounded | app/services/dispatch.py:177-191 | a chain sends at most max(1, K) requests when no read of the key list exceeds K, whatever the upstream and other coroutines do |
| RetryChain.RateLimitedChainTriesEveryKeyOnce | app/services/dispatch.py:148-200 | a chain that meets only 429s, starts with no key cooling and ends inside the cooldown window tries every key exactly once before it raises, wherever the pointer was |
| RetryChain.RotatingChainReachesEveryKeyIff | app/services/dispatch.py:160-191 | a chain of other rotating failures that is left alone reaches every key if and only if there is one key, or there are three or a power of two, all cooling until the last attempt, and the key left over is the nearest live one then |
| RetryDrift.DriftMeetsOthersIff | app/services/provider_manager.py:191-214 | the growing steps of a chain with no key live meet different keys until its last attempt if and only if there are three keys or a power of two |
| RetryChain.RotatingChainReachesEveryKeyOnlyIfAlone | app/services/dispatch.py:160-191 | unless all keys are cooling at the first attempt of a chain that is left alone and one is live again at the last, every key is reached if and only if there is one key |
| RetryChain.TwoKeysRetryTheSameKey | app/services/provider_manager.py:204-209 | with two keys, none cooling, a 401 is retried on the key that failed |
| RetryChain.EndedCooldownReachesTheOtherKey | app/services/provider_manager.py:203-214 | with two cooling keys, one of whose cooldowns ends in between, a 401 is retried on the other key |
| RetryChain.AnotherPickReachesTheOtherKey | app/services/provider_manager.py:203-214 | with two live keys and another request picking a key in between, a 401 is retried on the other key |
| DataUrl.SurvivesIffCanonical | app/services/translate.py:61-87 | an image URL survives both directions if and only if it is not a data URL or is a base64 data URL with a plain media type |
| DataUrl.NormalIsCanonicalIffClean | app/services/translate.py:61-87 | one round trip reaches such a URL if and only if the extracted media type is free of `data:` |
| DataUrl.MarkedMediaTypeIsUnstable | app/services/translate.py:65 | a concrete data URL that changes twice |
| DataUrl.DataUrlsAreRelabelled | app/services/translate.py:61-87 | a data URL without a media type comes back as a PNG, and one that is not base64 comes back labelled base64 |
| DataUrl.UrlSettles | app/services/translate.py:61-87 | every URL reaches, within as many round trips as it has characters, a form that survives all later ones |
| TranslateLoops.TextOfContent | app/services/translate.py:26-37 | the loop joins exactly the non-empty texts of the parts, in order |
| TranslateLoops.OpenAIContentBlocks | app/services/translate.py:40-58 | the loop keeps exactly the non-empty text and image parts, in order |
| TranslateLoops.OpenAIToAnthropicMessages | app/services/translate.py:129-180 | the loop gives the specified turn for every non-system message and raises exactly when some assistant tool arguments are not JSON |
| TranslateLoops.AnthropicToOpenAIMessages | app/services/translate.py:221-270 | the loop gives the specified messages for every turn, several results flattened in order |
| WireForms.TurnOnWire | app/services/translate.py:129-180 | a result sits under its call's id, the text of a call turn in front of its uses, and an image turn carries its non-empty texts and images one by one, a data URL as base64 and any other URL as it is |
| WireForms.TurnFromWire | app/services/translate.py:221-270 | any Anthropic turn comes back as its calls beside its text, one message per result, its texts and images in order, or its gathered text |
| WireForms.TextOfIsGathered | app/services/translate.py:26-37 | the text of a content is its non-empty texts in order, one per line |
| WireForms.BodyOnWire | app/services/translate.py:183-218 | every field of the Anthropic body, in terms of the request |
| WireForms.BodyFromWire | app/services/translate.py:273-311 | every field of the OpenAI body, in terms of any Anthropic body |
| DataUrl.RemoveMarksIsReplace | app/services/translate.py:65 | occurrences of `data:` are cut out from the left, each where it is first found |
| RoundTrip.MessageBack | app/services/translate.py:129-270 | every non-system message comes back as exactly one message, in a closed form |
| RoundTrip.TurnKeepsRoleAndText | app/services/translate.py:129-180 | an Anthropic turn is the assistant's if and only if the message is, and carries its whole text if and only if images are not mixed with parts of another kind |
| RoundTrip.RefusalIsLostBesideAnImage | app/services/translate.py:129-180 | a part of another kind keeps its text alone in a message and loses it beside an image |
| RoundTrip.RoundTripRaisesOnlyOnMalformedArguments | app/services/translate.py:161 | the round trip raises if and only if some assistant tool arguments are not JSON, and otherwise joins the system texts in front of the other messages in order |
| RoundTrip.RoundTripIsIdentityIffNormal | app/services/translate.py:129-311 | a body survives the round trip unchanged if and only if it is in normal form |
| RoundTrip.RoundTripLandsNormalIffClean | app/services/translate.py:129-311 | the round trip lands in normal form if and only if the data URLs it carries are clean |
| RoundTrip.RoundTripIsIdempotentIffClean | app/services/translate.py:129-311 | a second round trip changes nothing if and only if the data URLs are clean |
| RoundTrip.UncleanBodyIsUnstable | app/services/translate.py:61-87 | any body with a certain image changes on the second round trip |
| Settling.RoundTripsSettle | app/services/translate.py:129-311 | a body that survives one round trip without an exception survives any number of them, and settles in normal form after at most one more than the media types of its unclean data URLs have characters |
| RoundTrip.RoundTripClosedForm | app/services/translate.py:183-311 | every body comes back with its missing fields filled in, a token limit of 4096 for none or zero, a single stop text for a list of one, the tools that have a function, and its other fields as they were |
| ToolPairing.ToAnthropicKeepsEventsIffInPlace | app/services/translate.py:129-180 | one turn per message, and the sequence of call and result ids is kept if and only if calls sit on assistant turns |
| ToolPairing.ToOpenAIKeepsEventsIffInPlace | app/services/translate.py:221-270 | the sequence of ids is kept if and only if uses sit on assistant turns and results on user turns |
| ToolPairing.PairingSurvives | app/services/translate.py:129-270 | for such transcripts every answer still follows a call with its id, both ways |
| ToolPairing.RoundTripKeepsEventsIffInPlace | app/services/translate.py:129-270 | a whole body, system messages included, comes back from Anthropic with the same ids if and only if calls sit on assistant turns, and then is well paired if and only if it was |
| Gemini.GeminiRenamesCalls | app/services/translate.py:314-455 | through Gemini and back, calls are known by function names and results by call ids, in transcript order |
| Gemini.GeminiKeepsEventsIffNamedByFunction | app/services/translate.py:314-455 | ids survive Gemini if and only if every call id is its function name and every result has an id |
| Gemini.GeminiKeepsPairingIffAnsweredByName | app/services/translate.py:314-455 | a transcript comes back from Gemini well paired if and only if every result carries the name of a function called before it |
| Gemini.GeminiUnpairsOrdinaryIds | app/services/translate.py:320-336 | a well-paired transcript that comes back unpaired |
| Gemini.CallTurnThroughGemini | app/services/translate.py:338-352 | a turn with calls comes back as one message for each of them, in order, and its text in a message behind them |
| Gemini.PlainTurnThroughGemini | app/services/translate.py:354-455 | a turn without tools comes back as one message of its side, its texts joined in front of its images in order, or not at all when it has neither |
| Gemini.ToolTurnThroughGemini | app/services/translate.py:320-336 | a tool result comes back as the JSON text of the object it was wrapped in |
| GeminiLoops.OpenAIToGeminiContents | app/services/translate.py:314-361 | the loop gives the specified content for every non-system message and raises exactly on malformed arguments |
| GeminiLoops.GeminiToOpenAIMessages | app/services/translate.py:411-455 | the loop sends out tool messages at once and one gathered text and image message per content |
| GeminiWire.ContentOnWire | app/services/translate.py:314-361 | what a Gemini content carries for any message: results under their call ids, calls behind the text, texts, inline data and files one by one |
| GeminiWire.ContentFromWire | app/services/translate.py:411-455 | any Gemini content comes back as a message per call and result, and one with all texts joined in front of all images |
| Registry.ProviderManager.Reload | app/services/provider_manager.py:151-178 | every dictionary holds, for every key, what one pass over the rows finds |
| Registry.ProviderManager.Resolve | app/services/provider_manager.py:221-259 | for all tables, the answer from the dictionaries is that of a linear scan: override, best active row, else explicit provider and alias |
| Registry.OverrideReplaces | app/services/provider_manager.py:222-224 | the last mapping stored under the key's hash replaces the alias asked for |
| Registry.WithoutOverride | app/services/provider_manager.py:222-224 | without one the alias is taken as it is |
| Registry.AliasRoutes | app/services/provider_manager.py:234-240 | an alias goes to its first active row of a default provider, or else to its first active row, if that row's provider is active |
| Registry.ExplicitRoutes | app/services/provider_manager.py:226-233 | only an alias without an active row is read as provider and alias, and goes to the first active row of a provider of that name |
| Registry.NothingElseRoutes | app/services/provider_manager.py:226-240 | nothing else is routed |
| Registry.BestRowWins | app/services/provider_manager.py:101-109 | the row chosen for an alias is active, of least priority, and the earliest of those |
| Registry.ExplicitIgnoresOrder | app/services/provider_manager.py:226-233 | with unique provider names an explicit alias does not depend on the order of the rows |
| Registry.OneDefaultOverAllEdits | app/services/provider_manager.py:295-329 | after any series of creations and updates the default provider is the one made default last, or none if its flag was cleared |
| Pricing.UpdateModelPricing | app/services/provider_manager.py:345-384 | the stored metadata, whether anything changed, the recomputed rows, and exactly when the recomputation raises |
| Pricing.UpdateInPlainTerms | app/services/provider_manager.py:345-380 | every price, limit and flag after an edit by hand, key by key |
| Pricing.RecomputedFlags | app/services/provider_manager.py:399-410 | the flags of a recomputed row, from the stored metadata |
| Pricing.CostInPlainTerms | app/services/dispatch.py:92-135 | cost, price flag and unlimited flag of a request, from the stored metadata |
| Pricing.ReconcileUsage | app/services/provider_manager.py:386-411 | the loop recomputes the model's rows and raises exactly when a null price meets a row of a model that is not free |
| Pricing.ReconciliationAgreesIff | app/services/provider_manager.py:386-411 | the recomputed rows are what dispatch would record if and only if the model is free, has no price entry, or has one of the three prices |
| Pricing.ReconciliationIsLocalAndIdempotent | app/services/provider_manager.py:394-411 | rows of other models are untouched and a second pass changes nothing |
| Pricing.NumericUpdateAgreesWithDispatch | app/services/dispatch.py:92-135 | after any numeric price update whose recomputation does not raise, every row of the model carries the cost, price flag and unlimited flag dispatch would give it |
| Pricing.NullPriceLeftIff | app/services/provider_manager.py:345-384 | a null price is left after an update if and only if one is given, or was stored and is not overwritten |
| Pricing.ReportedCostSurvivesIff | app/services/provider_manager.py:386-411 | reconciliation keeps a cost the provider reported if and only if the model is free, or is priced and its prices come to that cost |
| Pricing.TotalCost | app/services/provider_manager.py:399-410 | a priced model's rows total prompt price times tokens in, plus completion price times tokens out, plus request price times rows |
| Pricing.ForeignPriceDisagrees | app/services/provider_manager.py:393-407 | a concrete model on which reconciliation and dispatch disagree |
| Pricing.ListedExactly | app/services/discovery.py:70-101 | a listing carries exactly the prices that parse and the limits given, each under its key, is an image model if and only if its name says so, and never carries an empty dictionary |
| Pricing.FreeOnlyByNameOrZeroPrices | app/services/discovery.py:85-92 | a model is listed as free if and only if its name says so, or it has a price and none that is not zero |
| Pricing.MergeProviderMeta | app/services/discovery.py:316-349 | the in-place merge and its flag are those of one map union per dictionary |
| Pricing.MergeInPlainTerms | app/services/discovery.py:316-349 | every price, limit and flag after a discovery, key by key, and none changed once set by hand |
| Pricing.MergeFlagIsExact | app/services/discovery.py:316-349 | the flag is true if and only if the metadata changed, and merging the same item again changes nothing |
| Pricing.ManualPricesStay | app/services/discovery.py:324-325 | once set by hand, pricing, free, kind and limits are unchanged by any number of later discoveries |
| Discovery.ParseModelItems | app/services/discovery.py:38-67 | the listing is the first occurrences of the usable ids, in order |
| Discovery.RawItemsAreUsable | app/services/discovery.py:44-58 | the raw listing has the entries with a non-empty id, in order, a Gemini id without `models/` in front |
| Discovery.FirstOccurrencesAreFirst | app/services/discovery.py:60-67 | of equal ids the first entry stays and the others keep their order |
| Discovery.FirstOccurrencesAreDistinct | app/services/discovery.py:60-67 | those have distinct ids and exactly the ids of the raw listing |
| Discovery.ImportListing | app/services/discovery.py:508-557 | the loop's table, counters and progress events are those of one import step per item |
| Discovery.ImportOneInPlainTerms | app/services/discovery.py:515-557 | one listed model is merged into its row, or skipped when its insertion fails, or appended as a new row with its listed metadata |
| Discovery.ImportedExactly | app/services/discovery.py:515-557 | after a run a model has a row if and only if it had one, or is listed and its insertion did not fail |
| Discovery.ImportCountsAndStaysUnique | app/services/discovery.py:515-557 | imported plus skipped is the total, progress counts one to the total in listing order, and no provider has an alias twice |
| Discovery.ParsedListing | app/services/discovery.py:38-67 | what is parsed from any response has distinct ids and metadata parsed from items |
| Discovery.RepeatImportsNothing | app/services/discovery.py:508-557 | importing such a listing again after a run without failures imports nothing and leaves every row as it is, whatever would fail now |
| Discovery.GatherTests | app/services/discovery.py:578-620 | results, their count and the premium marks are the same for every completion order, and progress counts one to the total |
| Discovery.HistoryIsNewestHundred | app/services/discovery.py:463-492 | over any series of saved runs each provider's history is its newest hundred, in order |
| ModelHealth.RunCleanupModels | app/services/cleanup.py:69-114 | the in-place passes treat every row as specified and count the deactivations |
| ModelHealth.OneRunInPlainTerms | app/services/cleanup.py:69-114 | fail count, premium mark, activity and missing mark of a row after one run, from the reply and its provider's listing |
| ModelHealth.ListedModelStays | app/services/cleanup.py:8-10 | over any series of runs a fresh model that every listing obtained of its provider contains stays active |
| ModelHealth.ImageNamesIff | app/services/discovery.py:104-120 | an image model is one with a hint in its lower-case name |
| ModelHealth.DeactivationsAreCounted | app/services/cleanup.py:93-94 | the count of a run is the number of rows it deactivates |
| ModelHealth.CleanedIsStep | app/services/cleanup.py:69-114 | what a run does to a row depends only on whether it could be tested, the reply, and whether a listing lacked it |
| ModelHealth.CleanupDeactivatesIffCondemned | app/services/cleanup.py:65-114 | over any series of runs a fresh model is deactivated if and only if its last three tests all failed and a strictly earlier run had found it missing, before any premium reply |
| ModelHealth.PremiumAndImageModelsStay | app/services/cleanup.py:74-82 | a model seen as premium while active, or named like an image model, is never deactivated |
| ModelHealth.NeverReactivated | app/services/cleanup.py:65-94 | no run brings a deactivated model back |
| ModelHealth.MissingAloneNeverDeactivates | app/services/cleanup.py:8-10 | a model that never fails three tests in a row stays, whatever the listings say |
| GroupPruning.RunCleanupGroups | app/services/cleanup.py:116-129 | the loop deletes exactly the childless, keyless groups of its snapshot and counts them |
| GroupPruning.RowOrderDoesNotMatter | app/services/cleanup.py:117-129 | what is left does not depend on the order of the rows |
| GroupPruning.SurvivesRunsIffSupported | app/services/cleanup.py:116-129 | on any table a group survives k runs if and only if some chain of descendants reaches a key in fewer than k steps or is k steps long |
| GroupPruning.KeyedSubtreeSurvives | app/services/cleanup.py:116-129 | a group with a key anywhere below it survives every run |
| GroupPruning.ForestFixpoint | app/services/cleanup.py:116-129 | on a forest, as many runs as it has levels leave exactly the groups with a key in their subtree, for good |
| GroupPruning.NeverDeletedIff | app/services/cleanup.py:116-129 | on any table a group survives every run, or as many as there are rows, if and only if it has a key in its subtree or is on or above a parent cycle |
| GroupPruning.SettlesWithinRowCount | app/services/cleanup.py:116-129 | on any table the runs settle within as many of them as there are rows |
| SseReader.LinesAndRest | web/src/lib/api.ts:117-119 | cutting a text at its newlines loses nothing and leaves no newline |
| SseReader.LinesAreUnique | web/src/lib/api.ts:117-119 | it is the only way to cut it so |
| SseReader.DiscoverReader.Feed | web/src/lib/api.ts:117-132 | feeding one more chunk handles exactly the lines completed by it |
| SseReader.DiscoverProviderStream | web/src/lib/api.ts:109-137 | the events delivered and the final result or error are functions of the whole text, however it was cut into chunks |
| SseReader.PrintedIsReadBack | app/api/v1/admin_routes.py:222-233 | any chunking of the printed JSON texts is read back as exactly the events they parse to, whole, in order |
| SseReader.BrokenStreamDeliversPrefix | web/src/lib/api.ts:109-125 | a stream that breaks off anywhere delivers a prefix of those events |
| SseReader.RunsEndAsPrinted | web/src/lib/api.ts:126-137 | a run ending in a done event returns its result, or raises if that is null, and one ended by an error before any done raises that error or its default text |
| SseReader.StreamChat | web/src/lib/api.ts:253-280 | the deltas yielded are those of the text's lines up to the end marker, however it was cut |
| SseReader.PayloadInPlainTerms | web/src/lib/api.ts:121-123 | a data line is one that starts with `data:` behind white space, and its payload is the rest without white space around it |
| SseReader.PrintedChatIsReadBack | web/src/lib/api.ts:261-280 | any chunking of printed deltas and an end marker yields their non-empty content, reasoning and usage, and nothing printed behind the marker |
| DropNulls.DropNulls | app/api/v1/routes.py:54-77 | the recursive loops compute the specified cleaning |
| DropNulls.DropNullsIsCleanIdempotentAndKeepsLeaves | app/api/v1/routes.py:54-77 | the result has nothing left to remove, is a fixpoint, equals the input if and only if that was clean, and keeps every other leaf under its keys and in order |

## Left out

- HTTP clients, database sessions and transactions, Redis, metrics and the web framework: tables are sequences, replies and clocks are parameters, and each locked or committed operation is one step.
- Digests (SHA-256, HMAC) and base64: arbitrary functions; their fixed length and freedom from collisions are assumed where stated.
- Floating point: prices, costs and times are reals.
- Byte decoding of streams: a chunk is its decoded text.
- `_do_request` beyond its choice of keys: whether the body of an accepted answer is JSON.
- `_do_request` waits: the chain is stated over the replies received so far, so a chain whose reply never comes is the one that ends in `Waiting`.
- `classify` in app/services/failover.py beyond whether the key rotates; the text hints are two flags.
- Ill-typed request bodies (a tool call that is not an object, a null id) and body fields the translators do not read; the `type` tag of a tool call is not kept apart.
- `gemini_to_openai` and `openai_to_gemini` beyond their content loops: system instructions, generation settings and tools, whose round trip the code does not have.
- `_cost_from_usage`: how a reported cost is read out of a provider's usage; it is an optional number here.
- The Cohere and Ollama translators and the response translators: they reuse the loops above or are single expressions.
- Registry.ProviderManager.Reload: takes unique (provider, alias) pairs for granted, as the constraint at app/models.py:57 does.
- GroupPruning.RunCleanupGroups: takes unique group ids for granted, as the primary key at app/models.py:77 does.
- RetryChain.RateLimitedChainTriesEveryKeyOnce: takes distinct, non-empty keys for granted; the same key stored twice is cooled, and so tried, only once.
- RetryChain.RotatingChainReachesEveryKeyIff: takes distinct keys for granted too.
- Registry.OneDefaultOverAllEdits: is about row values and the default flag only; the other fields an update sets are not modelled.
- Pricing.ReconcileUsage: a stored price is a number or null; other JSON values there, which may also raise, are not modelled.
- ModelHealth.PremiumAndImageModelsStay: lower-casing of model names covers ASCII letters only.
- Discovery.HistoryIsNewestHundred: assumes creation times grow with insertion, so ties in `created_at` are not modelled.
- Steps 1, 4 and 5 of cleanup (unreachable providers, idle keys, usage retention): each goes once over its table and deactivates providers or deletes rows by a test of the row alone.
- Budgets, guardrails, plugins, hot reload, the agent and MCP endpoints, and the panel's pages.
