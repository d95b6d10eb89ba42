# theHarvester plug-in for SpiderFoot, in Dafny

This project models the SpiderFoot module `sfp_tool_theharvester`. The module
watches `DOMAIN_NAME` events, from any module. It records the data of every
event it receives in a seen-set, and skips an event whose data it has seen
before. A `DOMAIN_NAME` event submitted from the SpiderFoot interface, with
data not seen before, makes it query a theHarvester REST service. It then
sorts the categories of the answer into five artifact sets and emits one
SpiderFoot event per artifact. Because every event is recorded, a domain
first seen from another module is never queried, even when a user submits
it later.

The model has four modules:

- `Wrappers`: the `Option` type.
- `Sources`: the `th_sources` option. It is a comma-separated list of
  theHarvester source names. `setup` parses it with Python's `str.strip()`
  and `str.split(',')`, and every query joins it back with `','.join`. Those
  string functions are modelled here. `IsSpace` is the character set of
  Python's `str.isspace()`.
- `Classifier`: the classification inside `harvest`. A declarative
  specification, `Classify`, sends each value to the event type of its
  category. The method `CollectArtifacts` is the plug-in's loop with its
  `if`/`elif` chain, and it is proved equal to that specification.
- `Plugin`: the plug-in object as a class, `TheHarvester`. Its fields are the
  base URL, the parsed sources and the seen-set (`self.results`). Two ghost
  logs record what the plug-in does to the outside world: the requests sent
  to theHarvester and the events handed to `notifyListeners`.
  `HandleEvent` is proved against the seen-set and those logs.

## Model

| member | source | states |
|---|---|---|
| Classifier.KindName | sfp_tool_theharvester.py:56 | SpiderFoot's name of each of the five event types, the names declared at line 56. `ProducedKinds` lists the kinds in that order, and `EveryKindProduced` and `ProducedEventsNameKinds` tie the two lists together. |
| Classifier.EveryKindProduced | sfp_tool_theharvester.py:56 | The declared produced types name every event type, and each exactly once. |
| Classifier.CategoryKind | sfp_tool_theharvester.py:99-108 | The `if`/`elif` table: the event type each result category feeds, or none. `ClassifyComplete` and `ClassifySoundNamed` pin it down by the literal category names. |
| Classifier.Classify | sfp_tool_theharvester.py:96 | The result has exactly the five produced event types as keys, whatever the answer. |
| Classifier.CollectArtifacts | sfp_tool_theharvester.py:96-110 | The loop starts every type at the empty set and unions each category's values into its type. The result equals the declarative classification `Classify`. |
| Classifier.ClassifyComplete | sfp_tool_theharvester.py:99-108 | Completeness: a value listed under `twitter_people` or `linkedin_people` is a human name; `interesting_urls`, `linkedin_links`, `trello_urls` give static URLs; `ips` gives IP addresses; `emails` gives email addresses; `hosts` gives domain names. |
| Classifier.ClassifyMember | sfp_tool_theharvester.py:98-108 | A value listed under any category that feeds a type is in that type's bucket. |
| Classifier.ClassifySound | sfp_tool_theharvester.py:98-108 | Soundness: every value in a bucket is listed under some category of the answer that feeds that bucket's type. |
| Classifier.ClassifySoundNamed | sfp_tool_theharvester.py:99-108 | Soundness by literal names: a human name comes from `twitter_people` or `linkedin_people`; a static URL from `interesting_urls`, `linkedin_links` or `trello_urls`; an IP address from `ips`; an email address from `emails`; a domain name from `hosts`. |
| Classifier.UnknownCategoriesOnly | sfp_tool_theharvester.py:98-108 | An answer made only of unknown categories gives five empty sets. |
| Classifier.UnknownCategoryIgnored | sfp_tool_theharvester.py:98-108 | Adding or changing a category outside the table leaves the whole classification unchanged. |
| Classifier.RepetitionIrrelevant | sfp_tool_theharvester.py:100-108 | Buckets are sets. Repeating or reordering the values of a category changes nothing. |
| Classifier.ClassifyUnionKeeps | sfp_tool_theharvester.py:98-108 | Merging two answers with disjoint categories keeps every value of either answer. |
| Classifier.ClassifyUnionAddsNothing | sfp_tool_theharvester.py:98-108 | Merging two answers with disjoint categories adds no value that neither answer lists. |
| Classifier.ClassifyUnion | sfp_tool_theharvester.py:98-108 | Each bucket of a merge of answers with disjoint categories is the union of their buckets, so the order in which categories are visited does not matter. |
| Classifier.IndependentBuckets | sfp_tool_theharvester.py:99-108 | Buckets are independent: the same string can be both an IP address and a host. A repeated value appears once. |
| Sources.IsSpace | sfp_tool_theharvester.py:75-76 | The characters for which Python's `str.isspace()` holds, which `strip()` removes from both ends. `TrimLeftRemovesSpace`, `TrimRightRemovesSpace` and `StripRemovesOnlySpace` say that only these are removed. |
| Sources.TrimLeft | sfp_tool_theharvester.py:75-76 | The left half of `str.strip()`. `TrimLeftRemovesSpace` and `TrimLeftSuffix` pin it down. |
| Sources.TrimRight | sfp_tool_theharvester.py:75-76 | The right half of `str.strip()`. `TrimRightRemovesSpace` and `TrimRightPrefix` pin it down. |
| Sources.Strip | sfp_tool_theharvester.py:75-76 | `str.strip()`. `StripIsInfix`, `StripRemovesOnlySpace` and `StripStripped` pin it down. |
| Sources.TrimLeftRemovesSpace | sfp_tool_theharvester.py:75-76 | Every character that the left half of `strip()` removes is whitespace. |
| Sources.TrimRightRemovesSpace | sfp_tool_theharvester.py:75-76 | Every character that the right half of `strip()` removes is whitespace. |
| Sources.TrimLeftSuffix | sfp_tool_theharvester.py:75-76 | Left-trimming gives a suffix of the input that is empty or starts with a non-space. |
| Sources.TrimRightPrefix | sfp_tool_theharvester.py:75-76 | Right-trimming gives a prefix of the input that is empty or ends with a non-space. |
| Sources.StripIsInfix | sfp_tool_theharvester.py:75-76 | `strip()` gives a contiguous piece of its input, with whitespace at neither end. |
| Sources.StripRemovesOnlySpace | sfp_tool_theharvester.py:75-76 | Every input character outside the stripped piece is whitespace. |
| Sources.StripStripped | sfp_tool_theharvester.py:76 | `strip()` is idempotent: a stripped string is left unchanged. |
| Sources.Split | sfp_tool_theharvester.py:75 | `str.split(',')` always gives at least one piece. `SplitCommaFree`, `SplitNoComma`, `SplitComma` and `JoinSplit` pin it down. |
| Sources.SplitCommaFree | sfp_tool_theharvester.py:75 | No piece of `split(',')` contains a comma. |
| Sources.SplitNoComma | sfp_tool_theharvester.py:75 | A string without commas splits into itself alone. |
| Sources.SplitComma | sfp_tool_theharvester.py:75 | Splitting `a + "," + b` gives the pieces of `a` followed by the pieces of `b`. |
| Sources.Join | sfp_tool_theharvester.py:92 | `','.join`. `JoinSplit` and `ParseJoin` relate it to splitting and parsing. |
| Sources.JoinSplit | sfp_tool_theharvester.py:92 | `','.join` (line 92) undoes `split(',')` (line 75): joining the pieces of `s` gives `s` back. |
| Sources.Clean | sfp_tool_theharvester.py:76-78 | The loop body of `setup`: strip each token and keep the non-empty ones. `CleanWellFormed` and `CleanAppend` pin it down. |
| Sources.CleanWellFormed | sfp_tool_theharvester.py:76-78 | Every kept token is non-empty and stripped. If no raw token contains a comma, no kept token does either. |
| Sources.CleanAppend | sfp_tool_theharvester.py:75-78 | The per-token loop distributes over concatenation, so it keeps the order of the tokens. |
| Sources.CleanSplitTrimLeft | sfp_tool_theharvester.py:75 | Removing leading whitespace from the option before splitting changes no parsed source. |
| Sources.CleanSplitTrimRight | sfp_tool_theharvester.py:75 | Removing trailing whitespace from the option before splitting changes no parsed source. |
| Sources.ParseSources | sfp_tool_theharvester.py:75-78 | The source list `setup` derives from the option. `ParseSourcesWellFormed`, `ParseSourcesConcat`, `ParseJoin` and `ParseJoinSpaced` pin it down, and `Setup`'s loop is proved to append exactly it. |
| Sources.OuterStripRedundant | sfp_tool_theharvester.py:75 | The `strip()` applied to the whole option is redundant: the parse equals cleaning the raw split. |
| Sources.ParseSourcesWellFormed | sfp_tool_theharvester.py:75-78 | Every parsed source is non-empty, stripped and comma-free, whatever the option holds. |
| Sources.ParseSourcesConcat | sfp_tool_theharvester.py:75-78 | Parsing `a + "," + b` gives the sources of `a` then those of `b`, in order. |
| Sources.ParseSourceName | sfp_tool_theharvester.py:75-78 | A single well-formed source name parses to itself. |
| Sources.ParseJoin | sfp_tool_theharvester.py:92 | Parsing, as `setup` does at lines 75-78, the `','`-joined query parameter gives back any list of well-formed sources. |
| Sources.ParseLeadingSpace | sfp_tool_theharvester.py:76 | A blank at the front of the option, such as the one after each comma of the default value, changes no parsed source. |
| Sources.ParseJoinSpaced | sfp_tool_theharvester.py:45 | Sources written with `", "` between them, as the default value is, parse back to the list. |
| Plugin.WatchedEvents | sfp_tool_theharvester.py:81-82 | `watchedEvents()`: only `DOMAIN_NAME`. `TriggersAreWatched` relates it to the trigger. |
| Plugin.ProducedEvents | sfp_tool_theharvester.py:87-88 | `producedEvents()`: the five declared types. `ProducedEventsNameKinds` ties it to the classifier's kinds. |
| Plugin.Triggers | sfp_tool_theharvester.py:121 | The harvest condition: a `DOMAIN_NAME` event from `SpiderFoot UI`. `HandleEvent` is stated in terms of it. |
| Plugin.Outbound | sfp_tool_theharvester.py:126 | The event built for one artifact: its type's name, the artifact, this module's name, and the inbound event as source. `AnnouncementShape` characterises the set of them. |
| Plugin.TheHarvester.constructor | sfp_tool_theharvester.py:60-63 | A new plug-in has no base URL, no sources, nothing seen and nothing sent or emitted. |
| Plugin.TheHarvester.Setup | sfp_tool_theharvester.py:65-78 | `setup` resets the seen-set and sets the base URL to `http://host:port`. It appends the parsed `th_sources` to the existing list, and every source stays well-formed. |
| Plugin.TheHarvester.Query | sfp_tool_theharvester.py:91-93 | The request of `harvest`: `<base>/query` with the `','`-joined sources and the domain. `Harvest` proves that its `source` parameter parses back to the sources. |
| Plugin.TheHarvester.Harvest | sfp_tool_theharvester.py:90-110 | Records exactly one request, to `<base>/query`, for the domain. The request's `source` parameter parses back to the configured sources. The result is the classification of the answer. The sources stay well-formed. |
| Plugin.TheHarvester.HandleEvent | sfp_tool_theharvester.py:113-127 | The event's data is always added to the seen-set. Data already seen, or an event that is not a `DOMAIN_NAME` from `SpiderFoot UI`, sends and emits nothing. A new triggering event sends one query and keeps earlier emissions. It appends, in some order, exactly one event per (type, artifact) pair of the classification, with count equal to the total bucket size. The sources stay well-formed. |
| Plugin.TheHarvester.Announce | sfp_tool_theharvester.py:124-127 | The outer loop emits the announcement events of all five types, one per artifact, and keeps the earlier log. |
| Plugin.TheHarvester.AnnounceKind | sfp_tool_theharvester.py:125-127 | The inner loop emits one event per artifact of one type, as many as there are artifacts, and keeps the earlier log. |
| Plugin.ProducedEventsNameKinds | sfp_tool_theharvester.py:56 | `producedEvents()` (lines 87-88) lists SpiderFoot's names of the five kinds, in the declared order. |
| Plugin.TriggersAreWatched | sfp_tool_theharvester.py:121 | Every event that triggers a harvest has a type that `watchedEvents()` lists (lines 55 and 81-82). |
| Plugin.AnnouncementShape | sfp_tool_theharvester.py:124-127 | An event is announced exactly when it has a produced type, this module's name as module, and the inbound event as source, and its data is in the bucket of its type. |
| Plugin.ArtifactCountProduced | sfp_tool_theharvester.py:124-125 | The number of events announced is the sum of the five bucket sizes. |
| Plugin.ExampleBuckets | sfp_tool_theharvester.py:96-110 | An answer with one email address and one IP address classifies into those two singletons and three empty sets. |
| Plugin.EndToEndExample | sfp_tool_theharvester.py:96-127 | For that answer, exactly two events are announced: an `EMAILADDR` and an `IP_ADDRESS`, both derived from the inbound event. |
| Plugin.DefaultSourceNamesWellFormed | sfp_tool_theharvester.py:45 | Each of the nine default source names is non-empty, stripped and comma-free. |
| Plugin.DefaultSourcesJoined | sfp_tool_theharvester.py:45 | The default `th_sources` value is the nine names joined with `", "`. |
| Plugin.DefaultSourcesParse | sfp_tool_theharvester.py:45 | The default value parses to exactly `bing`, `baidu`, `duckduckgo`, `linkedin`, `sublist3r`, `twitter`, `qwant`, `linkedin_links`, `otx`, in that order, with no blank kept. |
| Plugin.ConfigureDefaults | sfp_tool_theharvester.py:42-46 | A new plug-in set up with the default options has base URL `http://localhost:5000`, those nine sources, nothing seen, and nothing sent or emitted. |

## Left out

- The HTTP GET and JSON decoding in `harvest` are left out. The request is recorded in the ghost log `requests`. The decoded answer is a parameter of `HandleEvent` and `Harvest`, as a map from category to list of strings.
- Answers whose values are not lists of strings are not modelled. Python's `set(elements)` would accept, for example, a string (a set of characters) or reject a number.
- Exceptions are not modelled: a failed request or malformed JSON. The plug-in marks the data as seen before harvesting, so a failure leaves it seen. The model's `HandleEvent` also marks before harvesting, but it has no failure path.
- The SpiderFoot framework is abstracted. `tempStorage()` is a `set<string>` field. `notifyListeners` appends to the ghost log `emitted`. `debug` logging is left out. `self.__name__` is the constant `ModuleName`.
- `meta`, `optdescs` and the merge of user options into `opts` are not modelled. `Setup` receives the merged `th_host`, `th_port` and `th_sources` values. `th_port` is a string, which `str()` leaves unchanged.
- Plugin.TheHarvester.HandleEvent requires a base URL, that is, that `setup` has run. Before `setup`, `results` is still the class attribute `None` (line 58), so the plug-in's `handleEvent` fails with a `TypeError` at the membership test on line 114, and nothing is sent. The model does not represent that failure.
- Plugin.TheHarvester.constructor: the seen-set starts empty, where the plug-in's `results` is `None` until `setup` creates the temporary storage (lines 58 and 67). No caller can observe the difference, because `HandleEvent` requires `setup` to have run.
- The default `th_sources` value of line 45 is written in the model as its nine names joined with `", "`. It is the same string, grouped so that its parse can be proved by unfolding.
- Plugin.TheHarvester.HandleEvent: the order of events within one type is not stated, because Python set iteration order is arbitrary. The order of types is not stated either, although `Announce` visits them in the declared order as the plug-in does. Emission is stated as a multiset equality: one event per (type, artifact) pair.
