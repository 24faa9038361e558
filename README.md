# Vibescope sentiment monitor — a Dafny model

Vibescope watches what people post about a product. Each post is a mention: its content, source, author, time, and a
sentiment label produced by an LLM. The React pages fetch mentions from the store and do the following with them:

- filter them by search text, sentiment and source;
- sort the negative ones by alert severity;
- count emotions, tags and keywords for the analytics charts;
- bucket them by day for the trend line;
- show summary cards.

Two serverless handlers sit behind the pages:

- `analyze-sentiment` classifies a post and, for a negative one, drafts a reply;
- `suggest-reply` drafts a reply on demand.

A settings page keeps the alert and notification preferences and a list of tracked competitors.

This project models that core and proves what each part promises.

- The pure parts are datatypes and functions:
  - filter predicates, counts and chart data;
  - the fence stripping and response building of the handlers;
  - labels and percentages.
- The parts that work by changing things are methods with loop invariants:
  - the counting reductions of the Analytics page;
  - the per-day bucket reduction of the home page;
  - the in-place alert sort, on an `array`.
- Page state that the handlers update is modelled as a `class` per page, with `modifies` clauses.

Everything outside the program is a parameter: the store's answers, the LLM gateway's answers, `JSON.parse`, the
environment variables, the clock and the random choice of sample.

- Store outcomes are `Result`/`Option` values.
- LLM outcomes are `Upstream`: a reply text, a non-ok status, or a thrown error.
- The JSON decoder is a function parameter.
- Dates are given as an abstract day-key function `dateOf`, with today's key passed in.

Modules, one per file:

- `Wrappers`: `Option` and `Result`.
- `Text`: the ECMAScript string operations that are used:
  - the exact `trim`/`\s` white-space set;
  - ASCII `toLowerCase`;
  - `includes`, `join`;
  - `split(/\s+/)`;
  - integer rendering.
- `Seqs`: `filter`, `filter(...).length`, the stable `sort` by a numeric key, and `sort(...).slice(0, k)`.
- `Mentions`: the mention record, the insert record, samples, toasts and the sentiment counts.
- `MentionFilter`: the filter effect shared by the Live Feed and the dashboard.
- `Feed`, `Dashboard`, `Alerts`, `Analytics`, `Home`, `StatsCards`, `Settings`: the pages.
- `Http`, `AnalyzeSentiment`, `SuggestReply`: the two handlers.

A successful second reply is stored as `content.trim()`, so a reply made only of white space gives `""`
(`AnalyzeSentiment.SuccessfulAnalysis`).

## Model

| member | source | states |
|---|---|---|
| Text.Lower | src/pages/Feed.tsx:37-38 | `toLowerCase` gives a string with no upper-case letter that spells the input when case is ignored |
| Text.LowerUnique | src/pages/Analytics.tsx:52 | those two facts determine the result, so lower-casing is idempotent and strings equal up to case lower alike |
| Text.Contains | src/pages/Feed.tsx:37-38 | `includes` finds the empty string in any text and never finds a string longer than the text |
| Text.ContainsAt | src/pages/Feed.tsx:37-38 | `includes` holds exactly when the text occurs at some position |
| Text.Trim | supabase/functions/analyze-sentiment/index.ts:57 | `trim` returns a slice of its input with only white space around it, and that slice neither starts nor ends with white space |
| Text.TrimUnique | supabase/functions/analyze-sentiment/index.ts:57 | the contract of `trim` pins its result down: any slice with only white space around it and none at its ends is the trimmed string |
| Text.TrimIdempotent | supabase/functions/analyze-sentiment/index.ts:87 | trimming twice is trimming once |
| Text.TrimEmptyIffBlank | src/pages/Settings.tsx:52 | a string trims to "" exactly when every character is white space |
| Text.Join | supabase/functions/suggest-reply/index.ts:24 | no parts join to "", one part joins to itself, and more parts start with the first part and the separator |
| Text.JoinContainsParts | supabase/functions/suggest-reply/index.ts:24 | every joined part occurs in the joined string |
| Text.JoinOfLowerIsLower | src/pages/Analytics.tsx:51-53 | joining lower-case parts with a space gives lower-case text |
| Text.Words | src/pages/Analytics.tsx:54 | `split(/\s+/)` yields non-empty tokens with no white space in them |
| Text.WordsAcrossSpace | src/pages/Analytics.tsx:53-54 | splitting two texts joined by a space gives the words of each in turn |
| Text.WordsOfLowerAreLower | src/pages/Analytics.tsx:52-54 | the tokens of lower-case text are lower-case |
| Text.NatToString | supabase/functions/suggest-reply/index.ts:53 | the rendered number is digits only, one digit exactly below ten, and has no leading zero |
| Text.NatToStringRoundTrip | supabase/functions/suggest-reply/index.ts:53 | the rendered status code reads back as the same number |
| Seqs.Filter | src/pages/Feed.tsx:36-42 | `filter` keeps only elements of the input that satisfy the predicate, never more of them |
| Seqs.FilterIsSubsequence | src/pages/Feed.tsx:34-43 | a filtered list is the input with some elements left out and the rest in order |
| Seqs.FilterMembership | src/pages/Feed.tsx:36-42 | an element is kept if and only if it is in the input and satisfies the predicate |
| Seqs.FilterAppend | src/pages/Home.tsx:94-97 | filtering distributes over concatenation |
| Seqs.FilterKeepsAll | src/pages/Feed.tsx:34 | a predicate true of everything keeps the whole list |
| Seqs.FilterKeepsNone | src/pages/Home.tsx:81-91 | a predicate true of nothing keeps nothing |
| Seqs.FilterTwice | src/pages/Feed.tsx:36-42 | two filters in a row equal one filter by the conjunction |
| Seqs.FilterSamePredicate | src/pages/Feed.tsx:36-42 | filtering depends only on which elements the predicate accepts |
| Seqs.FilterCommutes | src/pages/Feed.tsx:36-42 | two filters give the same list in either order |
| Seqs.FilterIdempotent | src/pages/Feed.tsx:33-44 | filtering a filtered list again changes nothing |
| Seqs.Count | src/components/StatsCards.tsx:9-11 | `filter(...).length` is at most the list length |
| Seqs.CountSplit | src/pages/Alerts.tsx:45 | what a predicate keeps and what its negation keeps add up to the whole list |
| Seqs.InsertSpec | src/pages/Alerts.tsx:62-66 | one insertion step adds exactly the new element and keeps a sorted list sorted |
| Seqs.InsertAt | src/pages/Alerts.tsx:62-66 | the new element goes after every element whose key is not larger and before the larger ones |
| Seqs.SortBy | src/pages/Alerts.tsx:62-66 | the comparator sort keeps the number of elements |
| Seqs.SortBySpec | src/pages/Alerts.tsx:62-66 | the comparator sort yields a permutation of its input with non-decreasing keys |
| Seqs.InsertKeepsKeyClass | src/pages/Alerts.tsx:62-66 | an insertion step keeps the relative order of elements with the same key |
| Seqs.SortByIsStable | src/pages/Alerts.tsx:62-66 | the sort is stable: the elements of each key keep their input order |
| Seqs.TopBy | src/pages/Analytics.tsx:47-48 | `sort(...).slice(0, k)` has k elements, or all of them when fewer |
| Seqs.TopBySorted | src/pages/Analytics.tsx:47-48 | the top k are sorted and are drawn from the input |
| Seqs.TopByKeepsSmallest | src/pages/Analytics.tsx:47-48 | no element left out has a smaller key than one kept |
| Mentions.CountSentiment | src/components/StatsCards.tsx:9-11 | an exact-sentiment count never exceeds the number of mentions |
| Mentions.SentimentCountsPartition | src/components/StatsCards.tsx:9-12 | the three counts add up to at most the total, and to exactly the total if and only if every sentiment is one of the three labels |
| MentionFilter.MatchesSearch | src/pages/Feed.tsx:36-39 | the empty query matches every mention |
| MentionFilter.SearchIgnoresCase | src/pages/Feed.tsx:37-38 | two queries that are equal up to case match the same mentions |
| MentionFilter.Visible | src/pages/Feed.tsx:33-44 | the shown list holds only fetched mentions that pass the filters, never more than were fetched |
| MentionFilter.ApplyFilters | src/pages/Feed.tsx:33-44 | the effect's step-by-step filtering yields exactly the mentions that pass every active predicate, in stored order |
| MentionFilter.StageStep | src/pages/Feed.tsx:35-42 | a stage that is switched off leaves the list as it is, and an active stage filters by its predicate |
| MentionFilter.StagesInOrder | src/pages/Feed.tsx:35-42 | search, then sentiment, then source gives the shown list |
| MentionFilter.AnyOrderGivesVisible | src/pages/Feed.tsx:35-42 | running the three stages in any order, repeats allowed, gives the same list |
| MentionFilter.PassesAllMeansEach | src/pages/Feed.tsx:35-42 | passing a sequence of stages means passing each stage in it |
| MentionFilter.StagesConjoin | src/pages/Feed.tsx:35-42 | a chain of stage filters is one filter by the conjunction of the stages |
| MentionFilter.VisibleIsSubsequence | src/pages/Feed.tsx:33-44 | the shown list is an order-preserving subsequence of the fetched list |
| MentionFilter.VisibleMembership | src/pages/Feed.tsx:35-42 | a mention is shown if and only if it is stored and passes the search (case-insensitive, content or author), the sentiment filter and the source filter, each unless switched off |
| MentionFilter.InitialFiltersShowAll | src/pages/Feed.tsx:11-13 | with an empty query and both selects on "all", every mention is shown |
| MentionFilter.VisibleIdempotent | src/pages/Feed.tsx:33-44 | re-running the effect on its own output changes nothing |
| Feed.FeedPage.constructor | src/pages/Feed.tsx:9-13 | the page starts empty with the initial filters, already consistent |
| Feed.FeedPage.FetchMentions | src/pages/Feed.tsx:15-22 | both lists become the rows, or [] for no data; the filters are untouched |
| Feed.FeedPage.FilterEffect | src/pages/Feed.tsx:33-44 | afterwards the shown list is what the filters select from the mentions |
| Feed.FeedPage.ChangeFilters | src/pages/Feed.tsx:33-44 | after an input change and the effect, the shown list matches the new filters |
| Feed.FeedPage.Refresh | src/pages/Feed.tsx:15-44 | after a fetch and the effect, the shown list is a subsequence of the rows holding exactly those that pass |
| Dashboard.FailureText | src/components/Dashboard.tsx:136 | `message \|\| default` is never empty and keeps a non-empty message |
| Dashboard.DashboardPage.constructor | src/components/Dashboard.tsx:14-19 | no mentions, not loading, initial filters |
| Dashboard.DashboardPage.FetchMentions | src/components/Dashboard.tsx:22-36 | on success both lists become the rows; on a store error both lists are kept and the error toast shows |
| Dashboard.DashboardPage.FilterEffect | src/components/Dashboard.tsx:63-82 | the shown list is what the filters select |
| Dashboard.DashboardPage.ChangeFilters | src/components/Dashboard.tsx:63-82 | after an input change the shown list matches the new filters |
| Dashboard.DashboardPage.SimulateMention | src/components/Dashboard.tsx:89-141 | loading is set then always cleared; the insert happens if and only if the analysis succeeded, with the sample's fields and the analysis's sentiment, score and reply; success toast only when both calls succeed, otherwise the error's message or the fallback |
| Alerts.Rank | src/pages/Alerts.tsx:64 | critical ranks 0, low ranks 3, and the ranks stay in 0..3 |
| Alerts.AlertRank | src/pages/Alerts.tsx:63-65 | a known severity sorts by its table rank; a missing one gets 4, outside the table |
| Alerts.RankOrder | src/pages/Alerts.tsx:64 | critical < high < medium < low, and distinct severities rank differently |
| Alerts.SortBySeverity | src/pages/Alerts.tsx:62-66 | the in-place sort leaves the array equal to the stable sort by rank of its old contents |
| Alerts.InsertLast | src/pages/Alerts.tsx:62-66 | one pass inserts the next element into the sorted prefix and leaves the rest of the array alone |
| Alerts.SortedAlerts | src/pages/Alerts.tsx:62-66 | sorted alerts have non-decreasing rank, are a permutation of the fetched ones, and alerts of equal severity keep their fetched order |
| Alerts.SortExample | src/pages/Alerts.tsx:62-66 | [low, critical, medium, high] sorts to [critical, high, medium, low] |
| Alerts.SortFour | src/pages/Alerts.tsx:62-66 | any four alerts of severities low, critical, medium, high, in that order, sort to critical, high, medium, low |
| Alerts.SortThree | src/pages/Alerts.tsx:62-66 | alerts of severities low, critical, medium sort to critical, medium, low |
| Alerts.SortTwo | src/pages/Alerts.tsx:62-66 | alerts of severities low, critical sort to critical, low |
| Alerts.AlertQuery | src/pages/Alerts.tsx:25-31 | the fetched alerts are a subsequence of the table |
| Alerts.AlertQueryMembership | src/pages/Alerts.tsx:28 | a mention is fetched if and only if it is negative, acknowledged ones included |
| Alerts.RemoveById | src/pages/Alerts.tsx:45 | acknowledging keeps only listed alerts whose id differs, and never lengthens the list |
| Alerts.RemoveByIdSpec | src/pages/Alerts.tsx:45 | acknowledging removes every alert with the id and keeps all others in order, and the removed and kept counts add up |
| Alerts.RemoveAbsentId | src/pages/Alerts.tsx:45 | acknowledging an id that is not listed changes nothing |
| Alerts.AlertsPage.constructor | src/pages/Alerts.tsx:20-21 | no alerts, auto alerts on |
| Alerts.AlertsPage.FetchAlerts | src/pages/Alerts.tsx:24-32 | the array holds exactly the query's rows, or none |
| Alerts.AlertsPage.Render | src/pages/Alerts.tsx:62-66 | rendering sorts the state array in place by rank |
| Alerts.AlertsPage.AcknowledgeAlert | src/pages/Alerts.tsx:42-46 | the success toast shows whatever the update did, and the list loses exactly the alerts with that id |
| Analytics.Keys | src/pages/Analytics.tsx:42 | the keys of a dictionary, one per entry, in insertion order |
| Analytics.Bump | src/pages/Analytics.tsx:37 | `acc[key] = (acc[key] \|\| 0) + 1` adds at most one property |
| Analytics.BumpCounts | src/pages/Analytics.tsx:37 | one increment counts the key once more, changes no other count, and adds one to the sum |
| Analytics.BumpKeys | src/pages/Analytics.tsx:37 | one increment adds the key if missing and keeps keys distinct and counts positive |
| Analytics.BumpAll | src/pages/Analytics.tsx:36-38 | after the loop each word's count has grown by its number of occurrences; keys stay distinct and counts positive |
| Analytics.TallyLists | src/pages/Analytics.tsx:35-40 | the nested reduction counts every occurrence over all lists and nothing else |
| Analytics.CountOfEntry | src/pages/Analytics.tsx:42 | with distinct keys each entry holds its key's count |
| Analytics.EmotionLists | src/pages/Analytics.tsx:19-21 | one key list per mention |
| Analytics.TagLists | src/pages/Analytics.tsx:35-36 | one tag list per mention |
| Analytics.EmotionData | src/pages/Analytics.tsx:19-27 | each emotion's count is its number of occurrences over all mentions |
| Analytics.TagData | src/pages/Analytics.tsx:35-40 | each tag's count is its number of occurrences, and the counts add up to the number of tags |
| Analytics.EmotionCountIsMentionCount | src/pages/Analytics.tsx:19-27 | since an object's keys are distinct, an emotion's count is the number of mentions that have it |
| Analytics.DistinctOccurrence | src/pages/Analytics.tsx:21 | a key occurs at most once in one object's keys |
| Analytics.LowerContents | src/pages/Analytics.tsx:52 | one entry per mention, in lower case and equal to its content up to case |
| Analytics.KeywordTokens | src/pages/Analytics.tsx:51-55 | every keyword token is lower-case, has no white space and is longer than four characters |
| Analytics.LoweredWordsShape | src/pages/Analytics.tsx:51-54 | the words of the joined lower-cased contents are lower-case and free of white space |
| Analytics.Keywords | src/pages/Analytics.tsx:51-59 | each keyword's count is its number of occurrences among the tokens, with no other keys |
| Analytics.KeywordKeysShape | src/pages/Analytics.tsx:51-59 | every counted keyword has the keyword shape |
| Analytics.TagChartData | src/pages/Analytics.tsx:42-48 | at most ten bars |
| Analytics.TagChartSpec | src/pages/Analytics.tsx:42-48 | ten bars or all of them, counts non-increasing, drawn from the tags, and no tag left out has a larger count than a bar shown |
| Analytics.TopKeywords | src/pages/Analytics.tsx:61-64 | at most twenty keywords |
| Analytics.TopKeywordsSpec | src/pages/Analytics.tsx:61-64 | twenty keywords or all of them, most frequent first, and none left out is more frequent than one shown |
| Analytics.CapitalizeFirst | src/pages/Analytics.tsx:30 | capitalising keeps the length, puts the first character in upper case and keeps the rest |
| Analytics.CapitalizeFirstSpec | src/pages/Analytics.tsx:30 | capitalising gives the same text ignoring case, changes only the first character, leaves no lower-case letter there, and capitalising twice changes nothing more |
| Analytics.UnderscoresToSpaces | src/pages/Analytics.tsx:44 | no underscore is left, the spaces of the result are exactly the spaces and underscores of the input, and every other character stays |
| Analytics.TitleCase | src/pages/Analytics.tsx:44 | the same text up to case with the same word starts, no word start a lower-case letter, and every other character unchanged |
| Analytics.TagLabel | src/pages/Analytics.tsx:44 | a tag label is the tag with underscores turned into spaces, equal to it ignoring case; it keeps the length, starts each word without a lower-case letter, and changes no other character |
| Analytics.TagLabelIdempotent | src/pages/Analytics.tsx:44 | formatting a label again changes nothing |
| Analytics.TagLabelExample | src/pages/Analytics.tsx:44 | "feature_request" is shown as "Feature Request" |
| Analytics.BadgeSize | src/pages/Analytics.tsx:136 | the font size lies in 12..32, is at least 14 for a counted word, and grows by 2 per count up to 10 |
| Analytics.BadgeSizeMonotone | src/pages/Analytics.tsx:136 | a more frequent keyword never gets a smaller badge |
| Home.SentimentData | src/pages/Home.tsx:75-79 | three slices named Positive, Neutral, Negative |
| Home.SentimentDataSums | src/pages/Home.tsx:75-79 | the slices add up to at most the mentions, and to all of them if and only if every sentiment is known |
| Home.Increment | src/pages/Home.tsx:86 | `existing[sentiment]++` adds one to the matching count only, and a sentiment outside the three changes no count |
| Home.Dates | src/pages/Home.tsx:84 | the day of each bucket, in bucket order |
| Home.FindDate | src/pages/Home.tsx:84 | `find` returns a bucket of that day, or there is none |
| Home.DayKeys | src/pages/Home.tsx:83 | the day key of each mention, in list order |
| Home.FirstOccurrencesSpec | src/pages/Home.tsx:84-89 | the days in first-seen order contain every day once |
| Home.BucketForStep | src/pages/Home.tsx:85-86 | one more mention changes its own day's counts by its sentiment, and no other day's |
| Home.BucketForAbsent | src/pages/Home.tsx:88 | a day with no mentions has zero counts |
| Home.TotalUpdate | src/pages/Home.tsx:85-86 | replacing one bucket changes the total by the difference |
| Home.Record | src/pages/Home.tsx:82-91 | the callback adds at most one bucket |
| Home.RecordDates | src/pages/Home.tsx:84-89 | a new day is pushed at the end, and a known day adds no bucket |
| Home.RecordTotal | src/pages/Home.tsx:86-88 | a mention with a known sentiment adds one to the buckets' total, any other adds nothing |
| Home.RecordBuckets | src/pages/Home.tsx:82-91 | after the callback every bucket still holds its day's counts, and every day seen has a bucket |
| Home.TrendStep | src/pages/Home.tsx:82-91 | one callback step turns the buckets of a list into the buckets of that list plus one mention |
| Home.TrendBuckets | src/pages/Home.tsx:81-91 | the reduction gives one bucket per day, in first-seen order, each holding that day's counts, together holding every mention with a known sentiment |
| Home.AllKnownMeansAllCounted | src/pages/Home.tsx:86-88 | when every sentiment is known, the buckets hold all the mentions |
| Home.Last7 | src/pages/Home.tsx:92 | `slice(-7)` is the last seven buckets, or all of them |
| Home.TrendData | src/pages/Home.tsx:81-92 | the points are the buckets of the last seven days in first-seen order (all of them when fewer), each holding that day's counts; the list is fetched newest first, so these are the seven oldest days |
| Home.DatesSuffix | src/pages/Home.tsx:92 | the days of a suffix of the buckets are the suffix of their days |
| Home.SuffixKeepsBuckets | src/pages/Home.tsx:92 | slicing off the front keeps the buckets' properties |
| Home.NegativeToday | src/pages/Home.tsx:94-97 | today's negatives never exceed all negatives |
| Home.NegativeTodayBound | src/pages/Home.tsx:94-97 | the conjunctive filter keeps no more than the negative filter |
| Home.ResponseRate | src/pages/Home.tsx:99 | the rate lies in 0..100, is 0 with no mentions, and is 100 if and only if every mention has a reply |
| Home.Ratio | src/pages/Home.tsx:99 | a count over a larger, non-zero denominator, times 100, lies in 0..100 and is 100 only for the whole |
| Home.SimulatedRecord | src/pages/Home.tsx:54-65 | severity is high exactly for a negative sentiment and low otherwise; the record copies the sample, the sentiment, score and reply, and carries the content's tags and the sentiment's emotions |
| Home.EmotionsFor | src/pages/Home.tsx:58-60 | joy/satisfaction exactly for "positive", anger/frustration exactly for "negative", neutral for anything else |
| Home.TagsFor | src/pages/Home.tsx:61-62 | exactly one tag list is chosen: "feature"/"product" when the content contains "feature", otherwise "technical"/"quality" when it contains "freezing", otherwise "general" |
| Home.FeatureSampleTags | src/pages/Home.tsx:44-62 | the first canned sample, which says "features", is tagged "feature"/"product" |
| Home.HomePage.constructor | src/pages/Home.tsx:11-12 | no mentions, not loading |
| Home.HomePage.FetchMentions | src/pages/Home.tsx:14-26 | on success the mentions become the rows; a store error leaves them as they were |
| Home.HomePage.SimulateMention | src/pages/Home.tsx:41-73 | loading is set then always cleared; the record is sent if and only if the analysis succeeded; the success toast shows whatever the insert did; a failed analysis shows its own message |
| StatsCards.Percentage | src/components/StatsCards.tsx:25 | with no mentions the share is 0; otherwise share × total = count × 100 |
| StatsCards.PercentageBounds | src/components/StatsCards.tsx:25 | a share lies in 0..100 and is 100 exactly when the count is the whole non-empty total |
| StatsCards.PercentageSum | src/components/StatsCards.tsx:25-41 | shares of one total add up like their counts |
| StatsCards.Stats | src/components/StatsCards.tsx:14-46 | four cards, Total, Positive, Negative, Neutral, in that order, and only Total has no percentage |
| StatsCards.StatsSpec | src/components/StatsCards.tsx:9-46 | each card counts exact matches, none exceeds the total, the three add up to the total if and only if every sentiment is known, each share lies in 0..100, and all shares are 0 with no mentions |
| StatsCards.SharesSumTo100 | src/components/StatsCards.tsx:25-41 | the three shares add up to 100 if and only if there are mentions and every sentiment is known |
| Settings.EmailFlag | src/pages/Settings.tsx:28 | the email switch is on after load exactly when the stored object has `email: true` |
| Settings.SlackFlag | src/pages/Settings.tsx:29 | the Slack switch is on after load exactly when the stored object has `slack: true` |
| Settings.SettingsPage.constructor | src/pages/Settings.tsx:14-19 | auto alerts on, threshold "medium", email on, Slack off, no competitors, empty input |
| Settings.SettingsPage.FetchSettings | src/pages/Settings.tsx:21-34 | a loaded row replaces the four settings, missing flags become false, and the competitor list becomes the stored names or [] |
| Settings.SettingsPage.SaveSettings | src/pages/Settings.tsx:38-49 | the upserted object is the current state with notification methods exactly `{email, slack}`, and the toast reports the outcome |
| Settings.SettingsPage.AddCompetitor | src/pages/Settings.tsx:51-61 | a blank input changes and sends nothing; otherwise the untrimmed input is sent, appended and the box cleared on success, and nothing changes on failure; names added are never blank |
| Http.JsonHeadersExtendCors | supabase/functions/analyze-sentiment/index.ts:102 | JSON responses carry every CORS header plus the content type |
| AnalyzeSentiment.RemoveFences | supabase/functions/analyze-sentiment/index.ts:57 | the replacement never lengthens the text |
| AnalyzeSentiment.StripFences | supabase/functions/analyze-sentiment/index.ts:57 | the text given to `JSON.parse` is no longer than the reply |
| AnalyzeSentiment.RemoveFencesNoFence | supabase/functions/analyze-sentiment/index.ts:57 | text without "```" is left unchanged by the replacement |
| AnalyzeSentiment.StripUnfenced | supabase/functions/analyze-sentiment/index.ts:57 | text without "```" is only trimmed |
| AnalyzeSentiment.RemoveClosingFence | supabase/functions/analyze-sentiment/index.ts:57 | a closing fence on its own line is removed together with its newline |
| AnalyzeSentiment.StripFencedJson | supabase/functions/analyze-sentiment/index.ts:57 | a reply fenced as "```json" … "```" yields its trimmed inside |
| AnalyzeSentiment.LeadingNewlineKeepsTag | supabase/functions/analyze-sentiment/index.ts:57 | a newline before the opening fence makes the second alternative match first, so "json" stays in the text |
| AnalyzeSentiment.ClassifyPrompt | supabase/functions/analyze-sentiment/index.ts:39 | the classification message names the post's source and quotes its content |
| AnalyzeSentiment.ReplyPrompt | supabase/functions/analyze-sentiment/index.ts:79 | the reply message names the post's source and quotes its content |
| AnalyzeSentiment.Handle | supabase/functions/analyze-sentiment/index.ts:8-113 | at most two LLM calls; any call needs a non-preflight request with a readable body and a key, and is the classification first; a second call follows only a classification reply and is the reply prompt |
| AnalyzeSentiment.PreflightMakesNoCall | supabase/functions/analyze-sentiment/index.ts:9-11 | OPTIONS gets a bodiless CORS answer and no LLM call |
| AnalyzeSentiment.ResponsesAreJsonOr500 | supabase/functions/analyze-sentiment/index.ts:13-113 | every other answer is JSON with CORS headers, either 200 with an analysis or 500 with an error |
| AnalyzeSentiment.MissingKeyIs500 | supabase/functions/analyze-sentiment/index.ts:15-19 | a missing key gives 500 with its fixed message and no call |
| AnalyzeSentiment.FirstNotOkIs500 | supabase/functions/analyze-sentiment/index.ts:45-49 | a classification that is not ok gives 500 "Failed to analyze sentiment", and no second call |
| AnalyzeSentiment.SecondCallIffNegative | supabase/functions/analyze-sentiment/index.ts:59-90 | the reply call is made if and only if the decoded sentiment is "negative", with the classification's content and source |
| AnalyzeSentiment.SuccessfulAnalysis | supabase/functions/analyze-sentiment/index.ts:85-103 | success carries the decoded sentiment and score, the explanation or "", and a trimmed reply exactly when the sentiment is negative and the reply call was ok |
| AnalyzeSentiment.ThrownErrorsAre500 | supabase/functions/analyze-sentiment/index.ts:104-112 | an unreadable body, a thrown fetch, an undecodable classification or a thrown reply call gives 500 with that error's message |
| AnalyzeSentiment.NegativeExample | supabase/functions/analyze-sentiment/index.ts:57-103 | a negative classification with a drafted reply gives that sentiment, score and reply after two calls |
| AnalyzeSentiment.MalformedExample | supabase/functions/analyze-sentiment/index.ts:57 | a classification that does not decode gives 500 after one call |
| SuggestReply.EmotionContext | supabase/functions/suggest-reply/index.ts:23-25 | no emotions give ""; otherwise the sentence starts with "The user seems to feel: ", ends with "." and names every emotion |
| SuggestReply.UserPrompt | supabase/functions/suggest-reply/index.ts:42 | the message names the sentiment and quotes the feedback |
| SuggestReply.Handle | supabase/functions/suggest-reply/index.ts:11-68 | at most one LLM call, made only for a non-preflight request with a readable body and a key, with the user prompt of that body |
| SuggestReply.PreflightMakesNoCall | supabase/functions/suggest-reply/index.ts:12-14 | OPTIONS gets a bodiless CORS answer and no call |
| SuggestReply.MissingKeyIs500 | supabase/functions/suggest-reply/index.ts:19-21 | a missing key gives 500 with its fixed message and no call |
| SuggestReply.NotOkNamesStatus | supabase/functions/suggest-reply/index.ts:50-54 | a non-ok response gives 500 whose message is "OpenAI API error: " followed by the status, which reads back as the status |
| SuggestReply.SuccessKeepsReply | supabase/functions/suggest-reply/index.ts:27-61 | success returns exactly `{suggestedReply}` with the untrimmed text, after one call whose prompt names every emotion |
| SuggestReply.ResponsesAreJsonOr500 | supabase/functions/suggest-reply/index.ts:16-68 | every other answer is JSON with CORS headers, either 200 with a reply or 500 with an error |
| SuggestReply.EmptyEmotionsObject | supabase/functions/suggest-reply/index.ts:23-25 | an empty emotions object is truthy and still gives the sentence, with nothing named |

## Left out

- Store and gateway I/O are not modelled. This covers Supabase selects, inserts, updates and upserts, realtime
  channels, auth and sign-out, `fetch`, `req.json()`, `response.json()` and `JSON.parse`. They appear only as outcome
  parameters.
- The race between a local acknowledge and a realtime refetch is concurrency and is not modelled.
- Floating point is replaced by exact `real` arithmetic, and `toFixed(1)` rounding is not modelled. This affects:
  - the StatsCards shares;
  - the response rate;
  - the average sentiment score card (src/pages/Home.tsx:125);
  - the emotion intensity `total / count` (src/pages/Analytics.tsx:23, 31), where only the key counts are kept;
  - badge opacity;
  - `parseFloat(score)`, where the decoder is taken to return the score directly.
- Dates are not parsed or formatted. `toLocaleDateString`/`toDateString` are an abstract `dateOf` day key, and "now"
  is a given `today` key.
- Unicode case mapping is not modelled: `toLowerCase`/`toUpperCase` act on ASCII letters only. `length` counts
  characters, not UTF-16 code units, which matters for the keyword `length > 4` test.
- The keyword `split(/\s+/)` drops the empty first and last tokens that JavaScript yields for text that starts or ends
  with white space. Those are always shorter than five characters, so the keyword filter removes them anyway.
- JavaScript object key order is not modelled: dictionaries are insertion-ordered association lists, while JavaScript
  enumerates integer-like keys first. In the tag and keyword charts it decides the order of ties, and also which tied
  entries survive the `slice(0, 10)` and `slice(0, 20)` cuts, so neither is asserted there. The emotion chart is not sorted, so there key order decides the whole bar order, and the model
  states no order for its bars.
- The server-side `.order("severity")` and `.order("timestamp")` are done by the database, and the fetched list is
  taken as given.
- Alerts.SortBySeverity requires every alert to have one of the four severities. The comparator only knows those four,
  so the sort is a total order on them alone. With a missing severity the comparator yields NaN, so the order is
  implementation-defined, and the render throws on `config.icon`.
- Seqs.SortBy: its own contract states only that the length is kept. The permutation and the non-decreasing keys are
  proved about it in `SortBySpec`, and stability in `SortByIsStable`. Stating them on the function makes every concrete
  sort, such as `Alerts.SortExample`, too costly to verify.
- Alerts.RemoveById: its own contract states only that the kept alerts are listed ones with another id. The converse,
  the order and the counts are proved about it in `RemoveByIdSpec`.
- MentionFilter.Visible: its own contract states only that the shown mentions are fetched ones that pass. The converse
  is proved in `VisibleMembership`, and the order in `VisibleIsSubsequence`.
- Keys named after `Object.prototype` properties are not modelled. The page's dictionaries are `{}` literals, so
  `acc["constructor"]` reads the inherited `Object` function, and an assignment to `acc["__proto__"]` stores no key.
  In the source, a "constructor" word or tag gets a string value instead of a count, which then sorts as NaN, and a
  "__proto__" one is never stored. A "constructor" emotion skips its initialisation and never reaches
  `Object.values`. The model treats every key as an own property. This affects the following members:
- Analytics.Bump: counts a prototype-named key like any other.
- Analytics.BumpCounts: its "one more for the key" does not hold in the source for a prototype-named key.
- Analytics.BumpKeys: it keeps a "__proto__" key and gives "constructor" a positive count, which the source does not.
- Analytics.BumpAll: its per-word occurrence counts do not hold for prototype-named words.
- Analytics.TallyLists: the same gap for the tags and emotions it tallies.
- Analytics.EmotionData: an emotion named "constructor" has a count here but no entry in the source.
- Analytics.TagData: a tag named "constructor" has a count here but a string value in the source (src/pages/Analytics.tsx:37).
- Analytics.Keywords: the word "constructor" has a count here but a string value in the source (src/pages/Analytics.tsx:57).
- A mention whose sentiment is "date" is not modelled as the trend chart sees it. The classifier's label is stored
  unchecked, and in src/pages/Home.tsx:88 the computed key `[mention.sentiment]: 1` then overwrites the new bucket's
  `date` with 1, so later mentions of that day no longer find it and push another bucket. On a day that already has a
  bucket, `existing["date"]++` at src/pages/Home.tsx:86 turns its date into NaN. The model's buckets keep their day
  for every sentiment. This affects the following members:
- Home.Increment: keeps the bucket's date for a "date" sentiment, where the source turns it into NaN.
- Home.Record: a new day with a "date" sentiment gets a bucket keyed by that day here, but by 1 in the source.
- Home.RecordDates: "a known day adds no bucket" fails in the source after a "date" sentiment.
- Home.RecordBuckets: one bucket per day holding its counts fails in the source after a "date" sentiment.
- Home.TrendStep: the step to the reference buckets fails in the source for a "date" sentiment.
- Home.TrendBuckets: one bucket per first-seen day fails in the source once a "date" sentiment occurs.
- Home.TrendData: the distinct first-seen days of the points fail in the source once a "date" sentiment occurs.
- The random choice of sample is a parameter of `SimulateMention`.
- The environment variable `OPENAI_API_KEY` of `suggest-reply` is read once when the module loads. It is a parameter.
- Request plumbing that does not affect results is left out: console logging, the system prompts' text, model names,
  temperature and token limits. The user prompts are modelled as the strings the handlers send.
- The switch, select and input setters of the Settings and Alerts pages are plain field assignments and are not
  modelled as methods. The Alerts page's `autoAlerts` switch is kept as a field only.
- Rendering (JSX, icons, gradients, animation delays) is not modelled.
