/** The home page: the sentiment pie, the per-day trend line built by a
    bucket reduction, today's negative count, the response rate, and the
    "add sample mention" button that fills in emotions, tags and severity. */
module Home {
  import opened Wrappers
  import opened Text
  import opened Seqs
  import opened Mentions
  import AnalyzeSentiment

  // ---------------------------------------------------------------- pie

  datatype Slice = Slice(name: string, value: nat)

  /** `sentimentData`: the exact-match counts, positive, neutral, negative. */
  function SentimentData(ms: seq<Mention>): (r: seq<Slice>)
    ensures |r| == 3
    ensures r[0].name == "Positive" && r[1].name == "Neutral" && r[2].name == "Negative"
  {
    [Slice("Positive", CountSentiment(ms, PositiveLabel)),
     Slice("Neutral", CountSentiment(ms, NeutralLabel)),
     Slice("Negative", CountSentiment(ms, NegativeLabel))]
  }

  /** The slices never add up to more than the mentions, and add up to all of
      them exactly when every sentiment is one of the three labels. */
  lemma SentimentDataSums(ms: seq<Mention>)
    ensures var r := SentimentData(ms);
            && r[0].value + r[1].value + r[2].value <= |ms|
            && ((forall k :: 0 <= k < |ms| ==> HasKnownSentiment(ms[k])) <==>
                r[0].value + r[1].value + r[2].value == |ms|)
  {
    SentimentCountsPartition(ms);
  }

  // ---------------------------------------------------------------- trend

  /** A point of the trend line: the counts of one day. */
  datatype Bucket = Bucket(date: string, positive: nat, neutral: nat, negative: nat)

  /** `existing[mention.sentiment]++` for the three chart sentiments; any
      other sentiment counts nowhere. A sentiment named "date" is the one
      exception in the page, which this bucket does not model: there it
      overwrites the bucket's day. */
  function Increment(b: Bucket, sentiment: string): (r: Bucket)
    ensures r.date == b.date
    ensures r.positive == b.positive + (if sentiment == PositiveLabel then 1 else 0)
    ensures r.neutral == b.neutral + (if sentiment == NeutralLabel then 1 else 0)
    ensures r.negative == b.negative + (if sentiment == NegativeLabel then 1 else 0)
  {
    if sentiment == PositiveLabel then b.(positive := b.positive + 1)
    else if sentiment == NeutralLabel then b.(neutral := b.neutral + 1)
    else if sentiment == NegativeLabel then b.(negative := b.negative + 1)
    else b
  }

  function Dates(acc: seq<Bucket>): (r: seq<string>)
    ensures |r| == |acc|
    ensures forall k :: 0 <= k < |acc| ==> r[k] == acc[k].date
    decreases |acc|
  {
    if |acc| == 0 then [] else [acc[0].date] + Dates(acc[1..])
  }

  /** `acc.find(d => d.date === date)`, as an index. */
  function FindDate(acc: seq<Bucket>, date: string): (r: Option<nat>)
    ensures r.Some? ==> r.value < |acc| && acc[r.value].date == date
    ensures r.None? ==> date !in Dates(acc)
    decreases |acc|
  {
    if |acc| == 0 then None
    else if acc[0].date == date then Some(0)
    else match FindDate(acc[1..], date)
      case None => None
      case Some(k) => Some(k + 1)
  }

  /** The day key of each mention, in list order. */
  function DayKeys(ms: seq<Mention>, dateOf: int -> string): (r: seq<string>)
    ensures |r| == |ms|
    ensures forall k :: 0 <= k < |ms| ==> r[k] == dateOf(ms[k].timestamp)
    decreases |ms|
  {
    if |ms| == 0 then [] else DayKeys(ms[..|ms| - 1], dateOf) + [dateOf(ms[|ms| - 1].timestamp)]
  }

  /** The distinct elements of `s`, each where it first occurs. */
  function FirstOccurrences(s: seq<string>): (r: seq<string>)
    decreases |s|
  {
    if |s| == 0 then []
    else
      var init := FirstOccurrences(s[..|s| - 1]);
      if s[|s| - 1] in s[..|s| - 1] then init else init + [s[|s| - 1]]
  }

  /** First occurrences keep every element once. */
  lemma {:induction false} FirstOccurrencesSpec(s: seq<string>)
    ensures forall x :: x in FirstOccurrences(s) <==> x in s
    ensures NoRepeats(FirstOccurrences(s))
    decreases |s|
  {
    if |s| > 0 {
      FirstOccurrencesSpec(s[..|s| - 1]);
      assert s == s[..|s| - 1] + [s[|s| - 1]];
    }
  }

  function OnDayWith(dateOf: int -> string, date: string, wanted: string): Mention -> bool {
    (m: Mention) => dateOf(m.timestamp) == date && m.sentiment == wanted
  }

  /** The mentions of day `date` with sentiment `wanted`. */
  function CountOn(ms: seq<Mention>, dateOf: int -> string, date: string, wanted: string): nat {
    |Filter(ms, OnDayWith(dateOf, date, wanted))|
  }

  /** What the bucket of `date` should hold: that day's count of each label. */
  function BucketFor(ms: seq<Mention>, dateOf: int -> string, date: string): Bucket {
    Bucket(date, CountOn(ms, dateOf, date, PositiveLabel), CountOn(ms, dateOf, date, NeutralLabel),
           CountOn(ms, dateOf, date, NegativeLabel))
  }

  /** One more mention moves its own day's bucket by `Increment` and no other. */
  lemma BucketForStep(ms: seq<Mention>, m: Mention, dateOf: int -> string, date: string)
    ensures BucketFor(ms + [m], dateOf, date)
         == if dateOf(m.timestamp) == date then Increment(BucketFor(ms, dateOf, date), m.sentiment)
            else BucketFor(ms, dateOf, date)
  {
    FilterAppend(ms, [m], OnDayWith(dateOf, date, PositiveLabel));
    FilterAppend(ms, [m], OnDayWith(dateOf, date, NeutralLabel));
    FilterAppend(ms, [m], OnDayWith(dateOf, date, NegativeLabel));
  }

  /** A day with no mention has an empty bucket. */
  lemma BucketForAbsent(ms: seq<Mention>, dateOf: int -> string, date: string)
    requires date !in DayKeys(ms, dateOf)
    ensures BucketFor(ms, dateOf, date) == Bucket(date, 0, 0, 0)
  {
    forall wanted | true ensures CountOn(ms, dateOf, date, wanted) == 0 {
      forall k | 0 <= k < |ms| ensures !OnDayWith(dateOf, date, wanted)(ms[k]) {
        assert DayKeys(ms, dateOf)[k] == dateOf(ms[k].timestamp);
      }
      FilterKeepsNone(ms, OnDayWith(dateOf, date, wanted));
    }
  }

  function Size(b: Bucket): nat {
    b.positive + b.neutral + b.negative
  }

  function Total(acc: seq<Bucket>): nat
    decreases |acc|
  {
    if |acc| == 0 then 0 else Total(acc[..|acc| - 1]) + Size(acc[|acc| - 1])
  }

  lemma {:induction false} TotalUpdate(acc: seq<Bucket>, k: nat, b: Bucket)
    requires k < |acc|
    ensures Total(acc[k := b]) + Size(acc[k]) == Total(acc) + Size(b)
    decreases |acc|
  {
    var n := |acc| - 1;
    if k < n {
      TotalUpdate(acc[..n], k, b);
      assert acc[k := b][..n] == acc[..n][k := b];
    } else {
      assert acc[k := b][..n] == acc[..n];
    }
  }

  /** The reduce callback: bump the day's bucket where it is, or push a new
      one that starts at 1 for the mention's sentiment. */
  function Record(acc: seq<Bucket>, date: string, sentiment: string): (r: seq<Bucket>)
    ensures |r| == |acc| || |r| == |acc| + 1
  {
    match FindDate(acc, date)
    case Some(k) => acc[k := Increment(acc[k], sentiment)]
    case None => acc + [Increment(Bucket(date, 0, 0, 0), sentiment)]
  }

  /** A new day is added at the end; a known one changes no date. */
  lemma RecordDates(acc: seq<Bucket>, date: string, sentiment: string)
    ensures Dates(Record(acc, date, sentiment)) == if date in Dates(acc) then Dates(acc) else Dates(acc) + [date]
  {
    match FindDate(acc, date)
    case Some(k) => DatesUpdate(acc, k, Increment(acc[k], sentiment));
    case None => DatesAppend(acc, Increment(Bucket(date, 0, 0, 0), sentiment));
  }

  /** Replacing a bucket by one of the same day keeps the days. */
  lemma DatesUpdate(acc: seq<Bucket>, k: nat, b: Bucket)
    requires k < |acc| && b.date == acc[k].date
    ensures Dates(acc[k := b]) == Dates(acc)
  {
    var r := acc[k := b];
    forall j | 0 <= j < |r| ensures Dates(r)[j] == Dates(acc)[j] {
    }
  }

  /** Appending a bucket appends its day. */
  lemma DatesAppend(acc: seq<Bucket>, b: Bucket)
    ensures Dates(acc + [b]) == Dates(acc) + [b.date]
  {
    var r := acc + [b];
    forall j | 0 <= j < |r| ensures Dates(r)[j] == (Dates(acc) + [b.date])[j] {
    }
  }

  /** A mention with one of the three sentiments adds one to the total. */
  lemma RecordTotal(acc: seq<Bucket>, date: string, sentiment: string)
    ensures Total(Record(acc, date, sentiment)) == Total(acc) + (if sentiment in {PositiveLabel, NeutralLabel, NegativeLabel} then 1 else 0)
  {
    match FindDate(acc, date)
    case Some(k) => TotalUpdate(acc, k, Increment(acc[k], sentiment));
    case None => assert (acc + [Increment(Bucket(date, 0, 0, 0), sentiment)])[..|acc|] == acc;
  }

  /** Recording a mention keeps every bucket equal to its day's counts. */
  lemma RecordBuckets(acc: seq<Bucket>, ms: seq<Mention>, m: Mention, dateOf: int -> string)
    requires forall k :: 0 <= k < |acc| ==> acc[k] == BucketFor(ms, dateOf, acc[k].date)
    requires NoRepeats(Dates(acc))
    requires forall x :: x in DayKeys(ms, dateOf) ==> x in Dates(acc)
    ensures var r := Record(acc, dateOf(m.timestamp), m.sentiment);
            forall k :: 0 <= k < |r| ==> r[k] == BucketFor(ms + [m], dateOf, r[k].date)
  {
    var date := dateOf(m.timestamp);
    var r := Record(acc, date, m.sentiment);
    forall k | 0 <= k < |r| ensures r[k] == BucketFor(ms + [m], dateOf, r[k].date) {
      BucketForStep(ms, m, dateOf, r[k].date);
      match FindDate(acc, date) {
        case Some(i) =>
          if k != i {
            assert Dates(acc)[k] != Dates(acc)[i];
          }
        case None =>
          if k == |acc| {
            BucketForAbsent(ms, dateOf, date);
          }
      }
    }
  }

  /** `acc` is the reduction of `ms`: one bucket per day in order of first
      appearance, each holding its day's count of each sentiment, together
      holding every mention whose sentiment is one of the three labels. */
  predicate TrendOf(acc: seq<Bucket>, ms: seq<Mention>, dateOf: int -> string) {
    && Dates(acc) == FirstOccurrences(DayKeys(ms, dateOf))
    && (forall k :: 0 <= k < |acc| ==> acc[k] == BucketFor(ms, dateOf, acc[k].date))
    && Total(acc) == Count(ms, HasKnownSentiment)
  }

  lemma TrendStep(acc: seq<Bucket>, ms: seq<Mention>, m: Mention, dateOf: int -> string)
    requires TrendOf(acc, ms, dateOf)
    ensures TrendOf(Record(acc, dateOf(m.timestamp), m.sentiment), ms + [m], dateOf)
  {
    DayKeysStep(ms, m, dateOf);
    TrendDatesStep(acc, ms, m, dateOf);
    FirstOccurrencesSpec(DayKeys(ms, dateOf));
    RecordBuckets(acc, ms, m, dateOf);
    TrendTotalStep(acc, ms, m);
  }

  /** One more mention adds its day key at the end. */
  lemma DayKeysStep(ms: seq<Mention>, m: Mention, dateOf: int -> string)
    ensures DayKeys(ms + [m], dateOf) == DayKeys(ms, dateOf) + [dateOf(m.timestamp)]
  {
    assert (ms + [m])[..|ms|] == ms;
  }

  /** The days of the reduction stay the first occurrences of the day keys. */
  lemma TrendDatesStep(acc: seq<Bucket>, ms: seq<Mention>, m: Mention, dateOf: int -> string)
    requires Dates(acc) == FirstOccurrences(DayKeys(ms, dateOf))
    ensures Dates(Record(acc, dateOf(m.timestamp), m.sentiment)) == FirstOccurrences(DayKeys(ms + [m], dateOf))
  {
    var keys := DayKeys(ms, dateOf);
    var date := dateOf(m.timestamp);
    DayKeysStep(ms, m, dateOf);
    FirstOccurrencesSpec(keys);
    RecordDates(acc, date, m.sentiment);
    assert (keys + [date])[..|keys|] == keys;
  }

  /** The total stays the number of mentions with one of the three sentiments. */
  lemma TrendTotalStep(acc: seq<Bucket>, ms: seq<Mention>, m: Mention)
    requires Total(acc) == Count(ms, HasKnownSentiment)
    ensures forall date :: Total(Record(acc, date, m.sentiment)) == Count(ms + [m], HasKnownSentiment)
  {
    FilterAppend(ms, [m], HasKnownSentiment);
    forall date ensures Total(Record(acc, date, m.sentiment)) == Count(ms + [m], HasKnownSentiment) {
      RecordTotal(acc, date, m.sentiment);
    }
  }

  /** The step of the reduction at position `i` of the list. */
  lemma TrendStepAt(acc: seq<Bucket>, ms: seq<Mention>, i: nat, dateOf: int -> string)
    requires i < |ms| && TrendOf(acc, ms[..i], dateOf)
    ensures TrendOf(Record(acc, dateOf(ms[i].timestamp), ms[i].sentiment), ms[..i + 1], dateOf)
  {
    TakeOneMore(ms, i);
    TrendStep(acc, ms[..i], ms[i], dateOf);
  }

  /** The reduced days are distinct. */
  lemma TrendDone(acc: seq<Bucket>, ms: seq<Mention>, dateOf: int -> string)
    requires TrendOf(acc, ms[..|ms|], dateOf)
    ensures TrendOf(acc, ms, dateOf) && NoRepeats(Dates(acc))
  {
    assert ms[..|ms|] == ms;
    FirstOccurrencesSpec(DayKeys(ms, dateOf));
  }

  /** The bucket reduction of `trendData`, before the slice. */
  method TrendBuckets(ms: seq<Mention>, dateOf: int -> string) returns (acc: seq<Bucket>)
    ensures TrendOf(acc, ms, dateOf)
    ensures NoRepeats(Dates(acc))
  {
    acc := [];
    for i := 0 to |ms|
      invariant TrendOf(acc, ms[..i], dateOf)
    {
      TrendStepAt(acc, ms, i, dateOf);
      acc := Record(acc, dateOf(ms[i].timestamp), ms[i].sentiment);
    }
    TrendDone(acc, ms, dateOf);
  }

  /** When every sentiment is one of the three, the buckets hold every mention. */
  lemma AllKnownMeansAllCounted(ms: seq<Mention>)
    requires forall k :: 0 <= k < |ms| ==> HasKnownSentiment(ms[k])
    ensures Count(ms, HasKnownSentiment) == |ms|
  {
    FilterKeepsAll(ms, HasKnownSentiment);
  }

  /** `slice(-7)`: the last seven buckets, or all of them when there are fewer. */
  function Last7(acc: seq<Bucket>): (r: seq<Bucket>)
    ensures |r| == if |acc| < 7 then |acc| else 7
    ensures r == acc[|acc| - |r|..]
  {
    if |acc| < 7 then acc else acc[|acc| - 7..]
  }

  /** `trendData`: the buckets of the last seven distinct days, in the order
      the days first occur, each holding that day's counts. */
  method TrendData(ms: seq<Mention>, dateOf: int -> string) returns (points: seq<Bucket>)
    ensures var days := FirstOccurrences(DayKeys(ms, dateOf));
            && |points| == (if |days| < 7 then |days| else 7)
            && Dates(points) == days[|days| - |points|..]
    ensures NoRepeats(Dates(points))
    ensures forall k :: 0 <= k < |points| ==> points[k] == BucketFor(ms, dateOf, points[k].date)
    ensures forall k :: 0 <= k < |points| ==> points[k].date in DayKeys(ms, dateOf)
  {
    var all := TrendBuckets(ms, dateOf);
    points := Last7(all);
    ghost var d := |all| - |points|;
    SuffixKeepsBuckets(all, d, ms, dateOf);
    LastDays(all, ms, dateOf, d);
  }

  /** The buckets from position `d` on are those of the days from `d` on. */
  lemma LastDays(all: seq<Bucket>, ms: seq<Mention>, dateOf: int -> string, d: nat)
    requires d <= |all| && TrendOf(all, ms, dateOf)
    ensures var days := FirstOccurrences(DayKeys(ms, dateOf));
            |days| == |all| && Dates(all[d..]) == days[d..]
  {
    DatesSuffix(all, d);
  }

  /** The days of a suffix are the suffix of the days. */
  lemma DatesSuffix(acc: seq<Bucket>, d: nat)
    requires d <= |acc|
    ensures Dates(acc[d..]) == Dates(acc)[d..]
  {
    var a, b := Dates(acc[d..]), Dates(acc)[d..];
    forall k | 0 <= k < |a| ensures a[k] == b[k] {
      assert acc[d..][k] == acc[d + k];
    }
  }

  /** Any suffix of the reduction keeps its properties. */
  lemma SuffixKeepsBuckets(all: seq<Bucket>, d: nat, ms: seq<Mention>, dateOf: int -> string)
    requires d <= |all|
    requires TrendOf(all, ms, dateOf) && NoRepeats(Dates(all))
    ensures var p := all[d..];
            && NoRepeats(Dates(p))
            && (forall k :: 0 <= k < |p| ==> p[k] == BucketFor(ms, dateOf, p[k].date))
            && (forall k :: 0 <= k < |p| ==> p[k].date in DayKeys(ms, dateOf))
  {
    var p := all[d..];
    FirstOccurrencesSpec(DayKeys(ms, dateOf));
    forall k | 0 <= k < |p| ensures p[k] == all[d + k] && p[k].date in Dates(all) {
      assert Dates(all)[d + k] == all[d + k].date;
    }
    forall i, j | 0 <= i < j < |p| ensures Dates(p)[i] != Dates(p)[j] {
      assert Dates(all)[d + i] == Dates(p)[i];
      assert Dates(all)[d + j] == Dates(p)[j];
    }
  }

  // ---------------------------------------------------------------- headline numbers

  predicate NegativeOn(dateOf: int -> string, today: string, m: Mention) {
    m.sentiment == NegativeLabel && dateOf(m.timestamp) == today
  }

  /** `negativeMentionsToday`, with the day key of "now" given as `today`. */
  function NegativeToday(ms: seq<Mention>, dateOf: int -> string, today: string): (n: nat)
    ensures n <= CountSentiment(ms, NegativeLabel)
  {
    NegativeTodayBound(ms, dateOf, today);
    Count(ms, m => NegativeOn(dateOf, today, m))
  }

  lemma {:induction false} NegativeTodayBound(ms: seq<Mention>, dateOf: int -> string, today: string)
    ensures Count(ms, m => NegativeOn(dateOf, today, m)) <= CountSentiment(ms, NegativeLabel)
    decreases |ms|
  {
    if |ms| > 0 {
      NegativeTodayBound(ms[1..], dateOf, today);
    }
  }

  /** `m.suggested_response` is truthy: present and not empty. */
  predicate Responded(m: Mention) {
    m.suggestedResponse.Some? && m.suggestedResponse.value != ""
  }

  /** `responseRate`: the percentage of mentions with a suggested response;
      the denominator is at least one, so an empty list gives 0. */
  function ResponseRate(ms: seq<Mention>): (r: real)
    ensures 0.0 <= r <= 100.0
    ensures |ms| == 0 ==> r == 0.0
    ensures r == 100.0 <==> |ms| > 0 && Count(ms, Responded) == |ms|
  {
    var denominator := if |ms| > 1 then |ms| else 1;
    var answered := Count(ms, Responded);
    Ratio(answered, denominator);
    answered as real / denominator as real * 100.0
  }

  lemma Ratio(a: nat, d: nat)
    requires 1 <= d && a <= d
    ensures 0.0 <= a as real / d as real * 100.0 <= 100.0
    ensures a as real / d as real * 100.0 == 100.0 <==> a == d
  {
    var q := a as real / d as real;
    assert q * d as real == a as real;
    assert q <= 1.0;
  }

  // ---------------------------------------------------------------- sample

  /** The emotions object the home page stores for each sentiment, keys
      only: exactly one of three, chosen by an exact match on the label. */
  function EmotionsFor(sentiment: string): (r: seq<string>)
    ensures r == ["joy", "satisfaction"] <==> sentiment == PositiveLabel
    ensures r == ["anger", "frustration"] <==> sentiment == NegativeLabel
    ensures r == ["neutral"] <==> sentiment != PositiveLabel && sentiment != NegativeLabel
  {
    if sentiment == PositiveLabel then ["joy", "satisfaction"]
    else if sentiment == NegativeLabel then ["anger", "frustration"]
    else ["neutral"]
  }

  /** The tags chosen by a content test: exactly one of three lists,
      "feature" winning over "freezing", and "general" for text with neither. */
  function TagsFor(content: string): (r: seq<string>)
    ensures r == ["feature", "product"] <==> Contains(content, "feature")
    ensures r == ["technical", "quality"] <==> !Contains(content, "feature") && Contains(content, "freezing")
    ensures r == ["general"] <==> !Contains(content, "feature") && !Contains(content, "freezing")
  {
    if Contains(content, "feature") then ["feature", "product"]
    else if Contains(content, "freezing") then ["technical", "quality"]
    else ["general"]
  }

  /** The record the home page inserts for an analysed sample. */
  function SimulatedRecord(sample: Sample, a: AnalyzeSentiment.Analysis): (r: NewMention)
    ensures r.severity == Some(High) <==> a.sentiment == NegativeLabel
    ensures r.severity == Some(Low) <==> a.sentiment != NegativeLabel
    ensures r.content == sample.content && r.source == sample.source && r.userName == sample.userName
    ensures r.sentiment == a.sentiment && r.suggestedResponse == a.suggestedResponse
    ensures r.sentimentScore == a.sentimentScore
    ensures r.tags == Some(TagsFor(sample.content))
    ensures r.emotions == Some(EmotionsFor(a.sentiment))
  {
    NewMention(sample.content, sample.source, sample.userName, a.sentiment, a.sentimentScore,
               a.suggestedResponse, Some(EmotionsFor(a.sentiment)), Some(TagsFor(sample.content)),
               Some(if a.sentiment == NegativeLabel then High else Low))
  }

  /** The first canned sample mentions "features", so it is tagged as a
      feature request. */
  lemma FeatureSampleTags()
    ensures TagsFor("This is amazing! Love the new features.") == ["feature", "product"]
  {
    var s := "This is amazing! Love the new features.";
    assert s[30..] == "features.";
    assert StartsWith(s[30..], "feature");
    ContainsInSuffix(s[..30], s[30..], "feature");
    assert s[..30] + s[30..] == s;
  }

  class HomePage {
    var mentions: seq<Mention>
    var loading: bool
    /** Every value `loading` has been set to, oldest first. */
    ghost var loadingHistory: seq<bool>

    constructor()
      ensures mentions == [] && !loading && loadingHistory == []
    {
      mentions := [];
      loading := false;
      loadingHistory := [];
    }

    /** `fetchMentions`: a store error is only logged. */
    method FetchMentions(outcome: Result<Option<seq<Mention>>>)
      modifies this
      ensures outcome.Ok? ==> mentions == (if outcome.value.Some? then outcome.value.value else [])
      ensures outcome.Err? ==> mentions == old(mentions)
      ensures loading == old(loading) && loadingHistory == old(loadingHistory)
    {
      if outcome.Ok? {
        mentions := outcome.value.GetOr([]);
      }
    }

    /** `simulateMention`: unlike the dashboard, the insert's outcome is not
        checked, so the success toast shows whenever the analysis succeeded;
        a failed analysis shows its own message, even an empty one. */
    method SimulateMention(sample: Sample, analysis: Result<AnalyzeSentiment.Analysis>, insert: Result<()>)
      returns (sent: Option<NewMention>, toast: Toast)
      modifies this
      ensures loadingHistory == old(loadingHistory) + [true, false] && !loading
      ensures sent.Some? <==> analysis.Ok?
      ensures sent.Some? ==> sent.value == SimulatedRecord(sample, analysis.value)
      ensures analysis.Ok? ==> toast == SuccessToast("New mention added!")
      ensures analysis.Err? ==> toast == ErrorToast(analysis.message)
      ensures mentions == old(mentions)
    {
      loading := true;
      loadingHistory := loadingHistory + [true];
      match analysis {
        case Err(msg) =>
          sent := None;
          toast := ErrorToast(msg);
        case Ok(a) =>
          sent := Some(SimulatedRecord(sample, a));
          toast := SuccessToast("New mention added!");
      }
      loading := false;
      loadingHistory := loadingHistory + [false];
    }
  }
}
