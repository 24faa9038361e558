/** The four summary cards above the dashboard: the total number of mentions
    and, for each of the three sentiments, its count and its share of the
    total in percent. */
module StatsCards {
  import opened Wrappers
  import opened Mentions

  /** One card; `percentage` is `None` where the card shows no "% of total" line. */
  datatype Stat = Stat(title: string, value: nat, percentage: Option<real>)

  /** `total > 0 ? (count / total) * 100 : 0`, before `toFixed(1)`. */
  function Percentage(count: nat, total: nat): (p: real)
    ensures total == 0 ==> p == 0.0
    ensures total > 0 ==> p * total as real == count as real * 100.0
  {
    if total > 0 then count as real / total as real * 100.0 else 0.0
  }

  /** A share of a non-empty total lies between 0 and 100, and is 100 exactly
      when the count is the whole total. */
  lemma PercentageBounds(count: nat, total: nat)
    requires count <= total
    ensures 0.0 <= Percentage(count, total) <= 100.0
    ensures Percentage(count, total) == 100.0 <==> total > 0 && count == total
  {
    if total > 0 {
      var p := Percentage(count, total);
      assert p * total as real == count as real * 100.0;
      assert p * total as real <= total as real * 100.0;
    }
  }

  /** Shares of one total add up like the counts do. */
  lemma PercentageSum(a: nat, b: nat, c: nat, total: nat)
    requires total > 0
    ensures Percentage(a, total) + Percentage(b, total) + Percentage(c, total) == Percentage(a + b + c, total)
  {
    var t := total as real;
    assert (Percentage(a, total) + Percentage(b, total) + Percentage(c, total)) * t
        == Percentage(a, total) * t + Percentage(b, total) * t + Percentage(c, total) * t;
  }

  /** The `stats` array the component renders, in its order. */
  function Stats(ms: seq<Mention>): (r: seq<Stat>)
    ensures |r| == 4
    ensures r[0].title == "Total Mentions" && r[1].title == "Positive"
         && r[2].title == "Negative" && r[3].title == "Neutral"
    ensures r[0].percentage.None? && r[1].percentage.Some? && r[2].percentage.Some? && r[3].percentage.Some?
    ensures r[0].value == |ms|
  {
    var positive := CountSentiment(ms, PositiveLabel);
    var neutral := CountSentiment(ms, NeutralLabel);
    var negative := CountSentiment(ms, NegativeLabel);
    var total := |ms|;
    [ Stat("Total Mentions", total, None),
      Stat("Positive", positive, Some(Percentage(positive, total))),
      Stat("Negative", negative, Some(Percentage(negative, total))),
      Stat("Neutral", neutral, Some(Percentage(neutral, total))) ]
  }

  /** The three sentiment cards count exact matches, none exceeds the total,
      their counts add up to at most the total (exactly the total when every
      sentiment is one of the three), each share lies in [0, 100], and with no
      mentions every share is 0. */
  lemma StatsSpec(ms: seq<Mention>)
    ensures var r := Stats(ms);
      && r[1].value == CountSentiment(ms, PositiveLabel)
      && r[2].value == CountSentiment(ms, NegativeLabel)
      && r[3].value == CountSentiment(ms, NeutralLabel)
      && (forall k :: 1 <= k < 4 ==> r[k].value <= r[0].value)
      && r[1].value + r[2].value + r[3].value <= r[0].value
      && ((forall k :: 0 <= k < |ms| ==> HasKnownSentiment(ms[k])) <==>
          r[1].value + r[2].value + r[3].value == r[0].value)
      && (forall k :: 1 <= k < 4 ==> 0.0 <= r[k].percentage.value <= 100.0)
      && (|ms| == 0 ==> forall k :: 1 <= k < 4 ==> r[k].percentage.value == 0.0)
  {
    var r := Stats(ms);
    SentimentCountsPartition(ms);
    PercentageBounds(r[1].value, |ms|);
    PercentageBounds(r[2].value, |ms|);
    PercentageBounds(r[3].value, |ms|);
  }

  /** The three shares add up to 100 exactly when there is at least one
      mention and every sentiment is one of the three labels. */
  lemma SharesSumTo100(ms: seq<Mention>)
    ensures var r := Stats(ms);
      r[1].percentage.value + r[2].percentage.value + r[3].percentage.value == 100.0 <==>
      |ms| > 0 && forall k :: 0 <= k < |ms| ==> HasKnownSentiment(ms[k])
  {
    var r := Stats(ms);
    SentimentCountsPartition(ms);
    if |ms| > 0 {
      PercentageSum(r[1].value, r[2].value, r[3].value, |ms|);
      PercentageBounds(r[1].value + r[2].value + r[3].value, |ms|);
    }
  }
}
