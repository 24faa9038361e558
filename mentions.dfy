/** The `mentions` row as the pages read it from the store, and the record
    they insert. */
module Mentions {
  import opened Wrappers
  import Seqs

  /** The alert urgency stored in `severity`. */
  datatype Severity = Critical | High | Medium | Low

  datatype Mention = Mention(
    id: string,
    content: string,
    source: string,
    userName: string,
    /** Creation time in milliseconds; only its day key is ever used. */
    timestamp: int,
    sentiment: string,
    sentimentScore: real,
    suggestedResponse: Option<string>,
    /** The keys of the `emotions` object, in key order (intensities are not modelled). */
    emotions: Option<seq<string>>,
    tags: Option<seq<string>>,
    severity: Option<Severity>,
    teamApproved: bool)

  /** The fields a page sends to the store's insert; `None` leaves a field out. */
  datatype NewMention = NewMention(
    content: string,
    source: string,
    userName: string,
    sentiment: string,
    sentimentScore: real,
    suggestedResponse: Option<string>,
    emotions: Option<seq<string>>,
    tags: Option<seq<string>>,
    severity: Option<Severity>)

  /** One of the canned posts the "add sample mention" buttons analyse. */
  datatype Sample = Sample(content: string, source: string, userName: string)

  /** A toast notification a page pops up. */
  datatype Toast = SuccessToast(text: string) | ErrorToast(text: string)

  const PositiveLabel: string := "positive"
  const NeutralLabel: string := "neutral"
  const NegativeLabel: string := "negative"

  /** `mentions.filter(m => m.sentiment === wanted).length`. */
  function CountSentiment(ms: seq<Mention>, wanted: string): (n: nat)
    ensures n <= |ms|
  {
    Seqs.Count(ms, (m: Mention) => m.sentiment == wanted)
  }

  predicate HasKnownSentiment(m: Mention) {
    m.sentiment == PositiveLabel || m.sentiment == NeutralLabel || m.sentiment == NegativeLabel
  }

  /** The three exact-match counts never exceed the list, and add up to it
      exactly when every sentiment is one of the three labels. */
  lemma {:induction false} SentimentCountsPartition(ms: seq<Mention>)
    ensures CountSentiment(ms, PositiveLabel) + CountSentiment(ms, NeutralLabel)
            + CountSentiment(ms, NegativeLabel) <= |ms|
    ensures (forall k :: 0 <= k < |ms| ==> HasKnownSentiment(ms[k])) <==>
            CountSentiment(ms, PositiveLabel) + CountSentiment(ms, NeutralLabel)
            + CountSentiment(ms, NegativeLabel) == |ms|
    decreases |ms|
  {
    if |ms| > 0 {
      SentimentCountsPartition(ms[1..]);
      assert ms == [ms[0]] + ms[1..];
      forall wanted: string ensures CountSentiment(ms, wanted)
        == (if ms[0].sentiment == wanted then 1 else 0) + CountSentiment(ms[1..], wanted) {
        Seqs.FilterAppend([ms[0]], ms[1..], (m: Mention) => m.sentiment == wanted);
      }
      if forall k :: 0 <= k < |ms[1..]| ==> HasKnownSentiment(ms[1..][k]) {
        if HasKnownSentiment(ms[0]) {
          forall k | 0 <= k < |ms| ensures HasKnownSentiment(ms[k]) {
            if k > 0 { assert ms[k] == ms[1..][k - 1]; }
          }
        }
      } else {
        var k :| 0 <= k < |ms[1..]| && !HasKnownSentiment(ms[1..][k]);
        assert ms[k + 1] == ms[1..][k];
      }
    }
  }
}
