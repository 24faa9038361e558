/** The Analytics page: frequency tables of emotions, tags and keywords built
    by reductions that update a dictionary in place, the top-k chart data
    drawn from them, and the label and badge formatting. */
module Analytics {
  import opened Wrappers
  import opened Text
  import opened Seqs
  import opened Mentions

  // ---------------------------------------------------------------- tallies

  /** One property of a counting dictionary, in insertion order. */
  datatype Tally = Tally(key: string, count: nat)

  function Keys(acc: seq<Tally>): (ks: seq<string>)
    ensures |ks| == |acc|
    ensures forall k :: 0 <= k < |acc| ==> ks[k] == acc[k].key
    decreases |acc|
  {
    if |acc| == 0 then [] else [acc[0].key] + Keys(acc[1..])
  }

  predicate DistinctKeys(acc: seq<Tally>) {
    forall i, j :: 0 <= i < j < |acc| ==> acc[i].key != acc[j].key
  }

  predicate AllPositive(acc: seq<Tally>) {
    forall k :: 0 <= k < |acc| ==> acc[k].count > 0
  }

  /** `acc[key] || 0`. */
  function CountOf(acc: seq<Tally>, key: string): nat
    decreases |acc|
  {
    if |acc| == 0 then 0
    else if acc[0].key == key then acc[0].count
    else CountOf(acc[1..], key)
  }

  function SumCounts(acc: seq<Tally>): nat
    decreases |acc|
  {
    if |acc| == 0 then 0 else acc[0].count + SumCounts(acc[1..])
  }

  /** `acc[key] = (acc[key] || 0) + 1`: the property is updated where it is,
      or added at the end. */
  function Bump(acc: seq<Tally>, key: string): (r: seq<Tally>)
    ensures |r| == |acc| || |r| == |acc| + 1
    decreases |acc|
  {
    if |acc| == 0 then [Tally(key, 1)]
    else if acc[0].key == key then [Tally(key, acc[0].count + 1)] + acc[1..]
    else [acc[0]] + Bump(acc[1..], key)
  }

  /** One increment counts `key` once more and changes no other count. */
  lemma {:induction false} BumpCounts(acc: seq<Tally>, key: string)
    ensures forall w :: CountOf(Bump(acc, key), w) == CountOf(acc, w) + (if w == key then 1 else 0)
    ensures SumCounts(Bump(acc, key)) == SumCounts(acc) + 1
    decreases |acc|
  {
    if |acc| > 0 && acc[0].key != key {
      BumpCounts(acc[1..], key);
      assert Bump(acc, key)[1..] == Bump(acc[1..], key);
    } else if |acc| > 0 {
      assert Bump(acc, key)[1..] == acc[1..];
    }
  }

  /** One increment adds `key` to the keys if it was missing, keeps them
      distinct and every count positive. */
  lemma {:induction false} BumpKeys(acc: seq<Tally>, key: string)
    ensures forall w :: w in Keys(Bump(acc, key)) <==> w in Keys(acc) || w == key
    ensures DistinctKeys(acc) ==> DistinctKeys(Bump(acc, key))
    ensures AllPositive(acc) ==> AllPositive(Bump(acc, key))
    decreases |acc|
  {
    var r := Bump(acc, key);
    if |acc| > 0 {
      if acc[0].key == key {
        assert r[1..] == acc[1..];
      } else {
        BumpKeys(acc[1..], key);
        assert r[1..] == Bump(acc[1..], key);
        if DistinctKeys(acc) {
          forall j | 1 <= j < |r| ensures r[0].key != r[j].key {
            assert r[j].key in Keys(r[1..]);
            if r[j].key != key {
              assert r[j].key in Keys(acc[1..]);
              var k :| 0 <= k < |acc[1..]| && Keys(acc[1..])[k] == r[j].key;
              assert acc[k + 1].key == r[j].key;
            }
          }
        }
      }
    }
  }

  /** `ws.forEach(w => acc[w] = (acc[w] || 0) + 1)`: every word counted once
      more, the other counts unchanged. */
  method BumpAll(acc0: seq<Tally>, ws: seq<string>) returns (acc: seq<Tally>)
    ensures forall w :: CountOf(acc, w) == CountOf(acc0, w) + multiset(ws)[w]
    ensures forall w :: w in Keys(acc) <==> w in Keys(acc0) || w in ws
    ensures SumCounts(acc) == SumCounts(acc0) + |ws|
    ensures DistinctKeys(acc0) ==> DistinctKeys(acc)
    ensures AllPositive(acc0) ==> AllPositive(acc)
  {
    acc := acc0;
    for i := 0 to |ws|
      invariant forall w :: CountOf(acc, w) == CountOf(acc0, w) + multiset(ws[..i])[w]
      invariant forall w :: w in Keys(acc) <==> w in Keys(acc0) || w in ws[..i]
      invariant SumCounts(acc) == SumCounts(acc0) + i
      invariant DistinctKeys(acc0) ==> DistinctKeys(acc)
      invariant AllPositive(acc0) ==> AllPositive(acc)
    {
      BumpCounts(acc, ws[i]);
      BumpKeys(acc, ws[i]);
      acc := Bump(acc, ws[i]);
      assert ws[..i + 1] == ws[..i] + [ws[i]];
    }
    assert ws[..|ws|] == ws;
  }

  /** The lists one after another, in order. */
  function Flatten(lists: seq<seq<string>>): (r: seq<string>)
    decreases |lists|
  {
    if |lists| == 0 then [] else Flatten(lists[..|lists| - 1]) + lists[|lists| - 1]
  }

  /** `acc` counts the words `ws`: each key's count is its number of
      occurrences, the keys are exactly the words, each once, and every
      count is positive. */
  ghost predicate TallyOf(acc: seq<Tally>, ws: seq<string>) {
    && (forall w :: CountOf(acc, w) == multiset(ws)[w])
    && (forall w :: w in Keys(acc) <==> w in ws)
    && SumCounts(acc) == |ws|
    && DistinctKeys(acc) && AllPositive(acc)
  }

  /** Counting more words on top of a tally of `done` tallies `done + ws`. */
  lemma TallyExtends(before: seq<Tally>, after: seq<Tally>, done: seq<string>, ws: seq<string>)
    requires TallyOf(before, done)
    requires forall w :: CountOf(after, w) == CountOf(before, w) + multiset(ws)[w]
    requires forall w :: w in Keys(after) <==> w in Keys(before) || w in ws
    requires SumCounts(after) == SumCounts(before) + |ws|
    requires DistinctKeys(before) ==> DistinctKeys(after)
    requires AllPositive(before) ==> AllPositive(after)
    ensures TallyOf(after, done + ws)
  {
    assert multiset(done + ws) == multiset(done) + multiset(ws);
  }

  lemma FlattenStep(lists: seq<seq<string>>, i: nat)
    requires i < |lists|
    ensures Flatten(lists[..i + 1]) == Flatten(lists[..i]) + lists[i]
  {
    assert lists[..i + 1][..i] == lists[..i];
  }

  /** The nested reduction shared by the emotion and tag tables: every
      string of every list counted, keys distinct and in first-seen order. */
  method TallyLists(lists: seq<seq<string>>) returns (acc: seq<Tally>)
    ensures forall w :: CountOf(acc, w) == multiset(Flatten(lists))[w]
    ensures forall w :: w in Keys(acc) <==> w in Flatten(lists)
    ensures SumCounts(acc) == |Flatten(lists)|
    ensures DistinctKeys(acc) && AllPositive(acc)
  {
    acc := [];
    for i := 0 to |lists|
      invariant TallyOf(acc, Flatten(lists[..i]))
    {
      ghost var before := acc;
      acc := BumpAll(acc, lists[i]);
      TallyExtends(before, acc, Flatten(lists[..i]), lists[i]);
      FlattenStep(lists, i);
    }
    assert lists[..|lists|] == lists;
  }

  /** With distinct keys, each entry holds the count of its key. */
  lemma {:induction false} CountOfEntry(acc: seq<Tally>, k: nat)
    requires DistinctKeys(acc) && k < |acc|
    ensures CountOf(acc, acc[k].key) == acc[k].count
    decreases |acc|
  {
    if k > 0 {
      CountOfEntry(acc[1..], k - 1);
    }
  }

  // ---------------------------------------------------------------- emotions and tags

  /** `Object.entries(mention.emotions || {})`, keys only. */
  function EmotionKeys(m: Mention): seq<string> {
    m.emotions.GetOr([])
  }

  /** `mention.tags?.forEach`: no tags contribute nothing. */
  function TagList(m: Mention): seq<string> {
    m.tags.GetOr([])
  }

  function EmotionLists(ms: seq<Mention>): (r: seq<seq<string>>)
    ensures |r| == |ms|
    decreases |ms|
  {
    if |ms| == 0 then [] else EmotionLists(ms[..|ms| - 1]) + [EmotionKeys(ms[|ms| - 1])]
  }

  function TagLists(ms: seq<Mention>): (r: seq<seq<string>>)
    ensures |r| == |ms|
    decreases |ms|
  {
    if |ms| == 0 then [] else TagLists(ms[..|ms| - 1]) + [TagList(ms[|ms| - 1])]
  }

  /** `emotionData`: the count of each emotion key over all mentions. */
  method EmotionData(ms: seq<Mention>) returns (acc: seq<Tally>)
    ensures forall e :: CountOf(acc, e) == multiset(Flatten(EmotionLists(ms)))[e]
    ensures DistinctKeys(acc) && AllPositive(acc)
  {
    acc := TallyLists(EmotionLists(ms));
  }

  /** `tagData`: the count of each tag over all mentions, duplicates included. */
  method TagData(ms: seq<Mention>) returns (acc: seq<Tally>)
    ensures forall t :: CountOf(acc, t) == multiset(Flatten(TagLists(ms)))[t]
    ensures SumCounts(acc) == |Flatten(TagLists(ms))|
    ensures DistinctKeys(acc) && AllPositive(acc)
  {
    acc := TallyLists(TagLists(ms));
  }

  predicate HasEmotion(e: string, m: Mention) {
    e in EmotionKeys(m)
  }

  function MentionsWithEmotion(ms: seq<Mention>, e: string): seq<Mention> {
    Filter(ms, m => HasEmotion(e, m))
  }

  /** The keys of an object are distinct, so an emotion's count is the
      number of mentions whose emotions have that key. */
  lemma {:induction false} EmotionCountIsMentionCount(ms: seq<Mention>, e: string)
    requires forall k :: 0 <= k < |ms| ==> NoRepeats(EmotionKeys(ms[k]))
    ensures multiset(Flatten(EmotionLists(ms)))[e] == |MentionsWithEmotion(ms, e)|
    decreases |ms|
  {
    if |ms| > 0 {
      var init, last := ms[..|ms| - 1], ms[|ms| - 1];
      assert ms == init + [last];
      EmotionCountIsMentionCount(init, e);
      FilterAppend(init, [last], m => HasEmotion(e, m));
      assert EmotionLists(ms)[..|ms| - 1] == EmotionLists(init);
      DistinctOccurrence(EmotionKeys(last), e);
    }
  }

  lemma {:induction false} DistinctOccurrence(s: seq<string>, e: string)
    requires NoRepeats(s)
    ensures multiset(s)[e] == if e in s then 1 else 0
    decreases |s|
  {
    if |s| > 0 {
      assert s == [s[0]] + s[1..];
      DistinctOccurrence(s[1..], e);
    }
  }

  // ---------------------------------------------------------------- keywords

  predicate IsKeyword(w: string) {
    |w| > 4
  }

  /** Each mention's content in lower case, as `Lower` specifies it. */
  function LowerContents(ms: seq<Mention>): (r: seq<string>)
    ensures |r| == |ms|
    ensures forall k :: 0 <= k < |ms| ==> IsLower(r[k]) && SameIgnoringCase(r[k], ms[k].content)
  {
    seq(|ms|, k requires 0 <= k < |ms| => Lower(ms[k].content))
  }

  /** `mentions.map(m => m.content.toLowerCase()).join(" ").split(/\s+/)
      .filter(word => word.length > 4)`. The empty strings `split` yields at
      the ends are shorter than five and are dropped either way. */
  function KeywordTokens(ms: seq<Mention>): (r: seq<string>)
    ensures forall w :: w in r ==> IsLower(w) && NoSpace(w) && |w| > 4
  {
    LoweredWordsShape(ms);
    Filter(Words(Join(LowerContents(ms), " ")), IsKeyword)
  }

  /** The words of the joined lower-cased contents are lower-case and free
      of white space. */
  lemma LoweredWordsShape(ms: seq<Mention>)
    ensures forall w :: w in Words(Join(LowerContents(ms), " ")) ==> IsLower(w) && NoSpace(w)
  {
    var parts := LowerContents(ms);
    JoinOfLowerIsLower(parts, " ");
    var ws := Words(Join(parts, " "));
    WordsOfLowerAreLower(Join(parts, " "));
    forall w | w in ws ensures IsLower(w) && NoSpace(w) {
      var k :| 0 <= k < |ws| && ws[k] == w;
    }
  }

  /** `keywords`: the count of each keyword; the counts add up to the number
      of keyword tokens. */
  method Keywords(ms: seq<Mention>) returns (acc: seq<Tally>)
    ensures forall w :: CountOf(acc, w) == multiset(KeywordTokens(ms))[w]
    ensures forall w :: w in Keys(acc) <==> w in KeywordTokens(ms)
    ensures SumCounts(acc) == |KeywordTokens(ms)|
    ensures DistinctKeys(acc) && AllPositive(acc)
  {
    acc := BumpAll([], KeywordTokens(ms));
  }

  /** Every counted keyword is lower-case, free of white space and longer
      than four. */
  lemma KeywordKeysShape(ms: seq<Mention>, acc: seq<Tally>)
    requires forall w :: w in Keys(acc) <==> w in KeywordTokens(ms)
    ensures forall k :: 0 <= k < |acc| ==> IsLower(acc[k].key) && NoSpace(acc[k].key) && |acc[k].key| > 4
  {
    forall k | 0 <= k < |acc| ensures acc[k].key in KeywordTokens(ms) {
      assert Keys(acc)[k] == acc[k].key;
    }
  }

  // ---------------------------------------------------------------- charts

  /** Larger counts first. */
  function ByCountDescending(t: Tally): int {
    -(t.count as int)
  }

  /** `Object.entries(tagData).map(...).sort(by count, descending).slice(0, 10)`. */
  function TagChartData(tags: seq<Tally>): (r: seq<Tally>)
    ensures |r| <= 10
  {
    TopBy(TagBars(tags), ByCountDescending, 10)
  }

  function TagBars(tags: seq<Tally>): (r: seq<Tally>)
    ensures |r| == |tags|
    ensures forall k :: 0 <= k < |tags| ==> r[k] == Tally(TagLabel(tags[k].key), tags[k].count)
  {
    seq(|tags|, k requires 0 <= k < |tags| => Tally(TagLabel(tags[k].key), tags[k].count))
  }

  /** The bars have non-increasing counts, each is a labelled tag, and no tag
      left out has more mentions than a tag shown. */
  lemma TagChartSpec(tags: seq<Tally>)
    ensures var r := TagChartData(tags);
            && |r| == (if |tags| < 10 then |tags| else 10)
            && (forall i, j :: 0 <= i < j < |r| ==> r[i].count >= r[j].count)
            && multiset(r) <= multiset(TagBars(tags))
            && (forall x, y :: x in r && y in multiset(TagBars(tags)) - multiset(r) ==> x.count >= y.count)
  {
    TopBySorted(TagBars(tags), ByCountDescending, 10);
    TopByKeepsSmallest(TagBars(tags), ByCountDescending, 10);
    var r := TagChartData(tags);
    forall i, j | 0 <= i < j < |r| ensures r[i].count >= r[j].count {
      assert ByCountDescending(r[i]) <= ByCountDescending(r[j]);
    }
    forall x, y | x in r && y in multiset(TagBars(tags)) - multiset(r) ensures x.count >= y.count {
      assert ByCountDescending(x) <= ByCountDescending(y);
    }
  }

  /** `Object.entries(keywords).sort(by count, descending).slice(0, 20)`. */
  function TopKeywords(keywords: seq<Tally>): (r: seq<Tally>)
    ensures |r| <= 20
  {
    TopBy(keywords, ByCountDescending, 20)
  }

  /** At most twenty keywords, most frequent first, none left out more
      frequent than one kept. */
  lemma TopKeywordsSpec(keywords: seq<Tally>)
    ensures var r := TopKeywords(keywords);
            && |r| == (if |keywords| < 20 then |keywords| else 20)
            && (forall i, j :: 0 <= i < j < |r| ==> r[i].count >= r[j].count)
            && multiset(r) <= multiset(keywords)
            && (forall x, y :: x in r && y in multiset(keywords) - multiset(r) ==> x.count >= y.count)
  {
    TopBySorted(keywords, ByCountDescending, 20);
    TopByKeepsSmallest(keywords, ByCountDescending, 20);
    var r := TopKeywords(keywords);
    forall i, j | 0 <= i < j < |r| ensures r[i].count >= r[j].count {
      assert ByCountDescending(r[i]) <= ByCountDescending(r[j]);
    }
    forall x, y | x in r && y in multiset(keywords) - multiset(r) ensures x.count >= y.count {
      assert ByCountDescending(x) <= ByCountDescending(y);
    }
  }

  // ---------------------------------------------------------------- labels

  /** `s.charAt(0).toUpperCase() + s.slice(1)`: the first character in
      upper case, the rest as it was. */
  function CapitalizeFirst(s: string): (r: string)
    ensures |r| == |s|
    ensures |s| > 0 ==> r[0] == UpperChar(s[0]) && r[1..] == s[1..]
  {
    if |s| == 0 then "" else [UpperChar(s[0])] + s[1..]
  }

  /** Capitalising gives the same text ignoring case, changes only the first
      character, leaves no lower-case letter there, and is idempotent. */
  lemma CapitalizeFirstSpec(s: string)
    ensures SameIgnoringCase(CapitalizeFirst(s), s)
    ensures |s| > 0 ==> CapitalizeFirst(s)[1..] == s[1..]
    ensures |s| > 0 ==> !('a' <= CapitalizeFirst(s)[0] <= 'z')
    ensures CapitalizeFirst(CapitalizeFirst(s)) == CapitalizeFirst(s)
  {
  }

  /** The regular-expression class `\w` (ASCII letters, digits, underscore). */
  predicate IsWordChar(c: char) {
    ('a' <= c <= 'z') || ('A' <= c <= 'Z') || ('0' <= c <= '9') || c == '_'
  }

  /** `s.replace(/_/g, " ")`: no underscore is left, the spaces of the
      result are the spaces and underscores of `s`, and every other character
      stays. */
  function UnderscoresToSpaces(s: string): (r: string)
    ensures |r| == |s|
    ensures forall i :: 0 <= i < |r| ==> r[i] != '_'
    ensures forall i :: 0 <= i < |s| ==> (r[i] == ' ' <==> s[i] == ' ' || s[i] == '_')
    ensures forall i :: 0 <= i < |s| && s[i] != '_' ==> r[i] == s[i]
  {
    seq(|s|, i requires 0 <= i < |s| => if s[i] == '_' then ' ' else s[i])
  }

  /** Position `i` starts a word: `\b\w` matches there. */
  predicate WordStart(s: string, i: nat)
    requires i < |s|
  {
    IsWordChar(s[i]) && (i == 0 || !IsWordChar(s[i - 1]))
  }

  /** `s.replace(/\b\w/g, l => l.toUpperCase())`: the same text ignoring
      case, with the same word starts, none of them a lower-case letter, and
      every character that does not start a word unchanged. */
  function TitleCase(s: string): (r: string)
    ensures SameIgnoringCase(r, s)
    ensures forall i :: 0 <= i < |s| ==> WordStart(r, i) == WordStart(s, i)
    ensures forall i :: 0 <= i < |r| && WordStart(r, i) ==> !('a' <= r[i] <= 'z')
    ensures forall i :: 0 <= i < |s| && !WordStart(s, i) ==> r[i] == s[i]
  {
    seq(|s|, i requires 0 <= i < |s| => if WordStart(s, i) then UpperChar(s[i]) else s[i])
  }

  /** The label of a tag in the chart: the tag with its underscores turned
      into spaces, ignoring case; no underscore (each became a space), no word
      starting with a lower-case letter, and every other character of the tag
      as it was. */
  function TagLabel(tag: string): (r: string)
    ensures |r| == |tag|
    ensures SameIgnoringCase(r, UnderscoresToSpaces(tag))
    ensures forall i :: 0 <= i < |r| ==> r[i] != '_'
    ensures forall i :: 0 <= i < |tag| && tag[i] == '_' ==> r[i] == ' '
    ensures forall i :: 0 <= i < |r| && WordStart(r, i) ==> !('a' <= r[i] <= 'z')
    ensures forall i :: 0 <= i < |r| && tag[i] != '_' && !WordStart(r, i) ==> r[i] == tag[i]
  {
    var u := UnderscoresToSpaces(tag);
    var r := TitleCase(u);
    TagLabelChars(tag, u, r);
    r
  }

  lemma TagLabelChars(tag: string, u: string, r: string)
    requires u == UnderscoresToSpaces(tag) && r == TitleCase(u)
    ensures forall i :: 0 <= i < |r| ==> r[i] != '_'
    ensures forall i :: 0 <= i < |tag| && tag[i] == '_' ==> r[i] == ' '
  {
    forall i | 0 <= i < |r| ensures r[i] != '_' && (tag[i] == '_' ==> r[i] == ' ') {
      assert UpperChar(r[i]) == UpperChar(u[i]);
      if tag[i] == '_' {
        assert !WordStart(u, i);
      }
    }
  }

  /** Formatting a label again changes nothing. */
  lemma TagLabelIdempotent(tag: string)
    ensures TagLabel(TagLabel(tag)) == TagLabel(tag)
  {
    var r := TagLabel(tag);
    var u := UnderscoresToSpaces(r);
    assert u == r;
    var t := TitleCase(r);
    forall i | 0 <= i < |r| ensures t[i] == r[i] {
      if WordStart(r, i) {
        assert UpperChar(t[i]) == UpperChar(r[i]);
      }
    }
  }

  lemma TagLabelExample()
    ensures TagLabel("feature_request") == "Feature Request"
  {
    var u := UnderscoresToSpaces("feature_request");
    assert u == "feature request";
    TitleCaseExample();
  }

  lemma TitleCaseExample()
    ensures TitleCase("feature request") == "Feature Request"
  {
    var u := "feature request";
    assert WordStart(u, 0) && WordStart(u, 8);
    ExampleWordStarts();
    var r := TitleCase(u);
    assert r[0] == 'F' && r[8] == 'R';
  }

  /** "feature request" has no word start other than positions 0 and 8. */
  lemma ExampleWordStarts()
    ensures forall i :: 0 <= i < 15 && i != 0 && i != 8 ==> !WordStart("feature request", i)
  {
  }

  /** `Math.min(32, 12 + count * 2)`: the font size of a keyword badge. */
  function BadgeSize(count: nat): (size: nat)
    ensures 12 <= size <= 32
    ensures count >= 1 ==> size >= 14
    ensures count <= 10 ==> size == 12 + 2 * count
  {
    if 12 + 2 * count < 32 then 12 + 2 * count else 32
  }

  /** More frequent keywords never get smaller badges. */
  lemma BadgeSizeMonotone(a: nat, b: nat)
    requires a <= b
    ensures BadgeSize(a) <= BadgeSize(b)
  {
  }
}
