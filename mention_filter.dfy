/** The filter effect shared by the Live Feed page and the dashboard: a
    case-insensitive search over content and author, an exact sentiment match
    and an exact source match, each switched off by its neutral value. */
module MentionFilter {
  import opened Text
  import opened Seqs
  import opened Mentions

  /** The select value that switches a sentiment or source filter off. */
  const AllValue: string := "all"

  /** The three filter inputs of a page. */
  datatype Filters = Filters(searchQuery: string, sentimentFilter: string, sourceFilter: string)

  /** The state both pages start with. */
  const InitialFilters := Filters("", AllValue, AllValue)

  /** The lower-cased query occurs in the lower-cased content or user name.
      The empty query matches every mention. */
  predicate MatchesSearch(query: string, m: Mention)
    ensures query == "" ==> MatchesSearch(query, m)
  {
    Contains(Lower(m.content), Lower(query)) || Contains(Lower(m.userName), Lower(query))
  }

  /** The three stages of the effect, each true of everything when switched off. */
  datatype Stage = Search | SentimentStage | SourceStage

  predicate Passes(f: Filters, stage: Stage, m: Mention) {
    match stage
    case Search => f.searchQuery == "" || MatchesSearch(f.searchQuery, m)
    case SentimentStage => f.sentimentFilter == AllValue || m.sentiment == f.sentimentFilter
    case SourceStage => f.sourceFilter == AllValue || m.source == f.sourceFilter
  }

  /** A mention is shown when it passes every active predicate. */
  predicate Shown(f: Filters, m: Mention) {
    Passes(f, Search, m) && Passes(f, SentimentStage, m) && Passes(f, SourceStage, m)
  }

  /** The list a page shows: the mentions that pass all three stages, in the
      order the store returned them. */
  function Visible(ms: seq<Mention>, f: Filters): (r: seq<Mention>)
    ensures |r| <= |ms|
    ensures forall m :: m in r ==> m in ms && Shown(f, m)
  {
    Filter(ms, m => Shown(f, m))
  }

  /** The effect as written: `filtered` starts as the whole list and each
      active stage replaces it with `filtered.filter(...)`. */
  method ApplyFilters(mentions: seq<Mention>, f: Filters) returns (filtered: seq<Mention>)
    ensures filtered == Visible(mentions, f)
  {
    filtered := mentions;
    if f.searchQuery != "" {
      filtered := Filter(filtered, m => MatchesSearch(f.searchQuery, m));
    }
    StageStep(mentions, f, Search, filtered);
    ghost var afterSearch := filtered;
    if f.sentimentFilter != AllValue {
      filtered := Filter(filtered, (m: Mention) => m.sentiment == f.sentimentFilter);
    }
    StageStep(afterSearch, f, SentimentStage, filtered);
    ghost var afterSentiment := filtered;
    if f.sourceFilter != AllValue {
      filtered := Filter(filtered, (m: Mention) => m.source == f.sourceFilter);
    }
    StageStep(afterSentiment, f, SourceStage, filtered);
    StagesInOrder(mentions, f);
  }

  /** `ApplyStages(ms, f, order)` runs the stages in the given order. */
  function ApplyStages(ms: seq<Mention>, f: Filters, order: seq<Stage>): seq<Mention>
    decreases |order|
  {
    if |order| == 0 then ms
    else ApplyStages(StageFilter(ms, f, order[0]), f, order[1..])
  }

  function StageFilter(ms: seq<Mention>, f: Filters, stage: Stage): seq<Mention> {
    Filter(ms, m => Passes(f, stage, m))
  }

  /** Whatever one step of the effect does, its result is the stage's filter. */
  lemma StageStep(before: seq<Mention>, f: Filters, stage: Stage, after: seq<Mention>)
    requires stage == Search ==>
      after == if f.searchQuery != "" then Filter(before, m => MatchesSearch(f.searchQuery, m)) else before
    requires stage == SentimentStage ==>
      after == if f.sentimentFilter != AllValue then Filter(before, (m: Mention) => m.sentiment == f.sentimentFilter) else before
    requires stage == SourceStage ==>
      after == if f.sourceFilter != AllValue then Filter(before, (m: Mention) => m.source == f.sourceFilter) else before
    ensures after == Filter(before, m => Passes(f, stage, m))
  {
    var p := m => Passes(f, stage, m);
    match stage
    case Search =>
      if f.searchQuery != "" {
        FilterSamePredicate(before, m => MatchesSearch(f.searchQuery, m), p);
      } else {
        FilterKeepsAll(before, p);
      }
    case SentimentStage =>
      if f.sentimentFilter != AllValue {
        FilterSamePredicate(before, (m: Mention) => m.sentiment == f.sentimentFilter, p);
      } else {
        FilterKeepsAll(before, p);
      }
    case SourceStage =>
      if f.sourceFilter != AllValue {
        FilterSamePredicate(before, (m: Mention) => m.source == f.sourceFilter, p);
      } else {
        FilterKeepsAll(before, p);
      }
  }

  /** The effect's own order: search, then sentiment, then source. */
  lemma StagesInOrder(ms: seq<Mention>, f: Filters)
    ensures Filter(Filter(Filter(ms, m => Passes(f, Search, m)), m => Passes(f, SentimentStage, m)),
                   m => Passes(f, SourceStage, m))
            == Visible(ms, f)
  {
    AnyOrderGivesVisible(ms, f, [Search, SentimentStage, SourceStage]);
  }

  /** Running the stages in any order that includes all three (repeats
      allowed) shows the same list, in the same order. */
  lemma AnyOrderGivesVisible(ms: seq<Mention>, f: Filters, order: seq<Stage>)
    requires Search in order && SentimentStage in order && SourceStage in order
    ensures ApplyStages(ms, f, order) == Visible(ms, f)
  {
    StagesConjoin(ms, f, order);
    forall k | 0 <= k < |ms| ensures PassesAll(f, order, ms[k]) == Shown(f, ms[k]) {
      PassesAllMeansEach(f, order, ms[k]);
    }
    FilterSamePredicate(ms, m => PassesAll(f, order, m), m => Shown(f, m));
  }

  /** `m` passes every stage listed in `order`. */
  predicate PassesAll(f: Filters, order: seq<Stage>, m: Mention)
    decreases |order|
  {
    |order| == 0 || (Passes(f, order[0], m) && PassesAll(f, order[1..], m))
  }

  lemma {:induction false} PassesAllMeansEach(f: Filters, order: seq<Stage>, m: Mention)
    ensures PassesAll(f, order, m) <==> forall st :: st in order ==> Passes(f, st, m)
    decreases |order|
  {
    if |order| > 0 {
      PassesAllMeansEach(f, order[1..], m);
      assert order == [order[0]] + order[1..];
    }
  }

  lemma {:induction false} StagesConjoin(ms: seq<Mention>, f: Filters, order: seq<Stage>)
    ensures ApplyStages(ms, f, order) == Filter(ms, m => PassesAll(f, order, m))
    decreases |order|
  {
    if |order| == 0 {
      FilterKeepsAll(ms, m => PassesAll(f, order, m));
    } else {
      var first := m => Passes(f, order[0], m);
      var rest := m => PassesAll(f, order[1..], m);
      var all := m => PassesAll(f, order, m);
      forall k | 0 <= k < |ms| ensures (first(ms[k]) && rest(ms[k])) == all(ms[k]) { }
      calc {
        ApplyStages(ms, f, order);
        ApplyStages(StageFilter(ms, f, order[0]), f, order[1..]);
        { StagesConjoin(StageFilter(ms, f, order[0]), f, order[1..]); }
        Filter(Filter(ms, first), rest);
        { FilterTwice(ms, first, rest, all); }
        Filter(ms, all);
      }
    }
  }

  /** The shown list is the stored list with some mentions left out and the
      rest in their stored order. */
  lemma VisibleIsSubsequence(ms: seq<Mention>, f: Filters)
    ensures IsSubsequence(Visible(ms, f), ms)
  {
    FilterIsSubsequence(ms, m => Shown(f, m));
  }

  /** A mention is shown exactly when it is stored and passes each active
      predicate: the search (case-insensitively, on content or user name), the
      sentiment and the source. */
  lemma VisibleMembership(ms: seq<Mention>, f: Filters, m: Mention)
    ensures m in Visible(ms, f) <==>
      && m in ms
      && (f.searchQuery == "" || Contains(Lower(m.content), Lower(f.searchQuery))
                              || Contains(Lower(m.userName), Lower(f.searchQuery)))
      && (f.sentimentFilter == AllValue || m.sentiment == f.sentimentFilter)
      && (f.sourceFilter == AllValue || m.source == f.sourceFilter)
  {
    FilterMembership(ms, m' => Shown(f, m'), m);
  }

  /** The search ignores case: two queries that spell the same text ignoring
      case match the same mentions. */
  lemma SearchIgnoresCase(q1: string, q2: string, m: Mention)
    requires SameIgnoringCase(q1, q2)
    ensures MatchesSearch(q1, m) <==> MatchesSearch(q2, m)
  {
    var l := Lower(q1);
    assert SameIgnoringCase(l, q2) by {
      forall i | 0 <= i < |l| ensures UpperChar(l[i]) == UpperChar(q2[i]) {
        assert UpperChar(l[i]) == UpperChar(q1[i]);
      }
    }
    LowerUnique(q2, l);
  }

  /** With the initial filter state every stored mention is shown. */
  lemma InitialFiltersShowAll(ms: seq<Mention>)
    ensures Visible(ms, InitialFilters) == ms
  {
    FilterKeepsAll(ms, m => Shown(InitialFilters, m));
  }

  /** Re-running the effect on its own output changes nothing. */
  lemma VisibleIdempotent(ms: seq<Mention>, f: Filters)
    ensures Visible(Visible(ms, f), f) == Visible(ms, f)
  {
    FilterIdempotent(ms, m => Shown(f, m));
  }
}
