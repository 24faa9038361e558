/** The Alerts page: the negative mentions, sorted in place by a fixed
    severity rank when the page renders, and removed locally when the team
    acknowledges them. */
module Alerts {
  import opened Wrappers
  import opened Seqs
  import opened Mentions

  const AcknowledgedMessage: string := "Alert acknowledged"

  /** The comparator's table `{ critical: 0, high: 1, medium: 2, low: 3 }`. */
  function Rank(s: Severity): (r: nat)
    ensures r <= 3
    ensures r == 0 <==> s == Critical
    ensures r == 3 <==> s == Low
  {
    match s
    case Critical => 0
    case High => 1
    case Medium => 2
    case Low => 3
  }

  /** Distinct severities have distinct ranks, most urgent first. */
  lemma RankOrder()
    ensures Rank(Critical) < Rank(High) < Rank(Medium) < Rank(Low)
    ensures forall s, t :: Rank(s) == Rank(t) ==> s == t
  {
  }

  /** The sort key of an alert. A missing severity is not in the table; the
      page cannot render such an alert, so the sort requires known
      severities and the value 4 is never compared. */
  function AlertRank(m: Mention): (r: int)
    ensures 0 <= r <= 4
    ensures r == 4 <==> m.severity.None?
    ensures m.severity.Some? ==> r == Rank(m.severity.value)
  {
    match m.severity
    case Some(s) => Rank(s)
    case None => 4
  }

  predicate KnownSeverities(s: seq<Mention>) {
    forall k :: 0 <= k < |s| ==> s[k].severity.Some?
  }

  /** `alerts.sort(...)`, in place: the stable sort by rank. */
  method SortBySeverity(a: array<Mention>)
    requires KnownSeverities(a[..])
    modifies a
    ensures a[..] == SortBy(old(a[..]), AlertRank)
  {
    ghost var s := a[..];
    var i := 0;
    while i < a.Length
      invariant 0 <= i <= a.Length
      invariant a[..i] == SortBy(s[..i], AlertRank)
      invariant forall k :: i <= k < a.Length ==> a[k] == s[k]
    {
      InsertLast(a, i);
      SortByPrefixStep(s, i, AlertRank);
      i := i + 1;
    }
    assert a[..] == a[..a.Length];
    assert s[..a.Length] == s;
  }

  /** One pass of the sort: `a[i]` moves down past the larger ranks before it. */
  method InsertLast(a: array<Mention>, i: nat)
    requires i < a.Length
    modifies a
    ensures a[..i + 1] == Insert(old(a[..i]), old(a[i]), AlertRank)
    ensures forall k :: i < k < a.Length ==> a[k] == old(a[k])
  {
    var x := a[i];
    ghost var sorted := a[..i];
    var j := ShiftLarger(a, i, AlertRank(x));
    a[j] := x;
    InsertAt(sorted, x, AlertRank, j);
    ShiftedIsInserted(a[..i + 1], sorted, x, j);
  }

  /** The inner loop: the run of ranks above `rank` that ends `a[..i]` moves
      one place up, leaving a gap at `j`. */
  method ShiftLarger(a: array<Mention>, i: nat, rank: int) returns (j: nat)
    requires i < a.Length
    modifies a
    ensures j <= i
    ensures j == 0 || AlertRank(old(a[j - 1])) <= rank
    ensures forall k :: 0 <= k < j ==> a[k] == old(a[k])
    ensures forall k :: j < k <= i ==> a[k] == old(a[k - 1])
    ensures forall k :: i < k < a.Length ==> a[k] == old(a[k])
    ensures forall k :: j <= k < i ==> rank < AlertRank(old(a[k]))
  {
    ghost var before := a[..];
    j := i;
    while j > 0 && AlertRank(a[j - 1]) > rank
      invariant 0 <= j <= i
      invariant forall k :: 0 <= k < j ==> a[k] == before[k]
      invariant forall k :: j < k <= i ==> a[k] == before[k - 1]
      invariant forall k :: i < k < a.Length ==> a[k] == before[k]
      invariant forall k :: j <= k < i ==> rank < AlertRank(before[k])
    {
      a[j] := a[j - 1];
      j := j - 1;
    }
  }

  /** A sequence that agrees with `sorted` before `j`, holds `x` at `j` and
      `sorted` shifted one place after it is `x` inserted at `j`. */
  lemma ShiftedIsInserted(cur: seq<Mention>, sorted: seq<Mention>, x: Mention, j: nat)
    requires j <= |sorted| && |cur| == |sorted| + 1
    requires forall k :: 0 <= k < j ==> cur[k] == sorted[k]
    requires cur[j] == x
    requires forall k :: j < k < |cur| ==> cur[k] == sorted[k - 1]
    ensures cur == sorted[..j] + [x] + sorted[j..]
  {
    var inserted := sorted[..j] + [x] + sorted[j..];
    forall k | 0 <= k < |cur| ensures cur[k] == inserted[k] {
      if k < j {
        assert inserted[k] == sorted[k];
      } else if k > j {
        assert inserted[k] == sorted[k - 1];
      }
    }
  }

  /** After the sort, ranks never decrease, nothing is lost or duplicated,
      and alerts of equal severity keep the order they were fetched in. */
  lemma SortedAlerts(s: seq<Mention>, sev: Severity)
    ensures SortedBy(SortBy(s, AlertRank), AlertRank)
    ensures multiset(SortBy(s, AlertRank)) == multiset(s)
    ensures Filter(SortBy(s, AlertRank), KeyIs(AlertRank, Rank(sev))) == Filter(s, KeyIs(AlertRank, Rank(sev)))
  {
    SortBySpec(s, AlertRank);
    SortByIsStable(s, AlertRank, Rank(sev));
  }

  function WithSeverity(id: string, sev: Severity): Mention {
    Mention(id, "", "", "", 0, NegativeLabel, 0.0, None, None, None, Some(sev), false)
  }

  /** [low, critical, medium, high] sorts to [critical, high, medium, low]. */
  lemma SortExample()
    ensures SortBy([WithSeverity("a", Low), WithSeverity("b", Critical), WithSeverity("c", Medium),
                    WithSeverity("d", High)], AlertRank)
         == [WithSeverity("b", Critical), WithSeverity("d", High), WithSeverity("c", Medium),
             WithSeverity("a", Low)]
  {
    SortFour(WithSeverity("a", Low), WithSeverity("b", Critical), WithSeverity("c", Medium),
             WithSeverity("d", High));
  }

  /** Four alerts, one of each severity, in the order low, critical, medium,
      high; the sort is built up one insertion at a time. */
  lemma SortFour(a: Mention, b: Mention, c: Mention, d: Mention)
    requires a.severity == Some(Low) && b.severity == Some(Critical)
    requires c.severity == Some(Medium) && d.severity == Some(High)
    ensures SortBy([a, b, c, d], AlertRank) == [b, d, c, a]
  {
    SortThree(a, b, c);
    var s := [a, b, c, d];
    SortByPrefixStep(s, 3, AlertRank);
    assert s[..3] == [a, b, c] && s[..4] == s;
    assert [b, c, a][..2] == [b, c] && [b, c][..1] == [b];
    assert Insert([b, c, a], d, AlertRank) == Insert([b, c], d, AlertRank) + [a];
    assert Insert([b, c], d, AlertRank) == Insert([b], d, AlertRank) + [c];
  }

  lemma SortThree(a: Mention, b: Mention, c: Mention)
    requires a.severity == Some(Low) && b.severity == Some(Critical) && c.severity == Some(Medium)
    ensures SortBy([a, b, c], AlertRank) == [b, c, a]
  {
    SortTwo(a, b);
    var s := [a, b, c];
    SortByPrefixStep(s, 2, AlertRank);
    assert s[..2] == [a, b] && s[..3] == s;
    assert [b, a][..1] == [b];
    assert Insert([b, a], c, AlertRank) == Insert([b], c, AlertRank) + [a];
  }

  lemma SortTwo(a: Mention, b: Mention)
    requires a.severity == Some(Low) && b.severity == Some(Critical)
    ensures SortBy([a, b], AlertRank) == [b, a]
  {
    var s := [a, b];
    SortByPrefixStep(s, 0, AlertRank);
    SortByPrefixStep(s, 1, AlertRank);
    assert s[..0] == [] && s[..1] == [a] && s[..2] == s;
  }

  // ---------------------------------------------------------------- fetch

  /** The store query `.in("sentiment", ["negative"])`: the negative mentions
      of the table, in the order the server returns them. */
  function AlertQuery(table: seq<Mention>): (r: seq<Mention>)
    ensures IsSubsequence(r, table)
  {
    FilterIsSubsequence(table, (m: Mention) => m.sentiment == NegativeLabel);
    Filter(table, (m: Mention) => m.sentiment == NegativeLabel)
  }

  /** Every fetched alert is negative, and every negative mention is fetched,
      acknowledged (`team_approved`) or not. */
  lemma AlertQueryMembership(table: seq<Mention>, m: Mention)
    ensures m in AlertQuery(table) <==> m in table && m.sentiment == NegativeLabel
    ensures m in table && m.sentiment == NegativeLabel && m.teamApproved ==> m in AlertQuery(table)
  {
    FilterMembership(table, (m': Mention) => m'.sentiment == NegativeLabel, m);
  }

  // ---------------------------------------------------------------- acknowledge

  /** `prev.filter(a => a.id !== id)`. */
  function RemoveById(s: seq<Mention>, id: string): (r: seq<Mention>)
    ensures |r| <= |s|
    ensures forall m :: m in r ==> m in s && m.id != id
  {
    Filter(s, (m: Mention) => m.id != id)
  }

  /** Acknowledging removes every alert with the id and keeps all others, in
      their relative order. */
  lemma RemoveByIdSpec(s: seq<Mention>, id: string)
    ensures IsSubsequence(RemoveById(s, id), s)
    ensures forall m :: m in RemoveById(s, id) <==> m in s && m.id != id
    ensures Count(s, (m: Mention) => m.id == id) + |RemoveById(s, id)| == |s|
  {
    FilterIsSubsequence(s, (m: Mention) => m.id != id);
    forall m ensures m in RemoveById(s, id) <==> m in s && m.id != id {
      FilterMembership(s, (m': Mention) => m'.id != id, m);
    }
    CountSplit(s, (m: Mention) => m.id == id, (m: Mention) => m.id != id);
  }

  /** Acknowledging an id that is not listed changes nothing. */
  lemma RemoveAbsentId(s: seq<Mention>, id: string)
    requires forall k :: 0 <= k < |s| ==> s[k].id != id
    ensures RemoveById(s, id) == s
  {
    FilterKeepsAll(s, (m: Mention) => m.id != id);
  }

  class AlertsPage {
    var alerts: array<Mention>
    var autoAlerts: bool

    constructor()
      ensures alerts.Length == 0 && autoAlerts
    {
      alerts := new Mention[0];
      autoAlerts := true;
    }

    /** `fetchAlerts`: the list becomes the query's rows, or [] for no data. */
    method FetchAlerts(table: Option<seq<Mention>>)
      modifies this
      ensures fresh(alerts)
      ensures alerts[..] == AlertQuery(table.GetOr([]))
      ensures autoAlerts == old(autoAlerts)
    {
      var rows := AlertQuery(table.GetOr([]));
      alerts := new Mention[|rows|](k requires 0 <= k < |rows| => rows[k]);
    }

    /** What a render does to the state array before listing it. */
    method Render()
      requires KnownSeverities(alerts[..])
      modifies alerts
      ensures alerts[..] == SortBy(old(alerts[..]), AlertRank)
    {
      SortBySeverity(alerts);
    }

    /** `acknowledgeAlert`: the update's outcome is never looked at; the
        success toast shows and the alert leaves the local list either way. */
    method AcknowledgeAlert(id: string, update: Result<()>) returns (toast: Toast)
      modifies this
      ensures fresh(alerts)
      ensures alerts[..] == RemoveById(old(alerts[..]), id)
      ensures toast == SuccessToast(AcknowledgedMessage)
      ensures autoAlerts == old(autoAlerts)
    {
      var rest := RemoveById(alerts[..], id);
      alerts := new Mention[|rest|](k requires 0 <= k < |rest| => rest[k]);
      toast := SuccessToast(AcknowledgedMessage);
    }
  }
}
