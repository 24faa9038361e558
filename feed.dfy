/** The Live Feed page: the fetched mentions and the filtered list the filter
    effect derives from them and the three filter inputs. */
module Feed {
  import opened Wrappers
  import opened Mentions
  import opened MentionFilter
  import opened Seqs

  class FeedPage {
    var mentions: seq<Mention>
    var filteredMentions: seq<Mention>
    var searchQuery: string
    var sentimentFilter: string
    var sourceFilter: string

    function CurrentFilters(): Filters
      reads this
    {
      Filters(searchQuery, sentimentFilter, sourceFilter)
    }

    /** The shown list is what the filter effect computes from the state. */
    predicate Settled()
      reads this
    {
      filteredMentions == Visible(mentions, CurrentFilters())
    }

    /** The page mounts with no mentions, an empty query and both selects on "all". */
    constructor()
      ensures mentions == [] && filteredMentions == []
      ensures CurrentFilters() == InitialFilters
      ensures Settled()
    {
      mentions := [];
      filteredMentions := [];
      searchQuery := "";
      sentimentFilter := AllValue;
      sourceFilter := AllValue;
    }

    /** `fetchMentions`: both lists become the fetched rows, or [] when the
        query returned no data. The filter inputs are untouched, so with the
        initial filters the page is already settled. */
    method FetchMentions(data: Option<seq<Mention>>)
      modifies this
      ensures mentions == (if data.Some? then data.value else [])
      ensures filteredMentions == mentions
      ensures CurrentFilters() == old(CurrentFilters())
      ensures CurrentFilters() == InitialFilters ==> Settled()
    {
      mentions := data.GetOr([]);
      filteredMentions := data.GetOr([]);
      if CurrentFilters() == InitialFilters {
        InitialFiltersShowAll(mentions);
      }
    }

    /** The filter effect, run whenever the mentions or a filter input change. */
    method FilterEffect()
      modifies this
      ensures Settled()
      ensures mentions == old(mentions) && CurrentFilters() == old(CurrentFilters())
    {
      filteredMentions := ApplyFilters(mentions, CurrentFilters());
    }

    /** The user edits the search box or one of the selects; the effect reruns. */
    method ChangeFilters(f: Filters)
      modifies this
      ensures CurrentFilters() == f && mentions == old(mentions)
      ensures Settled()
    {
      searchQuery, sentimentFilter, sourceFilter := f.searchQuery, f.sentimentFilter, f.sourceFilter;
      FilterEffect();
    }

    /** A fetch (on mount or on a realtime change) followed by the effect the
        new mentions trigger: the page shows exactly the fetched rows that
        pass the filters, in fetched order. */
    method Refresh(data: seq<Mention>)
      modifies this
      ensures mentions == data && CurrentFilters() == old(CurrentFilters())
      ensures IsSubsequence(filteredMentions, data)
      ensures forall m :: m in filteredMentions <==> m in data && Shown(CurrentFilters(), m)
    {
      FetchMentions(Some(data));
      FilterEffect();
      var f := CurrentFilters();
      VisibleIsSubsequence(data, f);
      forall m ensures m in filteredMentions <==> m in data && Shown(f, m) {
        FilterMembership(data, m' => Shown(f, m'), m);
      }
    }
  }
}
