/** The dashboard component: the same fetched and filtered lists as the Live
    Feed, plus a button that analyses a canned post and inserts it. */
module Dashboard {
  import opened Wrappers
  import opened Mentions
  import opened MentionFilter
  import opened Seqs
  import AnalyzeSentiment

  const LoadFailedMessage: string := "Failed to load mentions"
  const AddFailedMessage: string := "Failed to add mention"
  const AddedMessage: string := "New mention added!"

  /** `error.message || "Failed to add mention"`. */
  function FailureText(message: string): (r: string)
    ensures r != ""
    ensures message != "" ==> r == message
  {
    if message != "" then message else AddFailedMessage
  }

  class DashboardPage {
    var mentions: seq<Mention>
    var filteredMentions: seq<Mention>
    var loading: bool
    var searchQuery: string
    var sentimentFilter: string
    var sourceFilter: string
    /** Every value `loading` has been set to, oldest first. */
    ghost var loadingHistory: seq<bool>

    function CurrentFilters(): Filters
      reads this
    {
      Filters(searchQuery, sentimentFilter, sourceFilter)
    }

    predicate Settled()
      reads this
    {
      filteredMentions == Visible(mentions, CurrentFilters())
    }

    constructor()
      ensures mentions == [] && filteredMentions == [] && !loading && loadingHistory == []
      ensures CurrentFilters() == InitialFilters
      ensures Settled()
    {
      mentions := [];
      filteredMentions := [];
      loading := false;
      searchQuery := "";
      sentimentFilter := AllValue;
      sourceFilter := AllValue;
      loadingHistory := [];
    }

    /** `fetchMentions`: on success both lists become the rows (or [] for no
        data); on a store error neither list changes and an error toast shows. */
    method FetchMentions(outcome: Result<Option<seq<Mention>>>) returns (toast: Option<Toast>)
      modifies this
      ensures outcome.Ok? ==> mentions == (if outcome.value.Some? then outcome.value.value else [])
                              && filteredMentions == mentions && toast == None
      ensures outcome.Err? ==> mentions == old(mentions) && filteredMentions == old(filteredMentions)
                               && toast == Some(ErrorToast(LoadFailedMessage))
      ensures CurrentFilters() == old(CurrentFilters())
      ensures loading == old(loading) && loadingHistory == old(loadingHistory)
      ensures outcome.Err? && old(Settled()) ==> Settled()
      ensures outcome.Ok? && CurrentFilters() == InitialFilters ==> Settled()
    {
      match outcome
      case Err(_) =>
        toast := Some(ErrorToast(LoadFailedMessage));
      case Ok(data) =>
        mentions := data.GetOr([]);
        filteredMentions := data.GetOr([]);
        toast := None;
        if CurrentFilters() == InitialFilters {
          InitialFiltersShowAll(mentions);
        }
    }

    /** The filter effect, identical to the Live Feed's. */
    method FilterEffect()
      modifies this
      ensures Settled()
      ensures mentions == old(mentions) && CurrentFilters() == old(CurrentFilters())
      ensures loading == old(loading) && loadingHistory == old(loadingHistory)
    {
      filteredMentions := ApplyFilters(mentions, CurrentFilters());
    }

    /** The user edits the search box or one of the selects; the effect reruns. */
    method ChangeFilters(f: Filters)
      modifies this
      ensures CurrentFilters() == f && mentions == old(mentions)
      ensures Settled()
      ensures loading == old(loading) && loadingHistory == old(loadingHistory)
    {
      searchQuery, sentimentFilter, sourceFilter := f.searchQuery, f.sentimentFilter, f.sourceFilter;
      FilterEffect();
    }

    /** `simulateMention`: analyse `sample` and insert the result. The record
        sent to the store (if any) is returned with the toast shown. No record
        is sent when the analysis call failed; the record copies the post and
        the analysis and leaves emotions, tags and severity to the store. The
        lists are left to the realtime refetch, and `loading` goes up and then
        down whatever happens. */
    method SimulateMention(sample: Sample, analysis: Result<AnalyzeSentiment.Analysis>, insert: Result<()>)
      returns (sent: Option<NewMention>, toast: Toast)
      modifies this
      ensures loadingHistory == old(loadingHistory) + [true, false] && !loading
      ensures sent.Some? <==> analysis.Ok?
      ensures sent.Some? ==>
        && sent.value.content == sample.content
        && sent.value.source == sample.source
        && sent.value.userName == sample.userName
        && sent.value.sentiment == analysis.value.sentiment
        && sent.value.sentimentScore == analysis.value.sentimentScore
        && sent.value.suggestedResponse == analysis.value.suggestedResponse
        && sent.value.emotions.None? && sent.value.tags.None? && sent.value.severity.None?
      ensures toast.SuccessToast? <==> analysis.Ok? && insert.Ok?
      ensures toast.SuccessToast? ==> toast.text == AddedMessage
      ensures analysis.Err? ==> toast == ErrorToast(FailureText(analysis.message))
      ensures analysis.Ok? && insert.Err? ==> toast == ErrorToast(FailureText(insert.message))
      ensures mentions == old(mentions) && filteredMentions == old(filteredMentions)
      ensures CurrentFilters() == old(CurrentFilters())
    {
      loading := true;
      loadingHistory := loadingHistory + [true];
      match analysis {
        case Err(msg) =>
          sent := None;
          toast := ErrorToast(FailureText(msg));
        case Ok(a) =>
          var record := NewMention(sample.content, sample.source, sample.userName,
                                   a.sentiment, a.sentimentScore, a.suggestedResponse, None, None, None);
          sent := Some(record);
          toast := if insert.Ok? then SuccessToast(AddedMessage) else ErrorToast(FailureText(insert.message));
      }
      loading := false;
      loadingHistory := loadingHistory + [false];
    }
  }
}
