/** The Settings page: the alert toggles, the threshold select, the two
    notification switches and the competitor list with its input box. */
module Settings {
  import opened Wrappers
  import opened Text
  import opened Mentions

  /** The `notification_methods` object of a stored settings row; a field the
      object lacks is `None`. */
  datatype NotificationMethods = NotificationMethods(email: Option<bool>, slack: Option<bool>)

  /** The `alert_settings` row the page loads. */
  datatype AlertSettingsRow = AlertSettingsRow(
    autoAlertsEnabled: bool,
    alertThreshold: string,
    notificationMethods: Option<NotificationMethods>)

  /** The notification flags as the page writes them back. */
  datatype Notify = Notify(email: bool, slack: bool)

  /** The object `saveSettings` upserts. */
  datatype SettingsPayload = SettingsPayload(
    autoAlertsEnabled: bool,
    alertThreshold: string,
    notificationMethods: Notify)

  const SaveFailedMessage: string := "Failed to save settings"
  const SavedMessage: string := "Settings saved successfully"
  const AddFailedMessage: string := "Failed to add competitor"
  const AddedMessage: string := "Competitor added"

  /** `notifMethods?.email || false` and the same for `slack`: a switch is on
      only when the stored object is present and holds `true` for it. */
  function EmailFlag(methods: Option<NotificationMethods>): (on: bool)
    ensures on <==> methods.Some? && methods.value.email == Some(true)
  {
    if methods.Some? then methods.value.email.GetOr(false) else false
  }

  function SlackFlag(methods: Option<NotificationMethods>): (on: bool)
    ensures on <==> methods.Some? && methods.value.slack == Some(true)
  {
    if methods.Some? then methods.value.slack.GetOr(false) else false
  }

  class SettingsPage {
    var autoAlerts: bool
    var threshold: string
    var emailNotif: bool
    var slackNotif: bool
    var competitors: seq<string>
    var newCompetitor: string
    /** The list the page last loaded, and the names added since. */
    ghost var loaded: seq<string>
    ghost var added: seq<string>

    /** Every name the page has added since the last load is non-blank, and
        the list is the loaded list followed by those names. */
    ghost predicate Valid()
      reads this
    {
      && competitors == loaded + added
      && forall k :: 0 <= k < |added| ==> !AllSpace(added[k])
    }

    /** The state before the load: auto alerts on, threshold "medium", email
        on, Slack off, no competitors and an empty input box. */
    constructor()
      ensures autoAlerts && threshold == "medium" && emailNotif && !slackNotif
      ensures competitors == [] && newCompetitor == ""
      ensures Valid()
    {
      autoAlerts := true;
      threshold := "medium";
      emailNotif := true;
      slackNotif := false;
      competitors := [];
      newCompetitor := "";
      loaded := [];
      added := [];
    }

    /** `fetchSettings`: a loaded row replaces the four settings, and the
        competitor list becomes the stored names, or [] when the query
        returned no data. */
    method FetchSettings(data: Option<AlertSettingsRow>, compData: Option<seq<string>>)
      modifies this
      ensures data.Some? ==>
        && autoAlerts == data.value.autoAlertsEnabled
        && threshold == data.value.alertThreshold
        && emailNotif == EmailFlag(data.value.notificationMethods)
        && slackNotif == SlackFlag(data.value.notificationMethods)
      ensures data.None? ==>
        autoAlerts == old(autoAlerts) && threshold == old(threshold)
        && emailNotif == old(emailNotif) && slackNotif == old(slackNotif)
      ensures competitors == (if compData.Some? then compData.value else [])
      ensures newCompetitor == old(newCompetitor)
      ensures Valid()
    {
      if data.Some? {
        autoAlerts := data.value.autoAlertsEnabled;
        threshold := data.value.alertThreshold;
        emailNotif := EmailFlag(data.value.notificationMethods);
        slackNotif := SlackFlag(data.value.notificationMethods);
      }
      competitors := compData.GetOr([]);
      loaded := competitors;
      added := [];
    }

    /** `saveSettings`: the upserted object is the current state, with the
        notification methods exactly `{email, slack}`; the toast reports
        whether the store accepted it. Nothing on the page changes. */
    method SaveSettings(upsert: Result<()>) returns (payload: SettingsPayload, toast: Toast)
      ensures payload.autoAlertsEnabled == autoAlerts
      ensures payload.alertThreshold == threshold
      ensures payload.notificationMethods == Notify(emailNotif, slackNotif)
      ensures toast == if upsert.Ok? then SuccessToast(SavedMessage) else ErrorToast(SaveFailedMessage)
    {
      payload := SettingsPayload(autoAlerts, threshold, Notify(emailNotif, slackNotif));
      toast := if upsert.Ok? then SuccessToast(SavedMessage) else ErrorToast(SaveFailedMessage);
    }

    /** `addCompetitor`. A blank input changes nothing and sends nothing.
        Otherwise the untrimmed input is sent to the store; on success it is
        appended to the list and the box is cleared, and on failure the list
        and the box stay as they were. The settings are never touched. */
    method AddCompetitor(insert: Result<()>) returns (sent: Option<string>, toast: Option<Toast>)
      requires Valid()
      modifies this
      ensures Valid()
      ensures sent.None? <==> AllSpace(old(newCompetitor))
      ensures sent.Some? ==> sent.value == old(newCompetitor)
      ensures sent.Some? && insert.Ok? ==>
        && competitors == old(competitors) + [old(newCompetitor)]
        && newCompetitor == ""
        && toast == Some(SuccessToast(AddedMessage))
      ensures sent.Some? && insert.Err? ==>
        competitors == old(competitors) && newCompetitor == old(newCompetitor)
        && toast == Some(ErrorToast(AddFailedMessage))
      ensures sent.None? ==>
        competitors == old(competitors) && newCompetitor == old(newCompetitor) && toast.None?
      ensures autoAlerts == old(autoAlerts) && threshold == old(threshold)
      ensures emailNotif == old(emailNotif) && slackNotif == old(slackNotif)
    {
      TrimEmptyIffBlank(newCompetitor);
      if Trim(newCompetitor) == [] {
        return None, None;
      }
      sent := Some(newCompetitor);
      match insert {
        case Err(_) =>
          toast := Some(ErrorToast(AddFailedMessage));
        case Ok(_) =>
          competitors := competitors + [newCompetitor];
          added := added + [newCompetitor];
          newCompetitor := "";
          toast := Some(SuccessToast(AddedMessage));
      }
    }
  }
}
