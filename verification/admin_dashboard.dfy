/**
 * The admin dashboard: the admin gate, the filtered list, and the per-row
 * status change and deletion, each followed by a refetch. Toasts, list
 * queries, update and delete requests and navigations are recorded in order.
 */
module AdminDashboard {
  import opened Common
  import opened Text
  import Helpers
  import Api
  import Dashboard

  /** The filter object itself is the query; it starts by showing new reports. */
  const InitialFilter: map<string, string> := map["status" := "reported"]

  const AccessDeniedToast := "Access denied. Admin only."
  const LoginPath := "/login"
  const LoadFailedToast := "Failed to load issues"
  const MarkedPrefix := "Issue marked as "
  const StatusFailedPrefix := "Failed to update status: "
  const DeletedToast := "Issue deleted successfully"
  const DeleteFailedPrefix := "Failed to delete: "
  const DescriptionPreviewLength := 50

  /** The success toast of a status change: the new status with its first underscore shown as a space. */
  function MarkedToast(newStatus: string): (text: string)
    ensures |text| == |MarkedPrefix| + |newStatus| && text[..|MarkedPrefix|] == MarkedPrefix
    ensures '_' !in newStatus ==> text == MarkedPrefix + newStatus
  {
    MarkedPrefix + ReplaceFirst(newStatus, '_', ' ')
  }

  /** Only the first underscore is shown as a space: "a_b_c" is announced as "a b_c". */
  lemma MarkedToastReplacesFirstUnderscore(before: string, after: string)
    requires '_' !in before
    ensures MarkedToast(before + "_" + after) == MarkedPrefix + before + " " + after
  {
    ReplaceFirstAt(before, '_', ' ', after);
    assert MarkedPrefix + (before + [' '] + after) == MarkedPrefix + before + " " + after;
  }

  /**
   * The description cell: the first 50 characters followed by "..." (also
   * when nothing was cut), or "No description" for an empty description.
   */
  function DescriptionCell(description: string): (text: string)
    ensures description == "" ==> text == "No description"
    ensures description != "" && |description| <= DescriptionPreviewLength ==> text == description + "..."
    ensures description != "" && |description| > DescriptionPreviewLength ==>
      text == description[..DescriptionPreviewLength] + "..."
    ensures description != "" ==> |text| <= DescriptionPreviewLength + 3
  {
    if description == "" then "No description"
    else if |description| <= DescriptionPreviewLength then description + "..."
    else description[..DescriptionPreviewLength] + "..."
  }

  /** What one table row shows, apart from the formatted date. */
  datatype Row = Row(
    icon: string,
    title: string,
    description: string,
    city: string,
    status: string,
    severityClass: string,
    link: string)

  function RowOf(issue: Issue): (row: Row)
    ensures row.icon == Helpers.GetCategoryIcon(issue.category)
    ensures row.title == Helpers.FormatCategory(issue.category)
    ensures row.description == DescriptionCell(issue.description)
    ensures row.city == Dashboard.CityText(issue.city)
    ensures row.status == issue.status
    ensures row.severityClass == "badge badge-" + issue.severity
    ensures row.link == "/issues/" + issue.id
  {
    Row(
      Helpers.GetCategoryIcon(issue.category),
      Helpers.FormatCategory(issue.category),
      DescriptionCell(issue.description),
      Dashboard.CityText(issue.city),
      issue.status,
      "badge badge-" + issue.severity,
      "/issues/" + issue.id)
  }

  datatype View = LoadingView | EmptyView | TableView(rows: seq<Row>)

  /** The list after a fetch: the reply's issues, or the previous list when the call failed. */
  function FetchedIssues(previous: seq<Issue>, call: Call<Dashboard.IssueList>): seq<Issue> {
    match call
    case Responded(list) => list.data
    case Failed(_) => previous
  }

  /** The toasts a fetch raises: one for a failure, none otherwise. */
  function FetchToasts(call: Call<Dashboard.IssueList>): seq<Toast> {
    if call.Failed? then [Toast(LoadFailedToast, ErrorToast)] else []
  }

  class AdminDashboardPage {
    var issues: seq<Issue>
    var loading: bool
    var filter: map<string, string>
    var toasts: seq<Toast>
    /** The query of every list request sent. */
    var requests: seq<map<string, string>>
    /** Every status update sent, as (issue id, new status). */
    var updates: seq<(string, string)>
    /** Ids of every delete request sent. */
    var deletions: seq<string>
    var navigations: seq<string>

    constructor ()
      ensures issues == [] && loading && filter == InitialFilter
      ensures toasts == [] && requests == [] && updates == [] && deletions == [] && navigations == []
    {
      issues := [];
      loading := true;
      filter := InitialFilter;
      toasts := [];
      requests := [];
      updates := [];
      deletions := [];
      navigations := [];
    }

    /**
     * fetchIssues: queries with the filter as it stands; a reply replaces the
     * list, a failure keeps it and raises a toast; loading is off afterwards.
     */
    method FetchIssues(call: Call<Dashboard.IssueList>)
      modifies this
      ensures requests == old(requests) + [filter] && filter == old(filter)
      ensures issues == FetchedIssues(old(issues), call) && !loading
      ensures toasts == old(toasts) + FetchToasts(call)
      ensures updates == old(updates) && deletions == old(deletions) && navigations == old(navigations)
    {
      loading := true;
      requests := requests + [filter];
      match Api.Settle(call) {
        case Ok(list) =>
          issues := list.data;
        case Err(_) =>
          toasts := toasts + [Toast(LoadFailedToast, ErrorToast)];
      }
      loading := false;
    }

    /**
     * The effect run on mount and on every filter change: a visitor who is
     * not an admin gets a toast and is sent to the login page, and nothing is
     * fetched; an admin gets a fetch.
     */
    method Activate(session: Api.SessionStore, call: Call<Dashboard.IssueList>)
      modifies this
      ensures filter == old(filter) && updates == old(updates) && deletions == old(deletions)
      ensures !session.IsAdmin() ==>
        && toasts == old(toasts) + [Toast(AccessDeniedToast, ErrorToast)]
        && navigations == old(navigations) + [LoginPath]
        && requests == old(requests) && issues == old(issues) && loading == old(loading)
      ensures session.IsAdmin() ==>
        && requests == old(requests) + [filter]
        && issues == FetchedIssues(old(issues), call) && !loading
        && toasts == old(toasts) + FetchToasts(call)
        && navigations == old(navigations)
    {
      if !session.IsAdmin() {
        toasts := toasts + [Toast(AccessDeniedToast, ErrorToast)];
        navigations := navigations + [LoginPath];
        return;
      }
      FetchIssues(call);
    }

    /** A filter select: the key is set (to "" for "all") and the effect runs again. */
    method ChangeFilter(key: string, value: string, session: Api.SessionStore, call: Call<Dashboard.IssueList>)
      modifies this
      ensures filter == old(filter)[key := value]
      ensures updates == old(updates) && deletions == old(deletions)
      ensures !session.IsAdmin() ==>
        && toasts == old(toasts) + [Toast(AccessDeniedToast, ErrorToast)]
        && navigations == old(navigations) + [LoginPath]
        && requests == old(requests) && issues == old(issues) && loading == old(loading)
      ensures session.IsAdmin() ==>
        && requests == old(requests) + [filter]
        && issues == FetchedIssues(old(issues), call) && !loading
        && toasts == old(toasts) + FetchToasts(call)
        && navigations == old(navigations)
    {
      filter := filter[key := value];
      Activate(session, call);
    }

    /**
     * handleStatusChange: sends the update; on success a toast names the new
     * status and the list is fetched again, on failure a toast gives the
     * normalised message and nothing is fetched.
     */
    method HandleStatusChange(id: string, newStatus: string, update: Call<Issue>, refetch: Call<Dashboard.IssueList>)
      modifies this
      ensures updates == old(updates) + [(id, newStatus)]
      ensures filter == old(filter) && deletions == old(deletions) && navigations == old(navigations)
      ensures update.Responded? ==>
        && toasts == old(toasts) + [Toast(MarkedToast(newStatus), SuccessToast)] + FetchToasts(refetch)
        && requests == old(requests) + [filter]
        && issues == FetchedIssues(old(issues), refetch) && !loading
      ensures update.Failed? ==>
        && toasts == old(toasts) + [Toast(StatusFailedPrefix + Api.HandleError(update.error), ErrorToast)]
        && requests == old(requests) && issues == old(issues) && loading == old(loading)
    {
      updates := updates + [(id, newStatus)];
      match Api.Settle(update) {
        case Ok(_) =>
          toasts := toasts + [Toast(MarkedToast(newStatus), SuccessToast)];
          FetchIssues(refetch);
        case Err(message) =>
          toasts := toasts + [Toast(StatusFailedPrefix + message, ErrorToast)];
      }
    }

    /**
     * handleDelete: nothing happens unless the confirmation is accepted; then
     * the delete is sent, and a success toast and a refetch, or a failure
     * toast, follow.
     */
    method HandleDelete(id: string, confirmed: bool, del: Call<Ack>, refetch: Call<Dashboard.IssueList>)
      modifies this
      ensures !confirmed ==> unchanged(this)
      ensures filter == old(filter) && updates == old(updates) && navigations == old(navigations)
      ensures confirmed ==> deletions == old(deletions) + [id]
      ensures confirmed && del.Responded? ==>
        && toasts == old(toasts) + [Toast(DeletedToast, SuccessToast)] + FetchToasts(refetch)
        && requests == old(requests) + [filter]
        && issues == FetchedIssues(old(issues), refetch) && !loading
      ensures confirmed && del.Failed? ==>
        && toasts == old(toasts) + [Toast(DeleteFailedPrefix + Api.HandleError(del.error), ErrorToast)]
        && requests == old(requests) && issues == old(issues) && loading == old(loading)
    {
      if !confirmed {
        return;
      }
      deletions := deletions + [id];
      match Api.Settle(del) {
        case Ok(_) =>
          toasts := toasts + [Toast(DeletedToast, SuccessToast)];
          FetchIssues(refetch);
        case Err(message) =>
          toasts := toasts + [Toast(DeleteFailedPrefix + message, ErrorToast)];
      }
    }

    /** The list area: a spinner while loading, the empty state for no issues, else one row per issue in order. */
    function View(): (v: View)
      reads this
      ensures loading <==> v == LoadingView
      ensures v == EmptyView <==> !loading && issues == []
      ensures v.TableView? ==> |v.rows| == |issues| && forall i :: 0 <= i < |issues| ==> v.rows[i] == RowOf(issues[i])
    {
      if loading then LoadingView
      else if issues == [] then EmptyView
      else TableView(Rows(issues))
    }
  }

  /** `issues.map(...)`: one row per issue, in the list's order. */
  function Rows(issues: seq<Issue>): (rows: seq<Row>)
    ensures |rows| == |issues|
    ensures forall i :: 0 <= i < |issues| ==> rows[i] == RowOf(issues[i])
  {
    seq(|issues|, i requires 0 <= i < |issues| => RowOf(issues[i]))
  }

  /** A visitor who is not an admin never triggers a list request, however often the filter changes. */
  method NonAdminNeverFetches(
    session: Api.SessionStore, calls: seq<Call<Dashboard.IssueList>>, keys: seq<string>, values: seq<string>)
    returns (page: AdminDashboardPage)
    requires !session.IsAdmin() && |keys| == |calls| && |values| == |calls|
    ensures page.requests == [] && page.View() == LoadingView
    ensures page.navigations == seq(|calls| + 1, _ => LoginPath)
    ensures page.toasts == seq(|calls| + 1, _ => Toast(AccessDeniedToast, ErrorToast))
  {
    page := new AdminDashboardPage();
    page.Activate(session, Responded(Dashboard.IssueList([])));
    var i := 0;
    while i < |calls|
      invariant 0 <= i <= |calls|
      invariant page.requests == [] && page.loading && page.issues == []
      invariant page.navigations == seq(i + 1, _ => LoginPath)
      invariant page.toasts == seq(i + 1, _ => Toast(AccessDeniedToast, ErrorToast))
    {
      page.ChangeFilter(keys[i], values[i], session, calls[i]);
      i := i + 1;
    }
  }
}
