/**
 * The issue detail page: the fetch of one issue, the status transitions it
 * offers, and the vote, status-change and delete actions serialised by the
 * `actionLoading` lock. Requests, toasts and scheduled navigations are
 * recorded in order.
 */
module IssueDetail {
  import opened Common
  import opened Text
  import Helpers
  import Api
  import Dashboard

  const LoadFailedText := "Failed to load issue details"
  const VotedToast := "Vote recorded successfully! \U{1F44D}"
  const VoteFailedPrefix := "Failed to vote: "
  const StatusFailedPrefix := "Failed to update status: "
  const StatusUpdatedFallback := "Status updated successfully"
  const DeletedToast := "Issue deleted successfully"
  const DeleteFailedPrefix := "Failed to delete issue: "
  const DashboardPath := "/dashboard"

  /** The status-change buttons: a reported issue can be started, one in progress resolved; nothing else is offered. */
  function OfferedTransitions(status: string): (targets: seq<string>)
    ensures status == "reported" ==> targets == ["in_progress"]
    ensures status == "in_progress" ==> targets == ["resolved"]
    ensures status != "reported" && status != "in_progress" ==> targets == []
  {
    if status == "reported" then ["in_progress"]
    else if status == "in_progress" then ["resolved"]
    else []
  }

  /** Position of a status along the workflow; statuses outside it come last. */
  function StatusRank(status: string): nat {
    if status == "reported" then 0
    else if status == "in_progress" then 1
    else 2
  }

  /** A path of status changes, each one offered by the page in the status before it. */
  predicate OfferedPath(path: seq<string>) {
    forall i :: 0 <= i < |path| - 1 ==> path[i + 1] in OfferedTransitions(path[i])
  }

  /**
   * The offered transitions only move forward, one workflow step at a time,
   * so any path of offered changes has at most three statuses, and a path
   * that changes at all starts at "reported" or "in_progress" and ends at
   * "resolved" or "in_progress".
   */
  lemma {:induction false} OfferedPathAdvances(path: seq<string>)
    requires |path| > 0 && OfferedPath(path)
    ensures forall i :: 0 <= i < |path| ==> StatusRank(path[i]) == StatusRank(path[0]) + i
    ensures |path| <= 3
    ensures |path| > 1 ==> path[|path| - 1] == "resolved" || path[|path| - 1] == "in_progress"
    decreases |path|
  {
    if |path| > 1 {
      var rest := path[1..];
      assert OfferedPath(rest) by {
        forall i | 0 <= i < |rest| - 1
          ensures rest[i + 1] in OfferedTransitions(rest[i])
        {
          assert rest[i] == path[i + 1] && rest[i + 1] == path[i + 2];
        }
      }
      OfferedPathAdvances(rest);
      assert path[1] in OfferedTransitions(path[0]);
      assert StatusRank(path[1]) == StatusRank(path[0]) + 1;
      forall i | 1 <= i < |path|
        ensures StatusRank(path[i]) == StatusRank(path[0]) + i
      {
        assert path[i] == rest[i - 1];
      }
      assert path[|path| - 1] == rest[|rest| - 1];
      assert path[|path| - 1] in OfferedTransitions(path[|path| - 2]);
    }
  }

  const StatusMessages: map<string, string> := map[
    "in_progress" := "Issue marked as In Progress \U{23F3}",
    "resolved" := "Issue marked as Resolved \U{2705}",
    "rejected" := "Issue marked as Rejected \U{274C}"
  ]

  /** The success toast of a status change: the status's own message, or a generic one. */
  function StatusMessage(status: string): (text: string)
    ensures status in StatusMessages ==> text == StatusMessages[status]
    ensures status !in StatusMessages ==> text == StatusUpdatedFallback
    ensures text != ""
  {
    LookupOr(StatusMessages, status, StatusUpdatedFallback)
  }

  /** The single-issue endpoint's reply, of which the page reads `data`. */
  datatype IssueReply = IssueReply(data: Issue)

  /** The requests the page sends, all about the issue it shows. */
  datatype Request = GetIssue | Vote | UpdateStatus(status: string) | DeleteIssue

  /** The issue after a fetch: the reply's issue, or the previous one when the call failed. */
  function FetchedIssue(previous: Option<Issue>, call: Call<IssueReply>): Option<Issue> {
    match call
    case Responded(reply) => Some(reply.data)
    case Failed(_) => previous
  }

  /** The error after a fetch: cleared by a reply, set by a failure. */
  function FetchedError(call: Call<IssueReply>): Option<string> {
    if call.Failed? then Some(LoadFailedText) else None
  }

  /** The toasts a fetch raises: one for a failure, none otherwise. */
  function FetchToasts(call: Call<IssueReply>): seq<Toast> {
    if call.Failed? then [Toast(LoadFailedText, ErrorToast)] else []
  }

  /** What the page shows. */
  datatype View = LoadingView | ErrorView | DetailView(header: Header, offered: seq<string>)

  /** The header of the detail card, apart from the relative time. */
  datatype Header = Header(icon: string, title: string, severityClass: string, statusClass: string, statusText: string)

  function HeaderOf(issue: Issue): (h: Header)
    ensures h.icon == Helpers.GetCategoryIcon(issue.category)
    ensures h.title == Helpers.FormatCategory(issue.category)
    ensures h.severityClass == Dashboard.SeverityClass(issue.severity)
    ensures h.statusClass == Dashboard.StatusClass(issue.status)
    ensures |h.statusText| == |issue.status| && ('_' !in issue.status ==> h.statusText == issue.status)
  {
    Header(
      Helpers.GetCategoryIcon(issue.category),
      Helpers.FormatCategory(issue.category),
      Dashboard.SeverityClass(issue.severity),
      Dashboard.StatusClass(issue.status),
      ReplaceFirst(issue.status, '_', ' '))
  }

  class IssueDetailPage {
    /** The route parameter. */
    var id: string
    var issue: Option<Issue>
    var loading: bool
    var error: Option<string>
    var actionLoading: bool
    var toasts: seq<Toast>
    var requests: seq<Request>
    var navigations: seq<string>

    /** The page before its first fetch. */
    constructor (id: string)
      ensures this.id == id && issue == None && loading && error == None && !actionLoading
      ensures toasts == [] && requests == [] && navigations == []
    {
      this.id := id;
      issue := None;
      loading := true;
      error := None;
      actionLoading := false;
      toasts := [];
      requests := [];
      navigations := [];
    }

    /** fetchIssue's effect: a reply replaces the issue, a failure sets the error and raises a toast. */
    twostate predicate Fetched(call: Call<IssueReply>)
      reads this
    {
      && issue == FetchedIssue(old(issue), call)
      && error == FetchedError(call)
      && !loading
    }

    /**
     * fetchIssue: clears the error, asks for the issue, and records the
     * outcome; it handles its own failure, so it never fails its caller.
     */
    method FetchIssue(call: Call<IssueReply>)
      modifies this
      ensures Fetched(call)
      ensures toasts == old(toasts) + FetchToasts(call)
      ensures requests == old(requests) + [GetIssue]
      ensures id == old(id) && actionLoading == old(actionLoading) && navigations == old(navigations)
    {
      loading := true;
      error := None;
      requests := requests + [GetIssue];
      match Api.Settle(call) {
        case Ok(reply) =>
          issue := Some(reply.data);
        case Err(_) =>
          error := Some(LoadFailedText);
          toasts := toasts + [Toast(LoadFailedText, ErrorToast)];
      }
      loading := false;
    }

    /**
     * handleVote's effect: once the vote is accepted the issue is fetched
     * again and the success toast follows, whether or not that fetch
     * succeeded; a refused vote raises a toast and fetches nothing.
     * `actionLoading` is off afterwards.
     */
    twostate predicate Voted(vote: Call<Ack>, refetch: Call<IssueReply>)
      reads this
    {
      && !actionLoading
      && id == old(id) && navigations == old(navigations)
      && if vote.Responded? then
           && Fetched(refetch)
           && requests == old(requests) + [Vote, GetIssue]
           && toasts == old(toasts) + FetchToasts(refetch) + [Toast(VotedToast, SuccessToast)]
         else
           && issue == old(issue) && error == old(error) && loading == old(loading)
           && requests == old(requests) + [Vote]
           && toasts == old(toasts) + [Toast(VoteFailedPrefix + Api.HandleError(vote.error), ErrorToast)]
    }

    method HandleVote(vote: Call<Ack>, refetch: Call<IssueReply>)
      modifies this
      ensures Voted(vote, refetch)
    {
      actionLoading := true;
      requests := requests + [Vote];
      match Api.Settle(vote) {
        case Ok(_) =>
          FetchIssue(refetch);
          toasts := toasts + [Toast(VotedToast, SuccessToast)];
        case Err(message) =>
          toasts := toasts + [Toast(VoteFailedPrefix + message, ErrorToast)];
      }
      actionLoading := false;
    }

    /**
     * handleStatusChange's effect: an accepted update is followed by a
     * fetch and the status's success message; a refused one raises a toast
     * and fetches nothing. `actionLoading` is off afterwards.
     */
    twostate predicate StatusChanged(newStatus: string, update: Call<IssueReply>, refetch: Call<IssueReply>)
      reads this
    {
      && !actionLoading
      && id == old(id) && navigations == old(navigations)
      && if update.Responded? then
           && Fetched(refetch)
           && requests == old(requests) + [UpdateStatus(newStatus), GetIssue]
           && toasts == old(toasts) + FetchToasts(refetch) + [Toast(StatusMessage(newStatus), SuccessToast)]
         else
           && issue == old(issue) && error == old(error) && loading == old(loading)
           && requests == old(requests) + [UpdateStatus(newStatus)]
           && toasts == old(toasts) + [Toast(StatusFailedPrefix + Api.HandleError(update.error), ErrorToast)]
    }

    method HandleStatusChange(newStatus: string, update: Call<IssueReply>, refetch: Call<IssueReply>)
      modifies this
      ensures StatusChanged(newStatus, update, refetch)
    {
      actionLoading := true;
      requests := requests + [UpdateStatus(newStatus)];
      match Api.Settle(update) {
        case Ok(_) =>
          FetchIssue(refetch);
          toasts := toasts + [Toast(StatusMessage(newStatus), SuccessToast)];
        case Err(message) =>
          toasts := toasts + [Toast(StatusFailedPrefix + message, ErrorToast)];
      }
      actionLoading := false;
    }

    /**
     * handleDelete's effect: an accepted delete raises a toast, schedules
     * the dashboard and keeps the lock on until the page is left; a refused
     * one raises a toast and releases the lock.
     */
    twostate predicate Deleted(del: Call<Ack>)
      reads this
    {
      && id == old(id) && issue == old(issue) && error == old(error) && loading == old(loading)
      && requests == old(requests) + [DeleteIssue]
      && if del.Responded? then
           && actionLoading
           && toasts == old(toasts) + [Toast(DeletedToast, SuccessToast)]
           && navigations == old(navigations) + [DashboardPath]
         else
           && !actionLoading
           && toasts == old(toasts) + [Toast(DeleteFailedPrefix + Api.HandleError(del.error), ErrorToast)]
           && navigations == old(navigations)
    }

    method HandleDelete(del: Call<Ack>)
      modifies this
      ensures Deleted(del)
    {
      actionLoading := true;
      requests := requests + [DeleteIssue];
      match Api.Settle(del) {
        case Ok(_) =>
          toasts := toasts + [Toast(DeletedToast, SuccessToast)];
          navigations := navigations + [DashboardPath];
        case Err(message) =>
          toasts := toasts + [Toast(DeleteFailedPrefix + message, ErrorToast)];
          actionLoading := false;
      }
    }

    /** Every action button carries `disabled={actionLoading}`. */
    function ActionsEnabled(): (enabled: bool)
      reads this
      ensures enabled <==> !actionLoading
    {
      !actionLoading
    }

    /** A press on the vote button: ignored while an action is running. */
    method PressVote(vote: Call<Ack>, refetch: Call<IssueReply>)
      modifies this
      ensures old(actionLoading) ==> unchanged(this)
      ensures !old(actionLoading) ==> Voted(vote, refetch)
    {
      if ActionsEnabled() {
        HandleVote(vote, refetch);
      }
    }

    /** A press on a status button: only an offered target can be pressed, and not while an action is running. */
    method PressStatus(target: string, update: Call<IssueReply>, refetch: Call<IssueReply>)
      modifies this
      ensures old(actionLoading) || old(issue).None? || target !in OfferedTransitions(old(issue).value.status) ==>
        unchanged(this)
      ensures !old(actionLoading) && old(issue).Some? && target in OfferedTransitions(old(issue).value.status) ==>
        StatusChanged(target, update, refetch)
    {
      if ActionsEnabled() && issue.Some? && target in OfferedTransitions(issue.value.status) {
        HandleStatusChange(target, update, refetch);
      }
    }

    /** A press on the delete button: ignored while an action is running. */
    method PressDelete(del: Call<Ack>)
      modifies this
      ensures old(actionLoading) ==> unchanged(this)
      ensures !old(actionLoading) ==> Deleted(del)
    {
      if ActionsEnabled() {
        HandleDelete(del);
      }
    }

    /** A spinner while loading; the error view when an error is set or no issue is held; else the issue. */
    function View(): (v: View)
      reads this
      ensures v == LoadingView <==> loading
      ensures v == ErrorView <==> !loading && (error.Some? || issue.None?)
      ensures v.DetailView? ==>
        issue.Some? && v.header == HeaderOf(issue.value) && v.offered == OfferedTransitions(issue.value.status)
    {
      if loading then LoadingView
      else if error.Some? || issue.None? then ErrorView
      else DetailView(HeaderOf(issue.value), OfferedTransitions(issue.value.status))
    }
  }

  /** After a successful delete every further press is ignored: the lock stays on until the page is left. */
  method DeleteLocksActions(page: IssueDetailPage, vote: Call<Ack>, refetch: Call<IssueReply>, del: Call<Ack>)
    requires !page.actionLoading
    modifies page
    ensures page.requests == old(page.requests) + [DeleteIssue]
    ensures page.navigations == old(page.navigations) + [DashboardPath]
    ensures !page.ActionsEnabled()
  {
    page.PressDelete(Responded(Ack));
    page.PressVote(vote, refetch);
    page.PressDelete(del);
  }
}
