/**
 * The public dashboard: the three filters, the query they produce, the list
 * fetch that follows every filter change, and what each card shows.
 */
module Dashboard {
  import opened Common
  import opened Text
  import Helpers
  import Api

  datatype Filter = Filter(category: string, severity: string, status: string)

  /** Every filter starts at "all" (the empty value). */
  const InitialFilter := Filter("", "", "")

  /** Which of the three selects changed. */
  datatype FilterField = CategoryField | SeverityField | StatusField

  /** The select's `onChange`: a copy of the filter with one field replaced. */
  function SetField(filter: Filter, field: FilterField, value: string): (r: Filter)
    ensures field == CategoryField ==> r == Filter(value, filter.severity, filter.status)
    ensures field == SeverityField ==> r == Filter(filter.category, value, filter.status)
    ensures field == StatusField ==> r == Filter(filter.category, filter.severity, value)
  {
    match field
    case CategoryField => filter.(category := value)
    case SeverityField => filter.(severity := value)
    case StatusField => filter.(status := value)
  }

  /** `filter[key]` for the three filter names. */
  function FilterValue(filter: Filter, key: string): string {
    if key == "category" then filter.category
    else if key == "severity" then filter.severity
    else if key == "status" then filter.status
    else ""
  }

  /** The query a filter stands for: each non-empty value under its own name. */
  function QueryOf(filter: Filter): (q: map<string, string>)
    ensures forall key :: key in q <==> key in {"category", "severity", "status"} && FilterValue(filter, key) != ""
    ensures forall key :: key in q ==> q[key] == FilterValue(filter, key) && q[key] != ""
  {
    map key | key in {"category", "severity", "status"} && FilterValue(filter, key) != "" :: FilterValue(filter, key)
  }

  /** A filter with only the status set asks for that status and nothing else. */
  lemma StatusOnlyQuery(status: string)
    requires status != ""
    ensures QueryOf(Filter("", "", status)) == map["status" := status]
  {
    var q := QueryOf(Filter("", "", status));
    assert q.Keys == {"status"};
  }

  /** Two filters that differ produce different queries: no filter choice is lost on the wire. */
  lemma QueryOfInjective(f: Filter, g: Filter)
    requires QueryOf(f) == QueryOf(g)
    ensures f == g
  {
    assert FilterValue(f, "category") == FilterValue(g, "category");
    assert FilterValue(f, "severity") == FilterValue(g, "severity");
    assert FilterValue(f, "status") == FilterValue(g, "status");
  }

  /**
   * The query parameters: each non-empty filter value under its own name,
   * and no key for an empty one.
   */
  method BuildParams(filter: Filter) returns (params: map<string, string>)
    ensures params == QueryOf(filter)
    ensures params.Keys <= {"category", "severity", "status"}
    ensures "category" in params <==> filter.category != ""
    ensures "severity" in params <==> filter.severity != ""
    ensures "status" in params <==> filter.status != ""
    ensures "category" in params ==> params["category"] == filter.category
    ensures "severity" in params ==> params["severity"] == filter.severity
    ensures "status" in params ==> params["status"] == filter.status
    ensures forall k :: k in params ==> params[k] != ""
    ensures filter == InitialFilter ==> params == map[]
  {
    params := map[];
    if filter.category != "" {
      params := params["category" := filter.category];
    }
    if filter.severity != "" {
      params := params["severity" := filter.severity];
    }
    if filter.status != "" {
      params := params["status" := filter.status];
    }
  }

  /** The severity badge class: critical and moderate have their own, anything else is minor. */
  function SeverityClass(severity: string): (cls: string)
    ensures cls == "badge-critical" <==> severity == "critical"
    ensures cls == "badge-moderate" <==> severity == "moderate"
    ensures cls == "badge-minor" <==> severity != "critical" && severity != "moderate"
  {
    if severity == "critical" then "badge-critical"
    else if severity == "moderate" then "badge-moderate"
    else "badge-minor"
  }

  /** The status badge class: in-progress and resolved have their own, anything else looks reported. */
  function StatusClass(status: string): (cls: string)
    ensures cls == "badge-in-progress" <==> status == "in_progress"
    ensures cls == "badge-resolved" <==> status == "resolved"
    ensures cls == "badge-reported" <==> status != "in_progress" && status != "resolved"
  {
    if status == "reported" then "badge-reported"
    else if status == "in_progress" then "badge-in-progress"
    else if status == "resolved" then "badge-resolved"
    else "badge-reported"
  }

  /** `city || 'Unknown'`. */
  function CityText(city: string): (text: string)
    ensures city != "" ==> text == city
    ensures city == "" ==> text == "Unknown"
  {
    if city != "" then city else "Unknown"
  }

  /** What one card shows, apart from the image and the formatted date. */
  datatype Card = Card(
    icon: string,
    severityClass: string,
    severity: string,
    title: string,
    description: string,
    city: string,
    statusClass: string,
    statusText: string,
    link: string)

  function CardOf(issue: Issue): (card: Card)
    ensures card.icon == Helpers.GetCategoryIcon(issue.category)
    ensures card.title == Helpers.FormatCategory(issue.category)
    ensures card.severity == issue.severity && card.severityClass == SeverityClass(issue.severity)
    ensures issue.description != "" ==> card.description == issue.description
    ensures issue.description == "" ==> card.description == "No description"
    ensures card.city == CityText(issue.city)
    ensures card.statusClass == StatusClass(issue.status)
    ensures |card.statusText| == |issue.status| && ('_' !in issue.status ==> card.statusText == issue.status)
    ensures card.link == "/issues/" + issue.id
  {
    Card(
      Helpers.GetCategoryIcon(issue.category),
      SeverityClass(issue.severity),
      issue.severity,
      Helpers.FormatCategory(issue.category),
      if issue.description != "" then issue.description else "No description",
      CityText(issue.city),
      StatusClass(issue.status),
      ReplaceFirst(issue.status, '_', ' '),
      "/issues/" + issue.id)
  }

  /** `issues.map(...)`: one card per issue, in the list's order. */
  function Cards(issues: seq<Issue>): (cards: seq<Card>)
    ensures |cards| == |issues|
    ensures forall i :: 0 <= i < |issues| ==> cards[i] == CardOf(issues[i])
  {
    seq(|issues|, i requires 0 <= i < |issues| => CardOf(issues[i]))
  }

  /** The three states of the list area. */
  datatype View = LoadingView | EmptyView | GridView(cards: seq<Card>)

  /** The list endpoint's reply, of which the page reads `data`. */
  datatype IssueList = IssueList(data: seq<Issue>)

  class DashboardPage {
    var issues: seq<Issue>
    var loading: bool
    var filter: Filter
    /** The query of every list request sent. */
    var requests: seq<map<string, string>>

    /** The page before its first fetch: no issues, loading, all filters empty. */
    constructor ()
      ensures issues == [] && loading && filter == InitialFilter && requests == []
    {
      issues := [];
      loading := true;
      filter := InitialFilter;
      requests := [];
    }

    /**
     * fetchIssues: sends the current filter's query; a reply replaces the
     * list, a failure keeps the previous one; loading is off afterwards.
     */
    method FetchIssues(call: Call<IssueList>)
      modifies this
      ensures !loading && filter == old(filter)
      ensures requests == old(requests) + [QueryOf(filter)]
      ensures call.Responded? ==> issues == call.body.data
      ensures call.Failed? ==> issues == old(issues)
    {
      loading := true;
      var params := BuildParams(filter);
      requests := requests + [params];
      match Api.Settle(call) {
        case Ok(reply) =>
          issues := reply.data;
        case Err(_) =>
      }
      loading := false;
    }

    /** A select's change: the filter is replaced and the list is fetched again with it. */
    method ChangeFilter(field: FilterField, value: string, call: Call<IssueList>)
      modifies this
      ensures filter == SetField(old(filter), field, value) && !loading
      ensures requests == old(requests) + [QueryOf(filter)]
      ensures call.Responded? ==> issues == call.body.data
      ensures call.Failed? ==> issues == old(issues)
    {
      filter := SetField(filter, field, value);
      FetchIssues(call);
    }

    /** The list area: a spinner while loading, the empty state for no issues, else one card per issue in order. */
    function View(): (v: View)
      reads this
      ensures loading <==> v == LoadingView
      ensures v == EmptyView <==> !loading && issues == []
      ensures v.GridView? ==> |v.cards| == |issues| && forall i :: 0 <= i < |issues| ==> v.cards[i] == CardOf(issues[i])
    {
      if loading then LoadingView
      else if issues == [] then EmptyView
      else GridView(Cards(issues))
    }
  }

  /** Mount, then pick "resolved" in the status select: the first query is empty, the second asks for resolved issues only. */
  method MountThenSelectResolved(mount: Call<IssueList>, change: Call<IssueList>) returns (page: DashboardPage)
    ensures page.requests == [map[], map["status" := "resolved"]]
    ensures page.filter == Filter("", "", "resolved") && !page.loading
  {
    page := new DashboardPage();
    page.FetchIssues(mount);
    assert QueryOf(InitialFilter).Keys == {};
    page.ChangeFilter(StatusField, "resolved", change);
    StatusOnlyQuery("resolved");
  }
}
