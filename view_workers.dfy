/** The admin "View Workers" page: the worker list filter, status badges and status actions. */
module ViewWorkers {
  import opened Common
  import opened Text
  import Seqs

  /** The fields of an admin worker row the page computes with. */
  datatype AdminWorker = AdminWorker(
    id: int,
    name: string,
    email: string,
    category: string,
    location: string,
    status: string)

  datatype Filters = Filters(searchTerm: string, statusFilter: string, categoryFilter: string)

  const INITIAL_FILTERS := Filters("", "", "")

  predicate MatchesSearch(w: AdminWorker, term: string) {
    IncludesIgnoringCase(w.name, term) ||
    IncludesIgnoringCase(w.email, term) ||
    IncludesIgnoringCase(w.category, term)
  }

  predicate Matches(f: Filters, w: AdminWorker) {
    MatchesSearch(w, f.searchTerm) &&
    (f.statusFilter == "" || w.status == f.statusFilter) &&
    (f.categoryFilter == "" || w.category == f.categoryFilter)
  }

  /** `filteredWorkers`: the workers passing the search, status and category tests, in order. */
  function FilteredWorkers(workers: seq<AdminWorker>, f: Filters): (r: seq<AdminWorker>)
    ensures Seqs.IsSubsequence(r, workers)
    ensures forall w :: w in r ==> w in workers && Matches(f, w)
    ensures forall i :: 0 <= i < |workers| && Matches(f, workers[i]) ==> workers[i] in r
    ensures f.statusFilter != "" ==> forall w :: w in r ==> w.status == f.statusFilter
    ensures f.categoryFilter != "" ==> forall w :: w in r ==> w.category == f.categoryFilter
    ensures forall w :: w in workers ==> multiset(r)[w] == if Matches(f, w) then multiset(workers)[w] else 0
  {
    Seqs.Filter(workers, w => Matches(f, w))
  }

  /** With no search term and no status or category filter, every worker is listed, in order. */
  lemma EmptyFiltersKeepAll(workers: seq<AdminWorker>)
    ensures FilteredWorkers(workers, INITIAL_FILTERS) == workers
  {
    forall i | 0 <= i < |workers| ensures Matches(INITIAL_FILTERS, workers[i]) {
      EmptyIsIncluded(ToLower(workers[i].name));
    }
    Seqs.FilterKeepsAll(workers, w => Matches(INITIAL_FILTERS, w));
  }

  // ---------------------------------------------------------------- badges

  datatype Icon = CheckCircle | AlertTriangle | XCircle

  datatype BadgeVariant = Default | Secondary

  datatype Badge = Badge(variant: BadgeVariant, className: string, icon: Option<Icon>, text: string)

  const KNOWN_STATUSES: set<string> := {"verified", "pending", "suspended"}

  /** `getStatusBadge(status)`. */
  function StatusBadge(status: string): (b: Badge)
    ensures status in KNOWN_STATUSES <==> b.icon.Some?
    ensures status == "verified" ==> b == Badge(Default, "bg-green-500 text-white", Some(CheckCircle), "Verified")
    ensures status == "pending" ==> b == Badge(Default, "bg-yellow-500 text-white", Some(AlertTriangle), "Pending")
    ensures status == "suspended" ==> b == Badge(Default, "bg-red-500 text-white", Some(XCircle), "Suspended")
    ensures status !in KNOWN_STATUSES ==> b == Badge(Secondary, "", None, status)
  {
    match status
    case "verified" => Badge(Default, "bg-green-500 text-white", Some(CheckCircle), "Verified")
    case "pending" => Badge(Default, "bg-yellow-500 text-white", Some(AlertTriangle), "Pending")
    case "suspended" => Badge(Default, "bg-red-500 text-white", Some(XCircle), "Suspended")
    case _ => Badge(Secondary, "", None, status)
  }

  /** The three known statuses get three different badges, none of them the fallback badge. */
  lemma KnownBadgesDistinct(s1: string, s2: string)
    requires s1 in KNOWN_STATUSES && s2 in KNOWN_STATUSES && s1 != s2
    ensures StatusBadge(s1) != StatusBadge(s2)
    ensures StatusBadge(s1).variant == Default
  {
  }

  // ---------------------------------------------------------------- actions

  /** The controls of a worker row and the status string each passes to `handleStatusChange`. */
  datatype Action = View | MenuVerify | MenuSuspend | MenuMessage | MenuReview | Approve | Reject | Reactivate

  /** The actions offered on a row: Approve/Reject only for pending workers, Reactivate only for suspended ones. */
  function OfferedActions(status: string): (acts: set<Action>)
    ensures Approve in acts <==> status == "pending"
    ensures Reject in acts <==> status == "pending"
    ensures Reactivate in acts <==> status == "suspended"
    ensures {View, MenuVerify, MenuSuspend, MenuMessage, MenuReview} <= acts
  {
    {View, MenuVerify, MenuSuspend, MenuMessage, MenuReview} +
    (if status == "pending" then {Approve, Reject} else {}) +
    (if status == "suspended" then {Reactivate} else {})
  }

  /** The `newStatus` argument an action passes; `View` calls no handler. */
  function ActionStatus(a: Action): (r: Option<string>)
    ensures r.None? <==> a == View
    ensures r == Some("verify") <==> a in {Approve, MenuVerify}
  {
    match a
    case View => None
    case MenuVerify => Some("verify")
    case MenuSuspend => Some("suspend")
    case MenuMessage => Some("message")
    case MenuReview => Some("review")
    case Approve => Some("verify")
    case Reject => Some("reject")
    case Reactivate => Some("reactivate")
  }

  /**
   * The strings the actions pass are verbs ("verify", "suspend", ...), never
   * one of the status names the badges know ("verified", "pending",
   * "suspended"): a worker whose status were set to one of them would get the
   * fallback badge.
   */
  lemma ActionStatusesAreNotBadgeStatuses(a: Action)
    requires ActionStatus(a).Some?
    ensures ActionStatus(a).value !in KNOWN_STATUSES
    ensures StatusBadge(ActionStatus(a).value).icon.None?
  {
  }

  const STATUS_CHANGED := "Worker status has been changed to "

  /**
   * `handleStatusChange(workerId, newStatus)`: only a toast is shown; the
   * worker list it is called on is returned as it was, and the toast names
   * the new status right after the fixed wording.
   */
  function HandleStatusChange(workers: seq<AdminWorker>, workerId: int, newStatus: string)
    : (r: (seq<AdminWorker>, Toast))
    ensures r.0 == workers
    ensures r.1.title == "Status Updated" && !r.1.destructive
    ensures |r.1.description| == |STATUS_CHANGED| + |newStatus| + 1
    ensures r.1.description[..|STATUS_CHANGED|] == STATUS_CHANGED
    ensures OccursAt(r.1.description, newStatus, |STATUS_CHANGED|)
    ensures r.1.description[|STATUS_CHANGED| + |newStatus|..] == "."
  {
    var description := STATUS_CHANGED + newStatus + ".";
    assert description[..|STATUS_CHANGED|] == STATUS_CHANGED;
    assert description[|STATUS_CHANGED|..|STATUS_CHANGED| + |newStatus|] == newStatus;
    assert description[|STATUS_CHANGED| + |newStatus|..] == ".";
    (workers, Toast("Status Updated", description, false))
  }
}
