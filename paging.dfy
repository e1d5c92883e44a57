/** The listing (sync table) functions: which page each invocation asks
    for, and when it hands the host a continuation for the next one. The
    HTTP calls are not modelled: the page of raw records the service
    returns is an input, and the enrichment of each record (which needs the
    joined lookup collections) is a function-valued input. */
module Paging {
  import opened Wrappers
  import opened Seqs

  /** State carried between invocations by the host. */
  datatype Continuation = Continuation(pageNumber: int)

  /** The page an invocation requests and the continuation it emits. */
  datatype PageStep = PageStep(requested: int, next: Option<Continuation>)

  /** The requested page is the incoming continuation's page number, or 1
      when there is none or it is 0; a continuation for the following page
      is emitted exactly when the page came back full. */
  function Paginate(incoming: Option<Continuation>, count: nat, pageSize: nat): (r: PageStep)
    ensures incoming.None? ==> r.requested == 1
    ensures incoming.Some? && incoming.value.pageNumber == 0 ==> r.requested == 1
    ensures incoming.Some? && incoming.value.pageNumber != 0 ==> r.requested == incoming.value.pageNumber
    ensures r.next.Some? <==> count == pageSize
    ensures r.next.Some? ==> r.next.value.pageNumber == r.requested + 1
  {
    var page := if incoming.Some? && incoming.value.pageNumber != 0 then incoming.value.pageNumber else 1;
    PageStep(page, if count == pageSize then Some(Continuation(page + 1)) else None)
  }

  datatype Listing = Opportunities | Companies | People | Leads | ActivityTypes | Projects

  /** The listings whose response body is one array of records. */
  type RecordListing = l: Listing | !l.ActivityTypes? witness Opportunities

  datatype Verb = Get | Post

  /** The listing request sent to the CRM. */
  datatype ListRequest = ListRequest(
    verb: Verb,
    endpoint: string,
    pageSize: nat,
    pageNumber: Option<int>,
    sortBy: Option<string>,
    sortDirection: Option<string>,
    computedValues: bool)

  /** The request each listing sends for a page. Opportunities come newest
      first; the other searches are ordered by name. The projects listing
      asks for 200 records and sends no page number at all. */
  function RequestFor(listing: Listing, page: int, pageSize: nat): (r: ListRequest)
    ensures listing != Projects ==> r.pageNumber == Some(page) && r.pageSize == pageSize && r.computedValues
    ensures listing == Projects ==> r.pageNumber == None && r.pageSize == 200 && r.sortBy == None && !r.computedValues
    ensures r.verb == Get <==> listing == ActivityTypes
    ensures r.sortDirection.Some? <==> listing == Opportunities
    ensures listing == Opportunities ==> r.sortBy == Some("date_created") && r.sortDirection == Some("desc")
    ensures listing != Opportunities && listing != Projects ==> r.sortBy == Some("name")
    ensures r.endpoint == match listing
      case Opportunities => "opportunities/search"
      case Companies => "companies/search"
      case People => "people/search"
      case Leads => "leads/search"
      case ActivityTypes => "activity_types"
      case Projects => "projects/search"
  {
    match listing
    case Opportunities =>
      ListRequest(Post, "opportunities/search", pageSize, Some(page), Some("date_created"), Some("desc"), true)
    case Companies =>
      ListRequest(Post, "companies/search", pageSize, Some(page), Some("name"), None, true)
    case People =>
      ListRequest(Post, "people/search", pageSize, Some(page), Some("name"), None, true)
    case Leads =>
      ListRequest(Post, "leads/search", pageSize, Some(page), Some("name"), None, true)
    case ActivityTypes =>
      ListRequest(Get, "activity_types", pageSize, Some(page), Some("name"), None, true)
    case Projects =>
      ListRequest(Post, "projects/search", 200, None, None, None, false)
  }

  /** What a sync invocation hands back to the host. */
  datatype SyncResult<E> = SyncResult(request: ListRequest, result: seq<E>, continuation: Option<Continuation>)

  /** One invocation of a record listing: `body` is the page the service
      returned for the request, `enrich` the enrichment of one raw record. */
  function SyncPage<R, E>(listing: RecordListing, incoming: Option<Continuation>, body: seq<R>,
                          enrich: R -> E, pageSize: nat): (r: SyncResult<E>)
    ensures r.request == RequestFor(listing, Paginate(incoming, |body|, pageSize).requested, pageSize)
    ensures |r.result| == |body|
    ensures forall i :: 0 <= i < |body| ==> r.result[i] == enrich(body[i])
    ensures r.continuation.Some? <==> |body| == pageSize
    ensures r.continuation == Paginate(incoming, |body|, pageSize).next
  {
    var step := Paginate(incoming, |body|, pageSize);
    var records := MapSeq(body, enrich);
    SyncResult(RequestFor(listing, step.requested, pageSize), records, step.next)
  }

  /** The activity-type listing: user types, then system types, each tagged
      with its origin; the full-page test is on the combined count. */
  function SyncActivityTypes<R, E>(incoming: Option<Continuation>, user: seq<R>, system: seq<R>,
                                   enrich: (R, string) -> E, pageSize: nat): (r: SyncResult<E>)
    ensures r.request == RequestFor(ActivityTypes, Paginate(incoming, |user| + |system|, pageSize).requested, pageSize)
    ensures |r.result| == |user| + |system|
    ensures forall i :: 0 <= i < |user| ==> r.result[i] == enrich(user[i], "user")
    ensures forall i :: 0 <= i < |system| ==> r.result[|user| + i] == enrich(system[i], "system")
    ensures r.continuation.Some? <==> |user| + |system| == pageSize
    ensures r.continuation == Paginate(incoming, |user| + |system|, pageSize).next
  {
    var enrichedUser := MapSeq(user, (a: R) => enrich(a, "user"));
    var enrichedSystem := MapSeq(system, (a: R) => enrich(a, "system"));
    var all := enrichedUser + enrichedSystem;
    var step := Paginate(incoming, |all|, pageSize);
    SyncResult(RequestFor(ActivityTypes, step.requested, pageSize), all, step.next)
  }

  /** Number of leading pages that came back full. */
  function FullPrefix(counts: seq<nat>, pageSize: nat): (n: nat)
    ensures n <= |counts|
    ensures forall i :: 0 <= i < n ==> counts[i] == pageSize
    ensures n < |counts| ==> counts[n] != pageSize
    decreases |counts|
  {
    if |counts| == 0 || counts[0] != pageSize then 0 else 1 + FullPrefix(counts[1..], pageSize)
  }

  /** The page numbers of a host that keeps re-invoking a listing with
      the continuation it was handed, until none is handed back; `counts[i]`
      is the size of the page the service returns to the i-th invocation. */
  ghost function Drive(incoming: Option<Continuation>, counts: seq<nat>, pageSize: nat): (pages: seq<int>)
    ensures |pages| <= |counts|
    ensures |pages| > 0 <==> |counts| > 0
    decreases |counts|
  {
    if |counts| == 0 then []
    else
      var step := Paginate(incoming, counts[0], pageSize);
      [step.requested] + (if step.next.None? then [] else Drive(step.next, counts[1..], pageSize))
  }

  /** From page k >= 1 the host is handed consecutive page numbers k, k+1,
      ... and stops right after the first page that is not full. Every
      listing except projects requests exactly these pages. */
  lemma {:induction false} DriveFrom(k: int, counts: seq<nat>, pageSize: nat)
    requires k >= 1
    ensures var pages := Drive(Some(Continuation(k)), counts, pageSize);
      && |pages| == (if FullPrefix(counts, pageSize) == |counts| then |counts| else FullPrefix(counts, pageSize) + 1)
      && forall i :: 0 <= i < |pages| ==> pages[i] == k + i
    decreases |counts|
  {
    if |counts| > 0 && counts[0] == pageSize {
      DriveFrom(k + 1, counts[1..], pageSize);
    }
  }

  /** A traversal without a continuation starts at page 1 and is handed
      page numbers 1, 2, ... in order. */
  lemma DriveFromStart(counts: seq<nat>, pageSize: nat)
    ensures Drive(None, counts, pageSize) == Drive(Some(Continuation(1)), counts, pageSize)
    ensures var pages := Drive(None, counts, pageSize);
      forall i :: 0 <= i < |pages| ==> pages[i] == i + 1
  {
    DriveFrom(1, counts, pageSize);
  }

  /** The projects request does not depend on the page: every invocation,
      whatever continuation it was handed, sends the same request. */
  lemma ProjectsRequestIgnoresPage(page: int, pageSize: nat)
    ensures RequestFor(Projects, page, pageSize) == RequestFor(Projects, 1, pageSize)
  {
  }

  /** Every page of a run of full pages is full. */
  lemma {:induction false} FullPrefixOfFullPages(n: nat, pageSize: nat)
    ensures FullPrefix(seq(n, _ => pageSize), pageSize) == n
    decreases n
  {
    if n > 0 {
      assert seq(n, _ => pageSize)[1..] == seq(n - 1, _ => pageSize);
      FullPrefixOfFullPages(n - 1, pageSize);
    }
  }

  /** Since the projects request is the same on every invocation, a service
      that answers the first one with a full page answers every one with a
      full page. Then the host is handed a continuation after each of the n
      invocations it makes, and every one of them sent the same request:
      the traversal never ends on its own. */
  lemma ProjectsFullPageNeverEnds(k: int, n: nat, pageSize: nat)
    requires k >= 1
    ensures var pages := Drive(Some(Continuation(k)), seq(n, _ => pageSize), pageSize);
      && |pages| == n
      && (forall i :: 0 <= i < n ==> RequestFor(Projects, pages[i], pageSize) == RequestFor(Projects, k, pageSize))
      && (n > 0 ==> Paginate(Some(Continuation(pages[n - 1])), pageSize, pageSize).next == Some(Continuation(k + n)))
  {
    FullPrefixOfFullPages(n, pageSize);
    DriveFrom(k, seq(n, _ => pageSize), pageSize);
  }
}
