/**
 * The writer requests panel: the list of requests being processed, which buttons it
 * disables and relabels, the expanded card, and the empty-list message.
 */
module WriterRequests {
  import opened JsText
  import opened Api

  datatype Action = Approve | Reject

  /** An entry of `processingRequests`. */
  datatype Processing = Processing(id: string, action: Action)

  /** `handleApprove` / `handleReject`: an entry is appended, even when one is already there. */
  function Started(list: seq<Processing>, id: string, action: Action): (r: seq<Processing>)
    ensures |r| == |list| + 1 && r[..|list|] == list && r[|list|] == Processing(id, action)
  {
    list + [Processing(id, action)]
  }

  /** A mutation's `onSuccess`: every entry for the request goes. */
  function Finished(list: seq<Processing>, id: string): (r: seq<Processing>)
    ensures |r| <= |list|
    ensures forall k :: 0 <= k < |r| ==> r[k].id != id
  {
    Filter(list, (e: Processing) => e.id != id)
  }

  /** `processingRequests.some(r => r.id === id && r.action === action)` */
  predicate InProgress(list: seq<Processing>, id: string, action: Action) {
    exists k :: 0 <= k < |list| && list[k] == Processing(id, action)
  }

  /** The reject button is disabled while an approval of the same request is in progress. */
  predicate RejectDisabled(list: seq<Processing>, id: string) {
    InProgress(list, id, Approve)
  }

  /** The approve button is disabled while a rejection of the same request is in progress. */
  predicate ApproveDisabled(list: seq<Processing>, id: string) {
    InProgress(list, id, Reject)
  }

  function RejectCaption(list: seq<Processing>, id: string): string {
    if InProgress(list, id, Reject) then "Rejecting..." else "Reject"
  }

  function ApproveCaption(list: seq<Processing>, id: string): string {
    if InProgress(list, id, Approve) then "Approving..." else "Approve"
  }

  lemma InProgressIsIn(list: seq<Processing>, id: string, action: Action)
    ensures InProgress(list, id, action) <==> Processing(id, action) in list
  {
    if Processing(id, action) in list {
      var k :| 0 <= k < |list| && list[k] == Processing(id, action);
    }
  }

  /** Starting an approval disables the request's reject button and relabels its approve
      button, which stays enabled unless a rejection is already in progress; other requests'
      buttons are unaffected. */
  lemma StartApproval(list: seq<Processing>, id: string, other: string)
    requires other != id
    ensures var after := Started(list, id, Approve);
      && RejectDisabled(after, id) && ApproveCaption(after, id) == "Approving..."
      && (ApproveDisabled(after, id) <==> ApproveDisabled(list, id))
      && (RejectDisabled(after, other) <==> RejectDisabled(list, other))
      && (ApproveDisabled(after, other) <==> ApproveDisabled(list, other))
  {
    var after := Started(list, id, Approve);
    InProgressIsIn(after, id, Approve);
    InProgressIsIn(after, id, Reject);
    InProgressIsIn(list, id, Reject);
    InProgressIsIn(after, other, Approve);
    InProgressIsIn(list, other, Approve);
    InProgressIsIn(after, other, Reject);
    InProgressIsIn(list, other, Reject);
  }

  /** Starting a rejection disables the request's approve button and relabels its reject button. */
  lemma StartRejection(list: seq<Processing>, id: string)
    ensures var after := Started(list, id, Reject);
      && ApproveDisabled(after, id) && RejectCaption(after, id) == "Rejecting..."
      && (RejectDisabled(after, id) <==> RejectDisabled(list, id))
  {
    var after := Started(list, id, Reject);
    InProgressIsIn(after, id, Reject);
    InProgressIsIn(after, id, Approve);
    InProgressIsIn(list, id, Approve);
  }

  /** After a success for a request both its buttons are enabled with their plain captions, and
      every other request's entries are kept. */
  lemma FinishReleases(list: seq<Processing>, id: string, e: Processing)
    ensures var after := Finished(list, id);
      && !RejectDisabled(after, id) && !ApproveDisabled(after, id)
      && RejectCaption(after, id) == "Reject" && ApproveCaption(after, id) == "Approve"
      && (e.id != id ==> (e in after <==> e in list))
  {
    var after := Finished(list, id);
    FilterMembers(list, (e: Processing) => e.id != id, Processing(id, Approve));
    FilterMembers(list, (e: Processing) => e.id != id, Processing(id, Reject));
    FilterMembers(list, (e: Processing) => e.id != id, e);
    InProgressIsIn(after, id, Approve);
    InProgressIsIn(after, id, Reject);
  }

  /** `toggleExpand(id)` */
  function Toggled(expanded: Option<string>, id: string): (r: Option<string>)
    ensures r == Some(id) <==> expanded != Some(id)
    ensures r.Some? ==> r.value == id
  {
    if expanded == Some(id) then None else Some(id)
  }

  /** Toggling the same card twice restores the state when no card or that card was expanded;
      when another card was expanded it leaves every card collapsed. */
  lemma ToggleTwice(expanded: Option<string>, id: string)
    ensures expanded.None? || expanded == Some(id) ==> Toggled(Toggled(expanded, id), id) == expanded
    ensures expanded.Some? && expanded.value != id ==> Toggled(Toggled(expanded, id), id) == None
  {
  }

  /** The empty message shows when the fetched list is empty, not while there is no data. */
  predicate EmptyMessageShown<T>(requests: Option<seq<T>>) {
    requests.Some? && |requests.value| == 0
  }

  // ----- loading the list -----

  /** `fetchRequests()` as written, once `apiClient` has settled as `reply`; `bodyStatus` is the
      text of the parsed body's `status` property, "undefined" when it has none. The guard reads
      `ok` on the parsed body and then calls `.json()` on it, so the query always fails; without
      a truthy `ok` the message is "HTTP error! status: " and that text. The catch rethrows every
      failure as an `Error` with the same message, which is all the panel shows of it. */
  function FetchRequestsAsWritten<T>(reply: Outcome<Body<seq<T>>>, bodyStatus: string): (r: Outcome<Option<seq<T>>>)
    ensures r.Threw?
    ensures reply.Returned? && reply.value.Object? && !reply.value.okTruthy ==>
      r.failure == ThrownError("HTTP error! status: " + bodyStatus)
    ensures reply.Threw? ==> r.failure == reply.failure
  {
    GuardedJson(reply, "HTTP error! status: " + bodyStatus)
  }

  /** `fetchRequests()` returning the parsed body `apiClient` returns; `null` is no list. */
  function FetchRequests<T>(reply: Outcome<Body<seq<T>>>): (r: Outcome<Option<seq<T>>>)
    ensures r.Returned? <==> reply.Returned?
    ensures r.Returned? ==> (r.value.Some? <==> reply.value.Object?)
    ensures r.Returned? && r.value.Some? ==> r.value.value == reply.value.content
    ensures reply.Threw? ==> r.failure == reply.failure
  {
    match reply
    case Threw(f) => Threw(f)
    case Returned(Null) => Returned(None)
    case Returned(Object(list, _)) => Returned(Some(list))
  }

  /** What the panel renders once the query has settled: "Error loading requests" with the
      failure, or the list. */
  datatype View<T> = ErrorView(failure: Failure) | ListView(requests: Option<seq<T>>)

  function PanelView<T>(fetched: Outcome<Option<seq<T>>>): (v: View<T>)
    ensures v.ErrorView? <==> fetched.Threw?
    ensures v.ListView? ==> v.requests == fetched.value
  {
    match fetched
    case Threw(f) => ErrorView(f)
    case Returned(requests) => ListView(requests)
  }

  /** As written the panel shows "Error loading requests" whatever the server answers, so
      neither the list nor the empty message ever shows; reading the parsed body shows the
      list of a successful answer, and the empty message exactly when that list is empty. */
  lemma PanelAlwaysErrs<T>(status: int, text: string, body: Body<seq<T>>, bodyStatus: string)
    ensures PanelView(FetchRequestsAsWritten(ApiClient(status, text, body), bodyStatus)).ErrorView?
    ensures var v := PanelView(FetchRequests(ApiClient(status, text, body)));
      && (v.ListView? <==> OkStatus(status))
      && (v.ListView? && status != 204 && body.Object? ==> v.requests == Some(body.content))
      && (v.ListView? ==> (EmptyMessageShown(v.requests) <==> status != 204 && body.Object? && body.content == []))
  {
  }

  /** The panel's state. */
  class WriterRequestsPanel {
    var expanded: Option<string>
    var processing: seq<Processing>

    constructor()
      ensures expanded == None && processing == []
    {
      expanded := None;
      processing := [];
    }

    method HandleApprove(id: string)
      modifies this
      ensures processing == Started(old(processing), id, Approve) && expanded == old(expanded)
    {
      processing := processing + [Processing(id, Approve)];
    }

    method HandleReject(id: string)
      modifies this
      ensures processing == Started(old(processing), id, Reject) && expanded == old(expanded)
    {
      processing := processing + [Processing(id, Reject)];
    }

    /** Either mutation's `onSuccess` for request `id`. */
    method MutationSucceeded(id: string)
      modifies this
      ensures processing == Finished(old(processing), id) && expanded == old(expanded)
    {
      processing := Filter(processing, (e: Processing) => e.id != id);
    }

    method ToggleExpand(id: string)
      modifies this
      ensures expanded == Toggled(old(expanded), id) && processing == old(processing)
    {
      expanded := if expanded == Some(id) then None else Some(id);
    }
  }
}
