/** The leave approvals page: the list of pending requests and the approve
    and reject actions on them. */
module LeaveApprovalsPage {

  import opened Wrappers
  import opened Seqs

  /** A leave request's `status`, with the four values the API declares. */
  datatype LeaveStatus = Pending | Approved | Rejected | Cancelled

  datatype LeaveRequest = LeaveRequest(id: nat, employeeId: nat, status: LeaveStatus)

  predicate IsPending(r: LeaveRequest) {
    r.status == Pending
  }

  /** The listed requests: the pending ones among those fetched, in the order
      the server sent them. */
  function PendingOnly(fetched: seq<LeaveRequest>): (r: seq<LeaveRequest>)
    ensures forall i :: 0 <= i < |r| ==> r[i].status == Pending
    ensures forall x :: x in r <==> x in fetched && x.status == Pending
    ensures Subseq(r, fetched)
  {
    var r := Filter(IsPending, fetched);
    assert forall i :: 0 <= i < |r| ==> r[i] in r;
    r
  }

  /** A list that holds only pending requests is listed as it stands. */
  lemma PendingOnlyKeepsPendingList(fetched: seq<LeaveRequest>)
    requires forall i :: 0 <= i < |fetched| ==> fetched[i].status == Pending
    ensures PendingOnly(fetched) == fetched
  {
    FilterAll(IsPending, fetched);
  }

  /** Listing is idempotent. */
  lemma PendingOnlyIdempotent(fetched: seq<LeaveRequest>)
    ensures PendingOnly(PendingOnly(fetched)) == PendingOnly(fetched)
  {
    PendingOnlyKeepsPendingList(PendingOnly(fetched));
  }

  /** The body of an update request. */
  datatype Update = Update(id: nat, status: string, rejectionReason: Option<string>)

  /** `handleApprove`: the approval is sent only when the confirmation is accepted. */
  function Approve(id: nat, confirmed: bool): (call: Option<Update>)
    ensures call.Some? <==> confirmed
    ensures call.Some? ==> call.value.id == id && call.value.status == "approved"
    ensures call.Some? ==> call.value.rejectionReason.None?
  {
    if confirmed then Some(Update(id, "approved", None)) else None
  }

  /** The page's state around the reject dialog. */
  datatype PageState = PageState(
    requests: seq<LeaveRequest>,
    selected: Option<LeaveRequest>,
    rejectDialog: bool,
    rejectReason: string)

  /** `handleRejectClick`: remember the request and open the dialog. */
  function RejectClick(s: PageState, request: LeaveRequest): (r: PageState)
    ensures r.selected == Some(request) && r.rejectDialog
    ensures r.requests == s.requests && r.rejectReason == s.rejectReason
  {
    s.(selected := Some(request), rejectDialog := true)
  }

  /** Typing the reason. */
  function EnterReason(s: PageState, reason: string): (r: PageState)
    ensures r.rejectReason == reason
    ensures r.(rejectReason := s.rejectReason) == s
  {
    s.(rejectReason := reason)
  }

  datatype RejectStep = RejectStep(state: PageState, call: Option<Update>)

  /** `handleRejectConfirm`: with no selected request nothing happens;
      otherwise the rejection is sent with the typed reason, and when it
      succeeds the dialog closes and the reason and selection are cleared. */
  function RejectConfirm(s: PageState, succeeded: bool): (r: RejectStep)
    ensures r.call.None? <==> s.selected.None?
    ensures s.selected.None? ==> r.state == s
    ensures r.call.Some? ==>
              r.call.value == Update(s.selected.value.id, "rejected", Some(s.rejectReason))
    ensures r.call.Some? && succeeded ==>
              !r.state.rejectDialog && r.state.rejectReason == "" && r.state.selected.None?
    ensures !succeeded ==> r.state == s
    ensures r.state.requests == s.requests
  {
    match s.selected
    case None => RejectStep(s, None)
    case Some(request) =>
      var call := Update(request.id, "rejected", Some(s.rejectReason));
      if succeeded then RejectStep(s.(rejectDialog := false, rejectReason := "", selected := None), Some(call))
      else RejectStep(s, Some(call))
  }

  /** Clicking reject on a request, typing a reason and confirming sends that
      request's rejection with exactly that reason. */
  lemma RejectSendsTypedReason(s: PageState, request: LeaveRequest, reason: string, succeeded: bool)
    ensures RejectConfirm(EnterReason(RejectClick(s, request), reason), succeeded).call
            == Some(Update(request.id, "rejected", Some(reason)))
  {
  }

  /** After a successful rejection a second confirm sends nothing. */
  lemma RejectConfirmOnce(s: PageState)
    requires s.selected.Some?
    ensures RejectConfirm(RejectConfirm(s, true).state, true).call.None?
  {
  }
}
