/** internal/project: which tool-call update a call's status becomes. */
module Projection {
  import opened Harness
  import opened Mirrors

  datatype Update =
    | CallStart(id: CallId)                     // pending tool_call
    | CallProgress(id: CallId)                  // in_progress
    | CallFailed(id: CallId, byClient: bool)    // synthesised after a cancel
    | CallResult(id: CallId, failed: bool)      // the tool's own result
  {
    predicate Final() {
      CallFailed? || CallResult?
    }
  }

  /** Terminal (project.go) has its own loops and its own notion of "ended"; it is the mirror's. */
  method Terminal(status: ToolCallStatus) returns (terminal: bool)
    ensures terminal <==> Finishes(status)
  {
    if status.error {
      return true;
    }
    var byId: map<OpId, OpStatus> := map[];
    for i := 0 to |status.operations|
      invariant forall id :: (if id in byId then byId[id] else Unset) == LastStatus(status.operations[..i], id)
    {
      assert status.operations[..i + 1][..i] == status.operations[..i];
      byId := byId[status.operations[i].id := status.operations[i].status];
    }
    assert status.operations[..|status.operations|] == status.operations;
    for i := 0 to |status.waitingFor|
      invariant forall j | 0 <= j < i :: LastStatus(status.operations, status.waitingFor[j]).Terminal()
    {
      var id := status.waitingFor[i];
      assert (if id in byId then byId[id] else Unset) == LastStatus(status.operations, id);
      if id !in byId {
        return false;
      }
      match byId[id]
      case Completed =>
      case Failed =>
      case Canceled =>
      case _ => return false;
    }
    return true;
  }

  /** ToolResult shows a failure for an error and for any failed or canceled operation. */
  predicate ResultFailed(status: ToolCallStatus) {
    status.error || exists i | 0 <= i < |status.operations| ::
                      status.operations[i].status.Failed? || status.operations[i].status.Canceled?
  }

  method ToolResult(status: ToolCallStatus) returns (update: Update)
    ensures update == CallResult(status.callId, ResultFailed(status))
  {
    var failed := status.error;
    for i := 0 to |status.operations|
      invariant failed <==> status.error || exists j | 0 <= j < i ::
                              status.operations[j].status.Failed? || status.operations[j].status.Canceled?
    {
      if status.operations[i].status.Failed? || status.operations[i].status.Canceled? {
        failed := true;
      }
    }
    update := CallResult(status.callId, failed);
  }
}
