/**
 * `AbstractTransportExportAction.newResponse`: the broadcast framework fills
 * one slot per shard with the shard's response, with the failure that shard
 * raised, or leaves it null; the action counts the slots into an
 * `ExportResponse`.
 */
module ExportResponses {
  import opened Wrappers

  /** The part of a `ShardExportResponse` the model keeps. */
  datatype ShardExportResponse = ShardExportResponse(nodeId: string, index: string, shardId: int, numExported: int)

  /** A `BroadcastShardOperationFailedException`. */
  datatype BroadcastShardFailure = BroadcastShardFailure(index: string, shardId: int, reason: string)

  /** A `DefaultShardOperationFailedException`, built from a broadcast failure. */
  datatype ShardOperationFailure = ShardOperationFailure(index: string, shardId: int, reason: string)

  /** One slot of the `shardsResponses` array. */
  datatype ShardSlot =
    | Missing                              // null
    | Failed(failure: BroadcastShardFailure)
    | Responded(response: ShardExportResponse)

  datatype ExportResponse = ExportResponse(
    responses: seq<ShardExportResponse>,
    totalShards: int,
    successfulShards: int,
    failedShards: int,
    shardFailures: Option<seq<ShardOperationFailure>>)

  function ToOperationFailure(f: BroadcastShardFailure): ShardOperationFailure {
    ShardOperationFailure(f.index, f.shardId, f.reason)
  }

  // Reference definitions over the slot sequence, each by one pass from the
  // front, and independent of the loop below.

  /** The responses, in slot order. */
  function Responses(slots: seq<ShardSlot>): (r: seq<ShardExportResponse>)
    ensures |r| <= |slots|
  {
    if slots == [] then []
    else (if slots[0].Responded? then [slots[0].response] else []) + Responses(slots[1..])
  }

  /** The reported failures, in slot order. */
  function Failures(slots: seq<ShardSlot>): (r: seq<ShardOperationFailure>)
    ensures |r| <= |slots|
  {
    if slots == [] then []
    else (if slots[0].Failed? then [ToOperationFailure(slots[0].failure)] else []) + Failures(slots[1..])
  }

  /** The number of slots that hold no response. */
  function MissingCount(slots: seq<ShardSlot>): nat {
    if slots == [] then 0 else (if slots[0].Missing? then 1 else 0) + MissingCount(slots[1..])
  }

  /** Every slot falls into exactly one of the three classes. */
  lemma {:induction false} SlotsPartition(slots: seq<ShardSlot>)
    ensures |Responses(slots)| + |Failures(slots)| + MissingCount(slots) == |slots|
  {
    if slots != [] {
      SlotsPartition(slots[1..]);
    }
  }

  // The three passes distribute over concatenation.

  lemma {:induction false} ResponsesAppend(a: seq<ShardSlot>, b: seq<ShardSlot>)
    ensures Responses(a + b) == Responses(a) + Responses(b)
  {
    if a == [] {
      assert a + b == b;
    } else {
      assert (a + b)[0] == a[0] && (a + b)[1..] == a[1..] + b;
      ResponsesAppend(a[1..], b);
    }
  }

  lemma {:induction false} FailuresAppend(a: seq<ShardSlot>, b: seq<ShardSlot>)
    ensures Failures(a + b) == Failures(a) + Failures(b)
  {
    if a == [] {
      assert a + b == b;
    } else {
      assert (a + b)[0] == a[0] && (a + b)[1..] == a[1..] + b;
      FailuresAppend(a[1..], b);
    }
  }

  lemma {:induction false} MissingCountAppend(a: seq<ShardSlot>, b: seq<ShardSlot>)
    ensures MissingCount(a + b) == MissingCount(a) + MissingCount(b)
  {
    if a == [] {
      assert a + b == b;
    } else {
      assert (a + b)[0] == a[0] && (a + b)[1..] == a[1..] + b;
      MissingCountAppend(a[1..], b);
    }
  }

  /** There are failures to report exactly when some slot holds a failure. */
  lemma {:induction false} FailuresEmpty(slots: seq<ShardSlot>)
    ensures Failures(slots) == [] <==> forall i :: 0 <= i < |slots| ==> !slots[i].Failed?
  {
    if slots != [] {
      FailuresEmpty(slots[1..]);
      assert forall i :: 1 <= i < |slots| ==> slots[i] == slots[1..][i - 1];
    }
  }

  /** A response appears in the result exactly when some slot holds it. */
  lemma {:induction false} ResponsesMembers(slots: seq<ShardSlot>, r: ShardExportResponse)
    ensures r in Responses(slots) <==> Responded(r) in slots
  {
    if slots != [] {
      ResponsesMembers(slots[1..], r);
      assert slots == [slots[0]] + slots[1..];
    }
  }

  /**
   * `newResponse`: one counting pass over the slots.  A null slot counts as
   * failed without a reported failure, a failure slot counts as failed and
   * reports one failure, every other slot is a successful response.  The
   * failure list is only created by the first failure.
   */
  method NewResponse(shardsResponses: array<ShardSlot>) returns (r: ExportResponse)
    ensures r.responses == Responses(shardsResponses[..])
    ensures r.totalShards == shardsResponses.Length
    ensures r.successfulShards == |r.responses|
    ensures r.failedShards == MissingCount(shardsResponses[..]) + |Failures(shardsResponses[..])|
    ensures r.successfulShards + r.failedShards == r.totalShards
    ensures r.shardFailures.None? <==> forall i :: 0 <= i < shardsResponses.Length ==> !shardsResponses[i].Failed?
    ensures r.shardFailures.Some? ==> r.shardFailures.value == Failures(shardsResponses[..])
  {
    var successfulShards := 0;
    var failedShards := 0;
    var shardFailures: Option<seq<ShardOperationFailure>> := None;
    var responses: seq<ShardExportResponse> := [];
    for i := 0 to shardsResponses.Length
      invariant responses == Responses(shardsResponses[..i])
      invariant successfulShards == |responses|
      invariant failedShards == MissingCount(shardsResponses[..i]) + |Failures(shardsResponses[..i])|
      invariant shardFailures.None? ==> Failures(shardsResponses[..i]) == []
      invariant shardFailures.Some? ==> shardFailures.value == Failures(shardsResponses[..i]) != []
    {
      var shardResponse := shardsResponses[i];
      assert shardsResponses[..i + 1] == shardsResponses[..i] + [shardResponse];
      ResponsesAppend(shardsResponses[..i], [shardResponse]);
      FailuresAppend(shardsResponses[..i], [shardResponse]);
      MissingCountAppend(shardsResponses[..i], [shardResponse]);
      if shardResponse.Missing? {
        failedShards := failedShards + 1;
      } else if shardResponse.Failed? {
        failedShards := failedShards + 1;
        if shardFailures.None? {
          shardFailures := Some([]);
        }
        shardFailures := Some(shardFailures.value + [ToOperationFailure(shardResponse.failure)]);
      } else {
        responses := responses + [shardResponse.response];
        successfulShards := successfulShards + 1;
      }
    }
    assert shardsResponses[..shardsResponses.Length] == shardsResponses[..];
    SlotsPartition(shardsResponses[..]);
    FailuresEmpty(shardsResponses[..]);
    r := ExportResponse(responses, shardsResponses.Length, successfulShards, failedShards, shardFailures);
  }
}
