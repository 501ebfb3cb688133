/** The request/bid state machine of the backend, on the values of its two
    tables: which combinations of request and bid statuses the three mutating
    routes (post a request, post a bid, accept a bid) can produce, and the
    proof that each of them keeps that combination. */
module Ledger {
  import opened Common
  import opened Records

  type Requests = map<string, ServiceRequest>
  type Bids = map<string, Bid>

  /** Every bid points at a stored request. */
  ghost predicate BidsHaveRequests(requests: Requests, bids: Bids) {
    forall k :: k in bids ==> bids[k].serviceRequestId in requests
  }

  /** No route ever writes `completed` or `cancelled`. */
  ghost predicate OnlyOpenOrInProgress(requests: Requests) {
    forall r :: r in requests ==> requests[r].status == Open || requests[r].status == InProgress
  }

  /** While a request is open, all of its bids are pending. */
  ghost predicate OpenMeansPending(requests: Requests, bids: Bids) {
    forall k :: k in bids && bids[k].serviceRequestId in requests && requests[bids[k].serviceRequestId].status == Open
      ==> bids[k].status == Pending
  }

  /** A request in progress got there by accepting one of its bids. */
  ghost predicate InProgressHasWinner(requests: Requests, bids: Bids) {
    forall r :: r in requests && requests[r].status == InProgress ==>
      exists k :: k in bids && bids[k].serviceRequestId == r && bids[k].status == Accepted
  }

  /** An accepted bid has its request in progress and every sibling rejected. */
  ghost predicate WinnerSettles(requests: Requests, bids: Bids) {
    forall w :: w in bids && bids[w].status == Accepted ==>
      && bids[w].serviceRequestId in requests
      && requests[bids[w].serviceRequestId].status == InProgress
      && forall k :: k in bids && k != w && bids[k].serviceRequestId == bids[w].serviceRequestId ==> bids[k].status == Rejected
  }

  /** The whole-state invariant of the request and bid tables. */
  ghost predicate Lifecycle(requests: Requests, bids: Bids) {
    && BidsHaveRequests(requests, bids)
    && OnlyOpenOrInProgress(requests)
    && OpenMeansPending(requests, bids)
    && InProgressHasWinner(requests, bids)
    && WinnerSettles(requests, bids)
  }

  /** The bid table after a successful accept of `bidId` on request `rid`: the chosen
      bid accepted, every other bid on `rid` rejected, all other bids as they were. */
  function Settle(bids: Bids, rid: string, bidId: string): Bids {
    map k | k in bids ::
      if k == bidId then bids[k].(status := Accepted)
      else if bids[k].serviceRequestId == rid then bids[k].(status := Rejected)
      else bids[k]
  }

  /** The writes of the accept route to the bid table: `bid.status = 'accepted'`,
      then `Object.values(bids).forEach(...)` rejecting, in table order, every other
      bid on the same request. */
  method AcceptInOrder(order: seq<string>, bids: Bids, bidId: string) returns (result: Bids)
    requires IsOrderOf(order, bids) && bidId in bids
    requires forall k :: k in bids ==> bids[k].id == k
    ensures result == Settle(bids, bids[bidId].serviceRequestId, bidId)
  {
    OrderExactly(order, bids);
    var rid := bids[bidId].serviceRequestId;
    result := bids[bidId := bids[bidId].(status := Accepted)];
    var i := 0;
    while i < |order|
      invariant 0 <= i <= |order|
      invariant result.Keys == bids.Keys
      invariant result[bidId] == Settle(bids, rid, bidId)[bidId]
      invariant forall j :: 0 <= j < i ==> result[order[j]] == Settle(bids, rid, bidId)[order[j]]
      invariant forall j :: i <= j < |order| && order[j] != bidId ==> result[order[j]] == bids[order[j]]
    {
      var k := order[i];
      var other := result[k];
      if other.serviceRequestId == rid && other.id != bidId {
        result := result[k := other.(status := Rejected)];
      }
      i := i + 1;
    }
    forall k | k in result ensures result[k] == Settle(bids, rid, bidId)[k] {
      var j :| 0 <= j < |order| && order[j] == k;
    }
  }

  /** Settling touches only statuses: the chosen bid becomes accepted, every other
      bid on its request rejected, and every bid on another request stays as it was. */
  lemma SettleExactly(bids: Bids, bidId: string)
    requires bidId in bids
    ensures var rid := bids[bidId].serviceRequestId; var settled := Settle(bids, rid, bidId);
      && settled.Keys == bids.Keys
      && settled[bidId] == bids[bidId].(status := Accepted)
      && (forall k :: k in bids && k != bidId && bids[k].serviceRequestId == rid ==> settled[k] == bids[k].(status := Rejected))
      && (forall k :: k in bids && bids[k].serviceRequestId != rid ==> settled[k] == bids[k])
  {
  }

  /** Settling changes no key, and no bid's id, request or author. */
  lemma SettleKeepsAllButStatus(bids: Bids, rid: string, bidId: string)
    ensures Settle(bids, rid, bidId).Keys == bids.Keys
    ensures forall k :: k in bids ==>
      var s := Settle(bids, rid, bidId)[k];
      s.id == bids[k].id && s.serviceRequestId == bids[k].serviceRequestId && s.freelancerId == bids[k].freelancerId
  {
  }

  /** The request table after a successful accept: only `rid` moves, to in progress. */
  function StartWork(requests: Requests, rid: string): Requests
    requires rid in requests
  {
    requests[rid := requests[rid].(status := InProgress)]
  }

  /** Starting work changes no key, and no request's id or owner. */
  lemma StartWorkKeepsAllButStatus(requests: Requests, rid: string)
    requires rid in requests
    ensures StartWork(requests, rid).Keys == requests.Keys
    ensures forall k :: k in requests ==>
      StartWork(requests, rid)[k].id == requests[k].id && StartWork(requests, rid)[k].clientId == requests[k].clientId
  {
  }

  /** The status transitions of a successful accept, and the only ones any route
      makes to stored records: a bid whose status changes goes from pending to
      accepted or rejected, and a request whose status changes goes from open to
      in progress. */
  lemma AcceptTransitions(requests: Requests, bids: Bids, bidId: string)
    requires Lifecycle(requests, bids) && bidId in bids
    requires bids[bidId].serviceRequestId in requests && requests[bids[bidId].serviceRequestId].status == Open
    ensures var settled := Settle(bids, bids[bidId].serviceRequestId, bidId);
      forall k :: k in bids && settled[k].status != bids[k].status ==>
        bids[k].status == Pending && (settled[k].status == Accepted || settled[k].status == Rejected)
    ensures var started := StartWork(requests, bids[bidId].serviceRequestId);
      forall k :: k in requests && started[k].status != requests[k].status ==>
        requests[k].status == Open && started[k].status == InProgress
  {
  }

  /** A bid's status follows from its request's: pending exactly while the request
      is open, so the accept route's missing "is the bid pending" check never matters. */
  lemma PendingIffOpen(requests: Requests, bids: Bids, k: string)
    requires Lifecycle(requests, bids) && k in bids
    ensures bids[k].serviceRequestId in requests
    ensures bids[k].status == Pending <==> requests[bids[k].serviceRequestId].status == Open
  {
    var rid := bids[k].serviceRequestId;
    if requests[rid].status != Open {
      assert requests[rid].status == InProgress;
      var w :| w in bids && bids[w].serviceRequestId == rid && bids[w].status == Accepted;
      if w != k {
        assert bids[k].status == Rejected;
      }
    }
  }

  /** Each request has at most one accepted bid. */
  lemma OneWinner(requests: Requests, bids: Bids, v: string, w: string)
    requires Lifecycle(requests, bids)
    requires v in bids && w in bids && bids[v].serviceRequestId == bids[w].serviceRequestId
    requires bids[v].status == Accepted && bids[w].status == Accepted
    ensures v == w
  {
  }

  /** Posting a request keeps the invariant. */
  lemma CreateRequestKeepsLifecycle(requests: Requests, bids: Bids, id: string, q: ServiceRequest)
    requires Lifecycle(requests, bids) && id !in requests && q.status == Open
    ensures Lifecycle(requests[id := q], bids)
  {
    var requests' := requests[id := q];
    forall r | r in requests' && requests'[r].status == InProgress
      ensures exists k :: k in bids && bids[k].serviceRequestId == r && bids[k].status == Accepted
    {
      assert r in requests && requests[r].status == InProgress;
    }
  }

  /** Posting a pending bid on an open request keeps the invariant. */
  lemma CreateBidKeepsLifecycle(requests: Requests, bids: Bids, id: string, b: Bid)
    requires Lifecycle(requests, bids) && id !in bids
    requires b.serviceRequestId in requests && requests[b.serviceRequestId].status == Open
    requires b.status == Pending
    ensures Lifecycle(requests, bids[id := b])
  {
    var bids' := bids[id := b];
    forall r | r in requests && requests[r].status == InProgress
      ensures exists k :: k in bids' && bids'[k].serviceRequestId == r && bids'[k].status == Accepted
    {
      var k :| k in bids && bids[k].serviceRequestId == r && bids[k].status == Accepted;
      assert bids'[k] == bids[k];
    }
  }

  /** Accepting a bid of an open request keeps the invariant. */
  lemma AcceptKeepsLifecycle(requests: Requests, bids: Bids, bidId: string)
    requires Lifecycle(requests, bids) && bidId in bids
    requires bids[bidId].serviceRequestId in requests
    requires requests[bids[bidId].serviceRequestId].status == Open
    ensures Lifecycle(StartWork(requests, bids[bidId].serviceRequestId), Settle(bids, bids[bidId].serviceRequestId, bidId))
  {
    var rid := bids[bidId].serviceRequestId;
    var requests', bids' := StartWork(requests, rid), Settle(bids, rid, bidId);
    assert BidsHaveRequests(requests', bids');
    assert OnlyOpenOrInProgress(requests');
    forall k | k in bids' && bids'[k].serviceRequestId in requests' && requests'[bids'[k].serviceRequestId].status == Open
      ensures bids'[k].status == Pending
    {
      assert bids[k].serviceRequestId != rid;
      assert bids'[k] == bids[k];
    }
    forall r | r in requests' && requests'[r].status == InProgress
      ensures exists k :: k in bids' && bids'[k].serviceRequestId == r && bids'[k].status == Accepted
    {
      if r == rid {
        assert bids'[bidId].status == Accepted;
      } else {
        var k :| k in bids && bids[k].serviceRequestId == r && bids[k].status == Accepted;
        assert bids'[k] == bids[k];
      }
    }
    forall w | w in bids' && bids'[w].status == Accepted
      ensures bids'[w].serviceRequestId in requests'
      ensures requests'[bids'[w].serviceRequestId].status == InProgress
      ensures forall k :: k in bids' && k != w && bids'[k].serviceRequestId == bids'[w].serviceRequestId ==> bids'[k].status == Rejected
    {
      if w != bidId {
        assert bids[w].serviceRequestId != rid && bids'[w] == bids[w];
        forall k | k in bids' && k != w && bids'[k].serviceRequestId == bids'[w].serviceRequestId
          ensures bids'[k].status == Rejected
        {
          assert bids'[k] == bids[k];
        }
      }
    }
  }

  /** The bids of request `rid`. */
  function BidsOn(bids: Bids, rid: string): set<string> {
    set k | k in bids && bids[k].serviceRequestId == rid
  }

  /** The bids of request `rid` with status `s`. */
  function BidsWith(bids: Bids, rid: string, s: BidStatus): set<string> {
    set k | k in bids && bids[k].serviceRequestId == rid && bids[k].status == s
  }

  /** After an accept of one of n bids on a request, exactly n - 1 of them are rejected
      and only the chosen one is accepted. */
  lemma SettleCounts(bids: Bids, bidId: string)
    requires bidId in bids
    ensures var rid := bids[bidId].serviceRequestId;
      && BidsWith(Settle(bids, rid, bidId), rid, Accepted) == {bidId}
      && |BidsWith(Settle(bids, rid, bidId), rid, Rejected)| == |BidsOn(bids, rid)| - 1
  {
    var rid := bids[bidId].serviceRequestId;
    var bids' := Settle(bids, rid, bidId);
    assert BidsWith(bids', rid, Rejected) == BidsOn(bids, rid) - {bidId};
    assert BidsWith(bids', rid, Accepted) == {bidId};
  }
}
