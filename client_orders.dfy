/**
 * The customer's order list as Orders.js and CustomerDashboard.js keep it:
 * the local cancel, the socket replace-by-id, the cancel button and the
 * reversed display.
 */
module OrderList {
  import opened Common
  import opened OrderModel
  import OL = OrderLifecycle
  import Lists
  import Timeline

  /** The ids of the listed orders, in order. */
  function Ids(list: seq<Order>): (ids: seq<Id>)
    ensures |ids| == |list| && forall i :: 0 <= i < |list| ==> ids[i] == list[i].id
  {
    seq(|list|, i requires 0 <= i < |list| => list[i].id)
  }

  /**
   * The socket handler: `prev.map(o => o._id === updated._id ? updated : o)`.
   * Every order with the updated order's id is replaced wholesale; the
   * others stay.
   */
  function ReplaceById(list: seq<Order>, updated: Order): (r: seq<Order>)
    ensures |r| == |list|
    ensures forall i :: 0 <= i < |list| && list[i].id == updated.id ==> r[i] == updated
    ensures forall i :: 0 <= i < |list| && list[i].id != updated.id ==> r[i] == list[i]
  {
    seq(|list|, i requires 0 <= i < |list| => if list[i].id == updated.id then updated else list[i])
  }

  /** Replacing keeps the id sequence, so no order is gained, lost or moved. */
  lemma ReplaceKeepsIds(list: seq<Order>, updated: Order)
    ensures Ids(ReplaceById(list, updated)) == Ids(list)
  {
  }

  /** A second delivery of the same update changes nothing. */
  lemma ReplaceIdempotent(list: seq<Order>, updated: Order)
    ensures ReplaceById(ReplaceById(list, updated), updated) == ReplaceById(list, updated)
  {
  }

  /** An update for an order the page does not list is ignored. */
  lemma ReplaceAbsentIgnored(list: seq<Order>, updated: Order)
    requires updated.id !in Ids(list)
    ensures ReplaceById(list, updated) == list
  {
    forall i | 0 <= i < |list| ensures list[i].id != updated.id {
      assert Ids(list)[i] == list[i].id;
    }
  }

  /**
   * `cancelOrder` after the request: on success the matching order's status
   * becomes Cancelled and nothing else changes; on failure the list is kept.
   */
  function CancelLocal(list: seq<Order>, orderId: Id, succeeded: bool): (r: seq<Order>)
    ensures !succeeded ==> r == list
    ensures |r| == |list| && Ids(r) == Ids(list)
    ensures succeeded ==> forall i :: 0 <= i < |list| ==>
              r[i] == (if list[i].id == orderId then list[i].(status := Cancelled) else list[i])
  {
    if !succeeded then list
    else
      seq(|list|, i requires 0 <= i < |list| =>
        if list[i].id == orderId then list[i].(status := Cancelled) else list[i])
  }

  /**
   * The local cancel agrees with the server: for an order the customer owns
   * and the server lets them cancel, the local edit is what replacing the
   * order by the server's result would give.
   */
  lemma CancelAgreesWithServer(list: seq<Order>, k: nat, customer: Id)
    requires k < |list|
    requires OL.Cancel(Some(list[k]), customer).Ok?
    requires forall i :: 0 <= i < |list| && list[i].id == list[k].id ==> list[i] == list[k]
    ensures CancelLocal(list, list[k].id, true) == ReplaceById(list, OL.Cancel(Some(list[k]), customer).value)
  {
  }

  /** The Cancel button's condition. */
  predicate ShowCancel(o: Order)
  {
    StatusName(o.status) == "Ordered"
  }

  /** The button appears exactly when the server would accept the owner's cancel. */
  lemma ShowCancelIffServerAccepts(o: Order)
    ensures ShowCancel(o) <==> OL.Cancel(Some(o), o.customer).Ok?
  {
  }

  /** The rendered list, `orders.slice().reverse()`. */
  function Displayed(list: seq<Order>): (r: seq<Order>)
    ensures |r| == |list| && forall i :: 0 <= i < |list| ==> r[i] == list[|list| - 1 - i]
    ensures Lists.Reverse(r) == list
  {
    Lists.ReverseInvolutive(list);
    Lists.Reverse(list)
  }

  /** Each order was created strictly earlier than every order after it. */
  ghost predicate StrictlyOldestFirst(s: seq<Order>)
  {
    forall i, j :: 0 <= i < j < |s| ==> s[i].createdAt < s[j].createdAt
  }

  /** The server lists newest first, so the page shows the oldest order first. */
  lemma DisplayedOldestFirst(list: seq<Order>)
    requires Timeline.StrictlyNewestFirst(list, (o: Order) => o.createdAt)
    ensures StrictlyOldestFirst(Displayed(list))
  {
    var r := Displayed(list);
    forall i, j | 0 <= i < j < |r| ensures r[i].createdAt < r[j].createdAt {
      assert r[i] == list[|list| - 1 - i] && r[j] == list[|list| - 1 - j];
    }
  }
}
