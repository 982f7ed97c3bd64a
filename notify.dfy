/**
 * Room and event names for the real-time channel, and the emissions the
 * handlers produce. A room is named `<role>-<id>`.
 */
module Notify {
  import opened Common
  import opened OrderModel

  const CustomerRole: string := "customer"
  const VendorRole: string := "vendor"

  function RoomName(role: string, id: string): string
  {
    role + "-" + id
  }

  /** What an event carries: a whole order document or a text message. */
  datatype Payload = OrderDoc(order: Order) | Text(message: string)

  /** One `io.to(room).emit(event, payload)` or one `io.emit(event, payload)` to every client. */
  datatype Emission =
    | ToRoom(room: string, event: string, payload: Payload)
    | ToAll(event: string, payload: Payload)

  /** A new order goes to its vendor's room. */
  function NewOrderEvents(o: Order): (out: seq<Emission>)
    ensures |out| == 1 && out[0].ToRoom? && out[0].payload == OrderDoc(o)
    ensures out[0].room == RoomName(VendorRole, o.vendor) && out[0].event == "new-order-" + o.vendor
  {
    [ToRoom(RoomName(VendorRole, o.vendor), "new-order-" + o.vendor, OrderDoc(o))]
  }

  /** A vendor's status change goes to the ordering customer's room. */
  function StatusEvents(o: Order): (out: seq<Emission>)
    ensures |out| == 1 && out[0].ToRoom? && out[0].payload == OrderDoc(o)
    ensures out[0].room == RoomName(CustomerRole, o.customer) && out[0].event == "order-status-" + o.customer
  {
    [ToRoom(RoomName(CustomerRole, o.customer), "order-status-" + o.customer, OrderDoc(o))]
  }

  /** A cancellation goes to the customer's room, then to the vendor's room. */
  function CancelEvents(o: Order): (out: seq<Emission>)
    ensures |out| == 2 && out[0] == StatusEvents(o)[0]
    ensures out[1] == ToRoom(RoomName(VendorRole, o.vendor), "order-cancelled-" + o.vendor, OrderDoc(o))
  {
    StatusEvents(o) + [ToRoom(RoomName(VendorRole, o.vendor), "order-cancelled-" + o.vendor, OrderDoc(o))]
  }

  /** The delivery routes' broadcast to every connected client. */
  function BroadcastEvents(o: Order): (out: seq<Emission>)
    ensures out == [ToAll("orderStatusUpdate", OrderDoc(o))]
  {
    [ToAll("orderStatusUpdate", OrderDoc(o))]
  }

  /** Different ids under one role name different rooms. */
  lemma RoomNameInjective(role: string, a: string, b: string)
    requires RoomName(role, a) == RoomName(role, b)
    ensures a == b
  {
    assert a == RoomName(role, a)[|role| + 1..];
    assert b == RoomName(role, b)[|role| + 1..];
  }

  /** No customer room is ever a vendor room. */
  lemma RolesNeverShareRoom(a: string, b: string)
    ensures RoomName(CustomerRole, a) != RoomName(VendorRole, b)
  {
    assert RoomName(CustomerRole, a)[0] == 'c';
    assert RoomName(VendorRole, b)[0] == 'v';
  }
}
