/**
 * The real-time handlers of the server and its fallback route. Rooms are an
 * abstract map from room name to the connections in it; the transport and
 * the library's own cleanup on disconnect are not modelled.
 */
module Server {
  import opened Common
  import OrderModel
  import opened Notify

  /** A socket connection's id. */
  type ConnId = string

  /** An event a client sends; a field missing from its payload is None. */
  datatype SocketEvent =
    | JoinRoom(role: Option<string>, id: Option<string>)
    | NotifyVendor(vendorId: Option<string>, message: Option<string>)
    | NotifyCustomer(customerId: Option<string>, message: Option<string>)
    | Disconnect
    | Other(name: string)

  /** The connections in a room; a room never joined is empty. */
  function Members(rooms: map<string, set<ConnId>>, room: string): set<ConnId>
  {
    if room in rooms then rooms[room] else {}
  }

  /** The registry after one event: only a join with a truthy role and id adds a member. */
  function AfterEvent(rooms: map<string, set<ConnId>>, conn: ConnId, ev: SocketEvent): (r: map<string, set<ConnId>>)
    ensures ev.JoinRoom? && Truthy(ev.role) && Truthy(ev.id) ==>
              var room := RoomName(ev.role.value, ev.id.value);
              && Members(r, room) == Members(rooms, room) + {conn}
              && forall other :: other != room ==> Members(r, other) == Members(rooms, other)
    ensures !(ev.JoinRoom? && Truthy(ev.role) && Truthy(ev.id)) ==> r == rooms
  {
    if ev.JoinRoom? && Truthy(ev.role) && Truthy(ev.id) then
      var room := RoomName(ev.role.value, ev.id.value);
      rooms[room := Members(rooms, room) + {conn}]
    else rooms
  }

  /** No event removes anyone from any room. */
  lemma MembershipOnlyGrows(rooms: map<string, set<ConnId>>, conn: ConnId, ev: SocketEvent, room: string)
    ensures Members(rooms, room) <= Members(AfterEvent(rooms, conn, ev), room)
  {
  }

  /** The emissions one event makes: a notification only when both of its fields are present. */
  function EventEmissions(ev: SocketEvent): (out: seq<Emission>)
    ensures ev.NotifyVendor? && Truthy(ev.vendorId) && Truthy(ev.message) ==>
              out == [ToRoom(RoomName(VendorRole, ev.vendorId.value), "vendorNotification", Text(ev.message.value))]
    ensures ev.NotifyCustomer? && Truthy(ev.customerId) && Truthy(ev.message) ==>
              out == [ToRoom(RoomName(CustomerRole, ev.customerId.value), "customerNotification", Text(ev.message.value))]
    ensures out != [] <==> ((ev.NotifyVendor? && Truthy(ev.vendorId) && Truthy(ev.message))
                            || (ev.NotifyCustomer? && Truthy(ev.customerId) && Truthy(ev.message)))
  {
    match ev
    case NotifyVendor(v, m) =>
      if Truthy(v) && Truthy(m) then [ToRoom(RoomName(VendorRole, v.value), "vendorNotification", Text(m.value))] else []
    case NotifyCustomer(c, m) =>
      if Truthy(c) && Truthy(m) then [ToRoom(RoomName(CustomerRole, c.value), "customerNotification", Text(m.value))] else []
    case _ => []
  }

  /** Who receives an emission: a room's members, or every connected client. */
  function Receivers(rooms: map<string, set<ConnId>>, connected: set<ConnId>, e: Emission): set<ConnId>
  {
    match e
    case ToRoom(room, _, _) => Members(rooms, room)
    case ToAll(_, _) => connected
  }

  /** A customer who joined their room receives the status events of their orders. */
  lemma JoinedCustomerGetsStatus(rooms: map<string, set<ConnId>>, connected: set<ConnId>, conn: ConnId, o: OrderModel.Order)
    requires o.customer != ""
    ensures var after := AfterEvent(rooms, conn, JoinRoom(Some(CustomerRole), Some(o.customer)));
            conn in Receivers(after, connected, StatusEvents(o)[0])
  {
  }

  /** A vendor who joined their room receives new-order events for their orders. */
  lemma JoinedVendorGetsNewOrders(rooms: map<string, set<ConnId>>, connected: set<ConnId>, conn: ConnId, o: OrderModel.Order)
    requires o.vendor != ""
    ensures var after := AfterEvent(rooms, conn, JoinRoom(Some(VendorRole), Some(o.vendor)));
            conn in Receivers(after, connected, NewOrderEvents(o)[0])
  {
  }

  /**
   * Joining a vendor room alone never lets a connection hear a customer's
   * status events.
   */
  lemma VendorRoomNotCustomerRoom(conn: ConnId, vendorId: Id, o: OrderModel.Order, connected: set<ConnId>)
    requires vendorId != ""
    ensures var after := AfterEvent(map[], conn, JoinRoom(Some(VendorRole), Some(vendorId)));
            conn !in Receivers(after, connected, StatusEvents(o)[0])
  {
    RolesNeverShareRoom(o.customer, vendorId);
  }

  class RoomRegistry {
    var rooms: map<string, set<ConnId>>

    constructor ()
      ensures rooms == map[]
    {
      rooms := map[];
    }

    /** One event from connection `conn`: the registry change and the emissions. */
    method Handle(conn: ConnId, ev: SocketEvent) returns (out: seq<Emission>)
      modifies this
      ensures rooms == AfterEvent(old(rooms), conn, ev)
      ensures out == EventEmissions(ev)
    {
      match ev {
        case JoinRoom(role, id) =>
          if Truthy(role) && Truthy(id) {
            var room := RoomName(role.value, id.value);
            rooms := rooms[room := Members(rooms, room) + {conn}];
          }
        case _ =>
      }
      out := EventEmissions(ev);
    }
  }

  /** The fallback for any unmatched route: 404 naming the original URL. */
  function NotFound(url: string): (r: Result<()>)
    ensures r.Err? && r.code == 404
    ensures |r.msg| == |url| + 16 && r.msg[6..|r.msg| - 10] == url
  {
    Err(404, "Route " + url + " not found")
  }

  /** Distinct URLs give distinct fallback messages. */
  lemma NotFoundInjective(a: string, b: string)
    requires NotFound(a) == NotFound(b)
    ensures a == b
  {
    var ma, mb := NotFound(a).msg, NotFound(b).msg;
    assert a == ma[6..|ma| - 10];
  }
}
