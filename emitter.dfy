/** Real-time fan-out (sockets/emitter.js): a module-level socket.io handle
    that `registerSocketServer` replaces, and two emit functions that publish
    to rooms through it. Every publish is recorded in a log. */
module Emitter {
  import opened Common
  import opened ParcelModel
  import opened NotificationModel

  /** A socket.io server instance, known only by its identity. */
  datatype ServerHandle = ServerHandle(name: string)

  /** What an event carries: the status payload of `parcel:status`, or the
      stored tracking point of `parcel:tracking`. */
  datatype Payload =
    | StatusPayload(status: string, note: Option<string>)
    | TrackingPayload(point: TrackingPoint)

  /** One `io.to(room).emit(event, payload)`, and the server that sent it. */
  datatype Publication = Publication(server: ServerHandle, room: string, event: string, payload: Payload)

  /** One `emitUserNotification` call: the serialised notification and the
      owner's unread count. */
  datatype UserEvent = UserEvent(userId: Id, role: string, notification: SerializedNotification, unreadCount: nat)

  const STATUS_EVENT: string := "parcel:status"
  const TRACKING_EVENT: string := "parcel:tracking"

  function ParcelRoom(parcelId: Id): string { "parcel:" + parcelId }
  function CustomerRoom(customerId: Id): string { "customer:" + customerId }
  function AgentRoom(agentId: Id): string { "agent:" + agentId }

  /** The publications of one `emitParcelStatus` call. */
  function StatusFanOut(io: Option<ServerHandle>, parcelId: Id, customerId: Id, agentId: Option<Id>,
                        payload: Payload): (ps: seq<Publication>)
    ensures io.None? ==> ps == []
    ensures io.Some? ==> |ps| == (if Truthy(agentId) then 3 else 2)
    ensures forall i :: 0 <= i < |ps| ==>
      ps[i].server == io.value && ps[i].event == STATUS_EVENT && ps[i].payload == payload
    ensures io.Some? ==> ps[0].room == ParcelRoom(parcelId) && ps[1].room == CustomerRoom(customerId)
    ensures io.Some? && Truthy(agentId) ==> ps[2].room == AgentRoom(agentId.value)
  {
    if io.None? then []
    else
      var m := [Publication(io.value, ParcelRoom(parcelId), STATUS_EVENT, payload),
                Publication(io.value, CustomerRoom(customerId), STATUS_EVENT, payload)];
      if Truthy(agentId) then m + [Publication(io.value, AgentRoom(agentId.value), STATUS_EVENT, payload)]
      else m
  }

  /** The publications of one `emitTrackingPoint` call. */
  function TrackingFanOut(io: Option<ServerHandle>, parcelId: Id, payload: Payload): (ps: seq<Publication>)
    ensures io.None? ==> ps == []
    ensures io.Some? ==> ps == [Publication(io.value, ParcelRoom(parcelId), TRACKING_EVENT, payload)]
  {
    if io.None? then [] else [Publication(io.value, ParcelRoom(parcelId), TRACKING_EVENT, payload)]
  }

  /** Only the rooms of the parcel, its customer and (when given) its agent
      hear a status event: a room of any other parcel, customer or agent gets
      nothing. */
  lemma StatusFanOutRooms(io: Option<ServerHandle>, parcelId: Id, customerId: Id, agentId: Option<Id>,
                          payload: Payload, room: string)
    requires io.Some?
    ensures (exists i :: 0 <= i < |StatusFanOut(io, parcelId, customerId, agentId, payload)| &&
               StatusFanOut(io, parcelId, customerId, agentId, payload)[i].room == room) <==>
      room == ParcelRoom(parcelId) || room == CustomerRoom(customerId) ||
      (Truthy(agentId) && room == AgentRoom(agentId.value))
  {
    var ps := StatusFanOut(io, parcelId, customerId, agentId, payload);
    if room == ParcelRoom(parcelId) {
      assert ps[0].room == room;
    } else if room == CustomerRoom(customerId) {
      assert ps[1].room == room;
    } else if Truthy(agentId) && room == AgentRoom(agentId.value) {
      assert ps[2].room == room;
    }
  }

  /** The emitter: `io` is the registered server (none until registration),
      `published` every room publication in order, `userEvents` every user
      notification handed to the socket layer. */
  class SocketEmitter {
    var io: Option<ServerHandle>
    var published: seq<Publication>
    var userEvents: seq<UserEvent>

    /** The module as loaded: no server, nothing sent. */
    constructor()
      ensures io.None? && published == [] && userEvents == []
    {
      io := None;
      published := [];
      userEvents := [];
    }

    /** `registerSocketServer(server)`: later emits go through `server`. */
    method RegisterSocketServer(server: ServerHandle)
      modifies this
      ensures io == Some(server)
      ensures published == old(published) && userEvents == old(userEvents)
    {
      io := Some(server);
    }

    /** `emitParcelStatus({parcelId, customerId, agentId, payload})`. */
    method EmitParcelStatus(parcelId: Id, customerId: Id, agentId: Option<Id>, payload: Payload)
      modifies this
      ensures io == old(io) && userEvents == old(userEvents)
      ensures published == old(published) + StatusFanOut(io, parcelId, customerId, agentId, payload)
    {
      if io.None? {
        return;
      }
      published := published + [Publication(io.value, ParcelRoom(parcelId), STATUS_EVENT, payload)];
      published := published + [Publication(io.value, CustomerRoom(customerId), STATUS_EVENT, payload)];
      if Truthy(agentId) {
        published := published + [Publication(io.value, AgentRoom(agentId.value), STATUS_EVENT, payload)];
      }
    }

    /** `emitTrackingPoint(parcelId, payload)`. */
    method EmitTrackingPoint(parcelId: Id, payload: Payload)
      modifies this
      ensures io == old(io) && userEvents == old(userEvents)
      ensures published == old(published) + TrackingFanOut(io, parcelId, payload)
    {
      if io.None? {
        return;
      }
      published := published + [Publication(io.value, ParcelRoom(parcelId), TRACKING_EVENT, payload)];
    }

    /** `emitUserNotification({userId, role, payload})`. The function is
        imported but not defined by the socket module, so all that is modelled
        is that the event is handed over. */
    method EmitUserNotification(event: UserEvent)
      modifies this
      ensures io == old(io) && published == old(published)
      ensures userEvents == old(userEvents) + [event]
    {
      userEvents := userEvents + [event];
    }
  }
}
