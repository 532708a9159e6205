/**
 * The centralised WebSocket helpers: room naming, the standard log and
 * operation-complete payloads, and the emitters, which deliver nothing until the
 * Socket.IO instance has been registered.
 */
module SocketEvents {
  import opened Wrappers
  import opened JsonValues
  import opened Text

  type Payload = map<string, Json>

  /** One event handed to Socket.IO: its name, its data and the room it targets (None: every client). */
  datatype Emission = Emission(event: string, data: Payload, room: Option<string>)

  /** `create_room_name`: component, entity type and entity id joined by underscores. */
  function CreateRoomName(component: string, entityType: string, entityId: string): string {
    component + "_" + entityType + "_" + entityId
  }

  /** Two rooms of the same component and entity type are the same room only for the same entity. */
  lemma RoomNameInjective(component: string, entityType: string, id1: string, id2: string)
    requires CreateRoomName(component, entityType, id1) == CreateRoomName(component, entityType, id2)
    ensures id1 == id2
  {
    var prefix := component + "_" + entityType + "_";
    assert CreateRoomName(component, entityType, id1) == prefix + id1;
    assert CreateRoomName(component, entityType, id2) == prefix + id2;
    assert id1 == (prefix + id1)[|prefix|..];
    assert id2 == (prefix + id2)[|prefix|..];
  }

  /** Python's `room or default`: an absent or empty room falls back to `default`. */
  function RoomOr(room: Option<string>, default: string): (r: string)
    ensures room.Some? && room.value != "" ==> r == room.value
    ensures room.None? || room.value == "" ==> r == default
  {
    if room.Some? && room.value != "" then room.value else default
  }

  /** The room a container event goes to when the caller names none. */
  function ContainerRoom(containerId: string): string {
    CreateRoomName("docker", "container", containerId)
  }

  /** `emit_log`'s data: the standard keys first, then the caller's keys, which win on a clash. */
  function LogPayload(component: string, logType: string, stamp: string, data: Payload): (p: Payload)
    ensures p.Keys == data.Keys + {"component", "type", "timestamp"}
    ensures forall k :: k in data ==> p[k] == data[k]
    ensures "component" !in data ==> p["component"] == JStr(component)
    ensures "type" !in data ==> p["type"] == JStr(logType)
    ensures "timestamp" !in data ==> p["timestamp"] == JStr(stamp)
  {
    map["component" := JStr(component), "type" := JStr(logType), "timestamp" := JStr(stamp)] + data
  }

  /** `emit_operation_complete`'s data, built the same way as a log's. */
  function CompletePayload(component: string, operation: string, success: bool, stamp: string, data: Payload): (p: Payload)
    ensures p.Keys == data.Keys + {"component", "operation", "success", "timestamp"}
    ensures forall k :: k in data ==> p[k] == data[k]
    ensures "success" !in data ==> p["success"] == JBool(success)
    ensures "operation" !in data ==> p["operation"] == JStr(operation)
    ensures "component" !in data ==> p["component"] == JStr(component)
    ensures "timestamp" !in data ==> p["timestamp"] == JStr(stamp)
  {
    map["component" := JStr(component), "operation" := JStr(operation), "success" := JBool(success),
        "timestamp" := JStr(stamp)] + data
  }

  /** `emit_container_status_change`'s data: the 'error' key is present exactly when an error text is given and not empty. */
  function StatusChangePayload(containerId: string, status: string, action: string, success: bool, error: Option<string>): (p: Payload)
    ensures "error" in p <==> error.Some? && error.value != ""
    ensures "error" in p ==> p["error"] == JStr(error.value)
    ensures {"container_id", "status", "action", "success"} <= p.Keys
    ensures p["container_id"] == JStr(containerId) && p["status"] == JStr(status)
    ensures p["action"] == JStr(action) && p["success"] == JBool(success)
    ensures p.Keys <= {"container_id", "status", "action", "success", "error"}
  {
    var base := map["container_id" := JStr(containerId), "status" := JStr(status), "action" := JStr(action),
                     "success" := JBool(success)];
    if error.Some? && error.value != "" then base["error" := JStr(error.value)] else base
  }

  /** The module-level Socket.IO reference and everything emitted through it. */
  class SocketHub {
    /** `_socketio` has been set by `init_socketio`. */
    var ready: bool
    /** Every event delivered to Socket.IO, in order. */
    var sent: seq<Emission>

    constructor ()
      ensures !ready && sent == []
    {
      ready := false;
      sent := [];
    }

    /** `init_socketio`: registers the instance (handler registration is not modelled). */
    method InitSocketio()
      modifies this
      ensures ready && sent == old(sent)
    {
      ready := true;
    }

    /** `emit_event`: delivers one event once the instance is registered, and nothing before. */
    method EmitEvent(name: string, data: Payload, room: Option<string>)
      modifies this
      ensures ready == old(ready)
      ensures sent == old(sent) + (if ready then [Emission(name, data, room)] else [])
    {
      if ready {
        sent := sent + [Emission(name, data, room)];
      }
    }

    /** `emit_log`: event "<component>_log". */
    method EmitLog(component: string, logType: string, data: Payload, room: Option<string>, stamp: string)
      modifies this
      ensures ready == old(ready)
      ensures sent == old(sent) + (if ready then [Emission(component + "_log", LogPayload(component, logType, stamp, data), room)] else [])
    {
      EmitEvent(component + "_log", LogPayload(component, logType, stamp, data), room);
    }

    /** `emit_operation_complete`: event "<component>_operation_complete". */
    method EmitOperationComplete(component: string, operation: string, success: bool, data: Payload,
                                 room: Option<string>, stamp: string)
      modifies this
      ensures ready == old(ready)
      ensures sent == old(sent) + (if ready then [Emission(component + "_operation_complete",
                                     CompletePayload(component, operation, success, stamp, data), room)] else [])
    {
      EmitEvent(component + "_operation_complete", CompletePayload(component, operation, success, stamp, data), room);
    }

    /** `emit_docker_log`: a log of component "docker" and type "log". */
    method EmitDockerLog(data: Payload, room: Option<string>, stamp: string)
      modifies this
      ensures ready == old(ready)
      ensures sent == old(sent) + (if ready then [Emission("docker_log", LogPayload("docker", "log", stamp, data), room)] else [])
    {
      assert "docker" + "_log" == "docker_log";
      EmitLog("docker", "log", data, room, stamp);
    }

    /** `emit_docker_operation_complete`. */
    method EmitDockerOperationComplete(operation: string, success: bool, data: Payload, room: Option<string>, stamp: string)
      modifies this
      ensures ready == old(ready)
      ensures sent == old(sent) + (if ready then [Emission("docker_operation_complete",
                                     CompletePayload("docker", operation, success, stamp, data), room)] else [])
    {
      assert "docker" + "_operation_complete" == "docker_operation_complete";
      EmitOperationComplete("docker", operation, success, data, room, stamp);
    }

    /** `emit_container_log`: without a room it targets "docker_container_<id>". */
    method EmitContainerLog(containerId: string, line: string, status: string, room: Option<string>, stamp: string)
      modifies this
      ensures ready == old(ready)
      ensures var data := map["container_id" := JStr(containerId), "line" := JStr(line), "status" := JStr(status)];
              sent == old(sent) + (if ready then [Emission("docker_log", LogPayload("docker", "log", stamp, data),
                                                          Some(RoomOr(room, ContainerRoom(containerId))))] else [])
    {
      var data := map["container_id" := JStr(containerId), "line" := JStr(line), "status" := JStr(status)];
      EmitDockerLog(data, Some(RoomOr(room, ContainerRoom(containerId))), stamp);
    }

    /** `emit_container_status_change`: event "container_status_change", by default to "docker_container_<id>". */
    method EmitContainerStatusChange(containerId: string, status: string, action: string, success: bool,
                                     error: Option<string>, room: Option<string>)
      modifies this
      ensures ready == old(ready)
      ensures sent == old(sent) + (if ready then [Emission("container_status_change",
                                     StatusChangePayload(containerId, status, action, success, error),
                                     Some(RoomOr(room, ContainerRoom(containerId))))] else [])
    {
      EmitEvent("container_status_change", StatusChangePayload(containerId, status, action, success, error),
                Some(RoomOr(room, ContainerRoom(containerId))));
    }
  }
}
