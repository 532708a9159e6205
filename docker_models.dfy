/**
 * The persisted Docker records: stack configurations and the mirrored container, image, volume
 * and network rows. Rows are values; the tables holding them are maps in `DockerControl`.
 * Clock readings (`datetime.utcnow()`) are passed in as `now`.
 */
module DockerRecords {
  import opened Wrappers
  import opened JsonValues

  /** A `DockerComposeConfig` row: one compose stack, its source and its last known state. */
  datatype ComposeConfig = ComposeConfig(
    id: int, name: string, sourceUrl: string, description: Option<string>, localPath: Option<string>,
    isActive: bool, status: string, lastChecked: int, lastUpdated: int, updateAvailable: bool)

  /** The `DockerComposeConfig` constructor, with its keyword defaults. */
  function NewComposeConfig(id: int, name: string, sourceUrl: string, now: int,
                            description: Option<string> := None, localPath: Option<string> := None,
                            isActive: bool := false, status: string := "down"): (c: ComposeConfig)
    ensures c.id == id && c.name == name && c.sourceUrl == sourceUrl
    ensures c.description == description && c.localPath == localPath
    ensures c.isActive == isActive && c.status == status
    ensures c.lastChecked == now && c.lastUpdated == now && !c.updateAvailable
  {
    ComposeConfig(id, name, sourceUrl, description, localPath, isActive, status, now, now, false)
  }

  /** A configuration built with only the required arguments is inactive, 'down', and has no pending update. */
  lemma ConfigDefaults(id: int, name: string, sourceUrl: string, now: int)
    ensures var c := NewComposeConfig(id, name, sourceUrl, now);
            !c.isActive && c.status == "down" && !c.updateAvailable && c.description == None && c.localPath == None
  {
  }

  /**
   * A `DockerContainer` row. `ports` holds what was assigned to the column: the JSON text of the
   * port mappings when the constructor stored it, or the raw listing value after an update.
   */
  datatype ContainerRecord = ContainerRecord(
    containerId: Json, name: Json, image: Json, status: Json, configId: Option<int>, createdAt: int, ports: Json)
  {
    /**
     * `get_ports`: the decoded column, `{}` for an empty column or text that is not JSON.
     * A non-empty column that is not text makes `json.loads` raise a `TypeError`, which is not
     * caught; that case is None.
     */
    function GetPorts(decode: Decoder): (r: Option<Json>)
      ensures r.None? <==> Truthy(ports) && !ports.JStr?
      ensures !Truthy(ports) ==> r == Some(EmptyObject)
      ensures r.Some? && Truthy(ports) ==> r == Some(decode(ports.s).GetOr(EmptyObject))
    {
      if !Truthy(ports) then Some(EmptyObject)
      else if !ports.JStr? then None
      else
        match decode(ports.s)
        case Some(v) => Some(v)
        case None => Some(EmptyObject)
    }
  }

  /** `json.dumps(ports) if ports else None`. */
  function StoredPorts(ports: Json, encode: Encoder): (s: Json)
    ensures Truthy(ports) ==> s == JStr(encode(ports))
    ensures !Truthy(ports) ==> s == JNull
  {
    if Truthy(ports) then JStr(encode(ports)) else JNull
  }

  /** The `DockerContainer` constructor, with its keyword defaults. */
  function NewContainer(containerId: Json, name: Json, image: Json, status: Json, now: int, encode: Encoder,
                        configId: Option<int> := None, ports: Json := JNull): (r: ContainerRecord)
    ensures r.containerId == containerId && r.name == name && r.image == image && r.status == status
    ensures r.configId == configId && r.createdAt == now && r.ports == StoredPorts(ports, encode)
  {
    ContainerRecord(containerId, name, image, status, configId, now, StoredPorts(ports, encode))
  }

  /**
   * Round trip: whenever `json.loads` inverts `json.dumps` on the given ports and rejects the empty
   * text, `get_ports` on a freshly built container returns the ports it was given (or `{}` for
   * empty ports); a container built without ports has no owner.
   */
  lemma PortsRoundTrip(containerId: Json, name: Json, image: Json, status: Json, now: int,
                       encode: Encoder, decode: Decoder, ports: Json)
    requires decode(encode(ports)) == Some(ports) && decode("") == None
    ensures var c := NewContainer(containerId, name, image, status, now, encode, ports := ports);
            c.GetPorts(decode) == Some(if Truthy(ports) then ports else EmptyObject) && c.configId == None
  {
    var c := NewContainer(containerId, name, image, status, now, encode, ports := ports);
    if Truthy(ports) {
      assert c.ports == JStr(encode(ports));
      assert encode(ports) != "";
    }
  }

  /** A `DockerImage` row. */
  datatype ImageRecord = ImageRecord(imageId: Json, repository: Json, tag: Json, size: Json, created: int)

  /** A `DockerVolume` row. */
  datatype VolumeRecord = VolumeRecord(volumeName: Json, driver: Json, mountpoint: Json, created: int)

  /** A `DockerNetwork` row. */
  datatype NetworkRecord = NetworkRecord(networkId: Json, name: Json, driver: Json, scope: Json, created: int)
}
