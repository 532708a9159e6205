/** Docker networks: listing, creation, removal, inspection, and connecting containers. */
module Networks {
  import opened Wrappers
  import opened JsonValues
  import opened Text
  import opened DockerBase

  /** One entry of `get_networks`; `created` is absent when there is no CreatedAt or it does not parse. */
  datatype NetworkInfo = NetworkInfo(id: Json, name: Json, driver: Json, scope: Json, created: Option<int>)

  const ListCommand: seq<string> := ["docker", "network", "ls", "--format", "{{json .}}"]

  function NetworkRow(f: map<string, Json>, parse: Json -> Option<int>): NetworkInfo {
    NetworkInfo(Get(f, "ID", JStr("")), Get(f, "Name", JStr("")), Get(f, "Driver", JStr("")), Get(f, "Scope", JStr("")),
                if "CreatedAt" in f then parse(f["CreatedAt"]) else None)
  }

  /** `get_networks`: one entry per listed network, or none when the listing fails. */
  method GetNetworks(p: ProcessOutcome, decode: Decoder, parse: Json -> Option<int>) returns (networks: seq<NetworkInfo>)
    ensures networks == Listing(p, decode, f => NetworkRow(f, parse))
  {
    networks := ListRows(p, decode, f => NetworkRow(f, parse));
  }

  /** A row carries the ID, Name, Driver and Scope of document fields `f`, and the parsed CreatedAt when present and parsable. */
  predicate CarriesFields(r: NetworkInfo, f: map<string, Json>, parse: Json -> Option<int>) {
    && r.id == Get(f, "ID", JStr(""))
    && r.name == Get(f, "Name", JStr(""))
    && r.driver == Get(f, "Driver", JStr(""))
    && r.scope == Get(f, "Scope", JStr(""))
    && (r.created.Some? <==> "CreatedAt" in f && parse(f["CreatedAt"]).Some?)
    && (r.created.Some? ==> "CreatedAt" in f && r.created == parse(f["CreatedAt"]))
  }

  /** Each entry comes from the document at its position and carries that document's fields. */
  lemma NetworkListing(p: ProcessOutcome, decode: Decoder, parse: Json -> Option<int>)
    requires p.Exited? && p.code == 0
    ensures var docs := ParsedLines(Split(Strip(p.stdout), '\n'), decode);
            var rows := Listing(p, decode, f => NetworkRow(f, parse));
            && |rows| <= |docs|
            && forall k :: 0 <= k < |rows| ==> docs[k].JObj? && CarriesFields(rows[k], docs[k].fields, parse)
  {
    var docs := ParsedLines(Split(Strip(p.stdout), '\n'), decode);
    var row := f => NetworkRow(f, parse);
    var rows := Listing(p, decode, row);
    assert rows == Rows(docs, row).GetOr([]);
    RowsMeaning(docs, row);
    forall k | 0 <= k < |rows|
      ensures docs[k].JObj? && CarriesFields(rows[k], docs[k].fields, parse)
    {
      assert rows[k] == NetworkRow(docs[k].fields, parse);
    }
  }

  /** Python truthiness of an optional string: present and non-empty. */
  predicate Given(s: Option<string>) {
    s.Some? && s.value != ""
  }

  /** `create_network`'s command: driver, then `--subnet` and `--gateway` when given, then the name. */
  function CreateArgv(name: string, driver: string, subnet: Option<string>, gateway: Option<string>): seq<string> {
    ["docker", "network", "create", "--driver", driver]
    + (if Given(subnet) then ["--subnet", subnet.value] else [])
    + (if Given(gateway) then ["--gateway", gateway.value] else [])
    + [name]
  }

  /** The options present are exactly those given, subnet before gateway, and the name is last. */
  lemma CreateArgvShape(name: string, driver: string, subnet: Option<string>, gateway: Option<string>)
    ensures var cmd := CreateArgv(name, driver, subnet, gateway);
            && |cmd| == 6 + (if Given(subnet) then 2 else 0) + (if Given(gateway) then 2 else 0)
            && cmd[4] == driver && cmd[|cmd| - 1] == name
            && (Given(subnet) ==> cmd[5] == "--subnet" && cmd[6] == subnet.value)
            && (Given(gateway) ==> cmd[|cmd| - 3] == "--gateway" && cmd[|cmd| - 2] == gateway.value)
            && (!Given(subnet) && !Given(gateway) ==> cmd == ["docker", "network", "create", "--driver", driver, name])
  {
  }

  /** `create_network`. */
  method CreateNetwork(name: string, driver: string, subnet: Option<string>, gateway: Option<string>, p: ProcessOutcome)
    returns (cmd: seq<string>, ok: bool, output: string)
    ensures cmd == CreateArgv(name, driver, subnet, gateway)
    ensures (ok, output) == RunCommand(p, true, false)
  {
    cmd := ["docker", "network", "create", "--driver", driver];
    if Given(subnet) {
      cmd := cmd + ["--subnet", subnet.value];
    }
    if Given(gateway) {
      cmd := cmd + ["--gateway", gateway.value];
    }
    cmd := cmd + [name];
    ok, output := RunCommandUnchecked(p);
  }

  function RemoveArgv(name: string): seq<string> {
    ["docker", "network", "rm", name]
  }

  function InspectArgv(name: string): seq<string> {
    ["docker", "network", "inspect", name]
  }

  /** `connect_container_to_network` / `disconnect_container_from_network`: the network comes before the container. */
  function ConnectArgv(containerId: string, networkId: string, connect: bool): seq<string> {
    ["docker", "network", if connect then "connect" else "disconnect", networkId, containerId]
  }

  lemma ConnectArgvShape(containerId: string, networkId: string, connect: bool)
    ensures ConnectArgv(containerId, networkId, connect)[3] == networkId
    ensures ConnectArgv(containerId, networkId, connect)[4] == containerId
    ensures ConnectArgv(containerId, networkId, true) != ConnectArgv(containerId, networkId, false)
  {
  }
}
