/** Volumes: the listing of volumes (with parsed creation times), creation with labels, removal and inspection. */
module Volumes {
  import opened Wrappers
  import opened JsonValues
  import opened Text
  import opened DockerBase

  /** A date parser: the instant a JSON value denotes, or `None` when parsing raises. */
  type DateParser = Json -> Option<int>

  /** One entry of `get_volumes`; `created` is absent when the volume has no CreatedAt or it does not parse. */
  datatype VolumeInfo = VolumeInfo(name: Json, driver: Json, mountpoint: Json, created: Option<int>)

  const ListCommand: seq<string> := ["docker", "volume", "ls", "--format", "{{json .}}"]

  function VolumeRow(f: map<string, Json>, parse: DateParser): VolumeInfo {
    VolumeInfo(Get(f, "Name", JStr("")), Get(f, "Driver", JStr("")), Get(f, "Mountpoint", JStr("")),
               if "CreatedAt" in f then parse(f["CreatedAt"]) else None)
  }

  /** `get_volumes`: one entry per listed volume, or none when the listing fails. */
  method GetVolumes(p: ProcessOutcome, decode: Decoder, parse: DateParser) returns (volumes: seq<VolumeInfo>)
    ensures volumes == Listing(p, decode, f => VolumeRow(f, parse))
  {
    volumes := ListRows(p, decode, f => VolumeRow(f, parse));
  }

  /** A listed volume has a creation time exactly when its document has a CreatedAt that parses. */
  lemma VolumeCreated(p: ProcessOutcome, decode: Decoder, parse: DateParser)
    requires p.Exited? && p.code == 0
    ensures var docs := ParsedLines(Split(Strip(p.stdout), '\n'), decode);
            var rows := Listing(p, decode, f => VolumeRow(f, parse));
            forall k :: 0 <= k < |rows| ==>
              (docs[k].JObj? && rows[k].name == Get(docs[k].fields, "Name", JStr(""))
               && (rows[k].created.Some? <==> "CreatedAt" in docs[k].fields && parse(docs[k].fields["CreatedAt"]).Some?))
  {
    var docs := ParsedLines(Split(Strip(p.stdout), '\n'), decode);
    var row := f => VolumeRow(f, parse);
    assert Listing(p, decode, row) == Rows(docs, row).GetOr([]);
    RowsMeaning(docs, row);
    var rows := Listing(p, decode, row);
    forall k | 0 <= k < |rows|
      ensures docs[k].JObj? && rows[k] == VolumeRow(docs[k].fields, parse)
    {
    }
  }

  /** The `--label key=value` pairs for the labels, in order. */
  function LabelArgs(labels: seq<(string, string)>): (r: seq<string>)
    ensures |r| == 2 * |labels|
  {
    if labels == [] then []
    else
      var (k, v) := labels[|labels| - 1];
      LabelArgs(labels[..|labels| - 1]) + ["--label", k + "=" + v]
  }

  /** `create_volume`'s command: driver, one `--label` option per label, then the name. */
  function CreateArgv(name: string, driver: string, labels: seq<(string, string)>): seq<string> {
    ["docker", "volume", "create", "--driver", driver] + LabelArgs(labels) + [name]
  }

  /** Label `i` appears as `--label key=value` at position 5 + 2i, and the name comes last. */
  lemma {:induction false} LabelArgsAt(labels: seq<(string, string)>)
    ensures forall i :: 0 <= i < |labels| ==>
              LabelArgs(labels)[2 * i] == "--label" && LabelArgs(labels)[2 * i + 1] == labels[i].0 + "=" + labels[i].1
  {
    if labels != [] {
      var pre := labels[..|labels| - 1];
      LabelArgsAt(pre);
      assert forall i :: 0 <= i < |pre| ==> pre[i] == labels[i];
    }
  }

  lemma CreateArgvShape(name: string, driver: string, labels: seq<(string, string)>)
    ensures var cmd := CreateArgv(name, driver, labels);
            && |cmd| == 6 + 2 * |labels| && cmd[4] == driver && cmd[|cmd| - 1] == name
            && forall i :: 0 <= i < |labels| ==> cmd[5 + 2 * i] == "--label" && cmd[6 + 2 * i] == labels[i].0 + "=" + labels[i].1
  {
    LabelArgsAt(labels);
    var cmd := CreateArgv(name, driver, labels);
    forall i | 0 <= i < |labels|
      ensures cmd[5 + 2 * i] == "--label" && cmd[6 + 2 * i] == labels[i].0 + "=" + labels[i].1
    {
      assert cmd[5 + 2 * i] == LabelArgs(labels)[2 * i];
      assert cmd[6 + 2 * i] == LabelArgs(labels)[2 * i + 1];
    }
  }

  /** `create_volume`: builds the command label by label and runs it. */
  method CreateVolume(name: string, driver: string, labels: seq<(string, string)>, p: ProcessOutcome)
    returns (cmd: seq<string>, ok: bool, output: string)
    ensures cmd == CreateArgv(name, driver, labels)
    ensures (ok, output) == RunCommand(p, true, false)
  {
    cmd := ["docker", "volume", "create", "--driver", driver];
    var i := 0;
    while i < |labels|
      invariant 0 <= i <= |labels|
      invariant cmd == ["docker", "volume", "create", "--driver", driver] + LabelArgs(labels[..i])
    {
      assert labels[..i + 1][..i] == labels[..i];
      var (key, value) := labels[i];
      cmd := cmd + ["--label", key + "=" + value];
      i := i + 1;
    }
    assert labels[..i] == labels;
    cmd := cmd + [name];
    ok, output := RunCommandUnchecked(p);
  }

  /** `remove_volume`: `-f` goes in before the name when forced. */
  function RemoveArgv(name: string, force: bool): seq<string> {
    var cmd := ["docker", "volume", "rm", name];
    if force then cmd[..3] + ["-f"] + cmd[3..] else cmd
  }

  lemma RemoveArgvShape(name: string, force: bool)
    ensures RemoveArgv(name, force)[|RemoveArgv(name, force)| - 1] == name
    ensures RemoveArgv(name, force)[..3] == ["docker", "volume", "rm"]
    ensures |RemoveArgv(name, force)| == if force then 5 else 4
    ensures force ==> RemoveArgv(name, force)[3] == "-f"
    ensures "-f" in RemoveArgv(name, force) <==> force || name == "-f"
  {
  }

  function InspectArgv(name: string): seq<string> {
    ["docker", "volume", "inspect", name]
  }
}
