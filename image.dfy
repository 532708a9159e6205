/** Images: the listing of local images, pulling, removal, building and inspection. */
module Images {
  import opened Wrappers
  import opened JsonValues
  import opened Text
  import opened DockerBase
  import opened DockerLogging

  /** One entry of `get_images`: the raw JSON of each field ('' when absent). */
  datatype ImageInfo = ImageInfo(repository: Json, tag: Json, id: Json, created: Json, size: Json)

  const ListCommand: seq<string> := ["docker", "images", "--format", "{{json .}}"]

  function ImageRow(f: map<string, Json>): ImageInfo {
    ImageInfo(Get(f, "Repository", JStr("")), Get(f, "Tag", JStr("")), Get(f, "ID", JStr("")),
              Get(f, "CreatedAt", JStr("")), Get(f, "Size", JStr("")))
  }

  /** `get_images`: one entry per listed image, or none when the listing fails. */
  method GetImages(p: ProcessOutcome, decode: Decoder) returns (images: seq<ImageInfo>)
    ensures images == Listing(p, decode, ImageRow)
  {
    images := ListRows(p, decode, ImageRow);
  }

  /** Each entry carries the Repository, Tag, ID, CreatedAt and Size of the document it came from, in order. */
  lemma ImageListing(p: ProcessOutcome, decode: Decoder)
    requires p.Exited? && p.code == 0
    ensures var docs := ParsedLines(Split(Strip(p.stdout), '\n'), decode);
            var rows := Listing(p, decode, ImageRow);
            && ((forall k :: 0 <= k < |docs| ==> docs[k].JObj?) ==> |rows| == |docs|)
            && ((exists k :: 0 <= k < |docs| && !docs[k].JObj?) ==> rows == [])
            && (forall k :: 0 <= k < |rows| ==>
                  (docs[k].JObj? && rows[k].id == Get(docs[k].fields, "ID", JStr(""))
                   && rows[k].repository == Get(docs[k].fields, "Repository", JStr(""))
                   && rows[k].tag == Get(docs[k].fields, "Tag", JStr(""))
                   && rows[k].created == Get(docs[k].fields, "CreatedAt", JStr(""))
                   && rows[k].size == Get(docs[k].fields, "Size", JStr(""))))
  {
    var docs := ParsedLines(Split(Strip(p.stdout), '\n'), decode);
    assert Listing(p, decode, ImageRow) == Rows(docs, ImageRow).GetOr([]);
    RowsMeaning(docs, ImageRow);
  }

  function PullArgv(name: string): seq<string> {
    ["docker", "pull", name]
  }

  /** `remove_image`: `-f` goes in before the image when forced. */
  function RemoveArgv(id: string, force: bool): seq<string> {
    var cmd := ["docker", "rmi", id];
    if force then cmd[..2] + ["-f"] + cmd[2..] else cmd
  }

  function BuildArgv(path: string, tag: string): seq<string> {
    ["docker", "build", "-t", tag, path]
  }

  /** The image always comes last; `-f` is present exactly when forced (or when that is the image's name). */
  lemma RemoveArgvShape(id: string, force: bool)
    ensures RemoveArgv(id, force)[|RemoveArgv(id, force)| - 1] == id
    ensures |RemoveArgv(id, force)| == if force then 4 else 3
    ensures "-f" in RemoveArgv(id, force) <==> force || id == "-f"
  {
  }

  /** `pull_image`: `docker pull <name>` streamed, with the caller's logger or none. */
  method PullImage(name: string, process: StreamOutcome, logger: OperationLogger?, now: int, stamp: string)
    returns (argv: seq<string>, ok: bool, output: string)
    requires logger != null ==> logger.Valid()
    modifies logger
    ensures argv == ["docker", "pull", name]
    ensures (ok, output) == StreamResult(process)
    ensures logger != null ==> logger.Valid() && logger.steps == old(logger.steps) + StreamSteps(PullArgv(name), process)
    ensures logger != null ==> logger.dbLog == MirrorAfter(old(logger.dbLog), StreamSteps(PullArgv(name), process))
    ensures logger != null ==> logger.completedAt == Some(now) && logger.status == (if ok then Completed else Failed)
  {
    argv := ["docker", "pull", name];
    ok, output := RunCommandWithStreaming(argv, process, logger, now, stamp);
  }

  /** `remove_image`. */
  method RemoveImage(id: string, force: bool, p: ProcessOutcome) returns (argv: seq<string>, ok: bool, output: string)
    ensures argv == RemoveArgv(id, force)
    ensures (ok, output) == RunCommand(p, true, false)
  {
    argv := ["docker", "rmi", id];
    if force {
      argv := argv[..2] + ["-f"] + argv[2..];
    }
    ok, output := RunCommandUnchecked(p);
  }

  /**
   * `build_image`: the same command either way; streamed into the logger when one is given,
   * otherwise run to completion with its output captured.
   */
  method BuildImage(path: string, tag: string, logger: OperationLogger?, streamed: StreamOutcome, blocking: ProcessOutcome,
                    now: int, stamp: string)
    returns (argv: seq<string>, ok: bool, output: string)
    requires logger != null ==> logger.Valid()
    modifies logger
    ensures argv == ["docker", "build", "-t", tag, path]
    ensures logger != null ==> (ok, output) == StreamResult(streamed)
    ensures logger != null ==> logger.Valid() && logger.steps == old(logger.steps) + StreamSteps(BuildArgv(path, tag), streamed)
    ensures logger != null ==> logger.dbLog == MirrorAfter(old(logger.dbLog), StreamSteps(BuildArgv(path, tag), streamed))
    ensures logger != null ==> logger.completedAt == Some(now) && logger.status == (if ok then Completed else Failed)
    ensures logger == null ==> (ok, output) == RunCommand(blocking, true, false)
  {
    argv := ["docker", "build", "-t", tag, path];
    if logger != null {
      ok, output := RunCommandWithStreaming(argv, streamed, logger, now, stamp);
    } else {
      ok, output := RunCommandUnchecked(blocking);
    }
  }

  function InspectArgv(id: string): seq<string> {
    ["docker", "inspect", id]
  }
}
