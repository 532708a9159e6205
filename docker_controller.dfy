/**
 * The Docker controller's effect on the database: the stack handlers (add, check for updates,
 * update, run, stop, restart, pull, delete), the tagging of a stack's containers and the four
 * table reconcilers. The session is a `DockerStore` whose tables are maps from key to row; the
 * compose files live in a `ComposeManager`. Every external outcome (the compose command, the
 * status command, the container listing, the HTTP fetch) is a parameter.
 */
module DockerControl {
  import opened Wrappers
  import opened JsonValues
  import opened DockerRecords
  import opened Reconcile
  import opened DockerTables
  import opened DockerBase
  import opened Compose
  import C = Containers
  import I = Images
  import Vol = Volumes
  import N = Networks

  /** How a stack handler ends: an unknown id (404), a missing compose file, or the command's result. */
  datatype HandlerOutcome = NotFound | FileMissing | Finished(ok: bool, output: string)

  /** The compose file of a stack when it is recorded (non-empty) and present in the file store. */
  function FileOf(c: ComposeConfig, files: map<string, string>): (p: Option<string>)
    ensures p.Some? <==> c.localPath.Some? && c.localPath.value != "" && c.localPath.value in files
    ensures p.Some? ==> p.value == c.localPath.value
  {
    if c.localPath.Some? && c.localPath.value != "" && c.localPath.value in files then c.localPath else None
  }

  /** `request.form.get(field)` checked with `not`: absent or empty. */
  predicate Missing(field: Option<string>) {
    field.None? || field.value == ""
  }

  /** The message of the name check in `add_config`. */
  function DuplicateMessage(name: string): string {
    "Configuration with name \"" + name + "\" already exists."
  }

  class DockerStore {
    var configs: map<int, ComposeConfig>
    /** The next primary key the configuration table hands out. */
    var nextConfigId: int
    var containers: map<Json, ContainerRecord>
    var images: map<Json, ImageRecord>
    var volumes: map<Json, VolumeRecord>
    var networks: map<Json, NetworkRecord>

    /**
     * Configurations are stored under their own id, below the next id, with unique names; every
     * other row is stored under its runtime key; a container's owner is a stored configuration.
     */
    ghost predicate Valid()
      reads this
    {
      && (forall id :: id in configs ==> configs[id].id == id && id < nextConfigId)
      && (forall a, b :: a in configs && b in configs && configs[a].name == configs[b].name ==> a == b)
      && KeyedBy(containers, ContainerIdOf)
      && KeyedBy(images, ImageIdOf)
      && KeyedBy(volumes, VolumeNameOf)
      && KeyedBy(networks, NetworkIdOf)
      && (forall k :: k in containers && containers[k].configId.Some? ==> containers[k].configId.value in configs)
    }

    constructor()
      ensures Valid()
      ensures configs == map[] && containers == map[] && images == map[] && volumes == map[] && networks == map[]
    {
      configs := map[];
      nextConfigId := 1;
      containers := map[];
      images := map[];
      volumes := map[];
      networks := map[];
    }

    // ------------------------------------------------------------ reconcilers

    /** `update_all_containers_info(runtime)`. */
    method UpdateAllContainersInfo(runtime: seq<C.ContainerInfo>, encode: Encoder, now: int)
      requires Valid()
      modifies this`containers
      ensures Valid()
      ensures containers == ContainersAfter(old(containers), runtime, encode, now)
    {
      ghost var before := containers;
      containers := ReconcileTable(containers, runtime, ContainerKey, ContainerInserter(encode, now), UpdateContainer);
      ContainersReconciled(before, runtime, encode, now);
      UpsertedKeyed(Restricted(before, Ids(runtime, ContainerKey)), runtime, ContainerKey, ContainerInserter(encode, now),
                    UpdateContainer, ContainerIdOf);
    }

    /** `update_all_images_info(runtime)`. */
    method UpdateAllImagesInfo(runtime: seq<I.ImageInfo>, parse: Vol.DateParser, now: int)
      requires Valid()
      modifies this`images
      ensures Valid()
      ensures images == ImagesAfter(old(images), runtime, parse, now)
    {
      ghost var before := images;
      images := ReconcileTable(images, runtime, ImageKey, ImageInserter(parse, now), ImageUpdater(parse, now));
      UpsertedKeyed(Restricted(before, Ids(runtime, ImageKey)), runtime, ImageKey, ImageInserter(parse, now),
                    ImageUpdater(parse, now), ImageIdOf);
    }

    /** `update_all_volumes_info(runtime)`. */
    method UpdateAllVolumesInfo(runtime: seq<Vol.VolumeInfo>, now: int)
      requires Valid()
      modifies this`volumes
      ensures Valid()
      ensures volumes == VolumesAfter(old(volumes), runtime, now)
    {
      ghost var before := volumes;
      volumes := ReconcileTable(volumes, runtime, VolumeKey, VolumeInserter(now), VolumeUpdater(now));
      UpsertedKeyed(Restricted(before, Ids(runtime, VolumeKey)), runtime, VolumeKey, VolumeInserter(now),
                    VolumeUpdater(now), VolumeNameOf);
    }

    /** `update_all_networks_info(runtime)`. */
    method UpdateAllNetworksInfo(runtime: seq<N.NetworkInfo>, now: int)
      requires Valid()
      modifies this`networks
      ensures Valid()
      ensures networks == NetworksAfter(old(networks), runtime, now)
    {
      ghost var before := networks;
      networks := ReconcileTable(networks, runtime, NetworkKey, NetworkInserter(now), NetworkUpdater(now));
      UpsertedKeyed(Restricted(before, Ids(runtime, NetworkKey)), runtime, NetworkKey, NetworkInserter(now),
                    NetworkUpdater(now), NetworkIdOf);
    }

    // ------------------------------------------------------------ a stack's containers

    /**
     * `update_container_info(id)` with the listing `runtime`: nothing for an unknown stack;
     * otherwise the stack's rows are deleted and every matching container is stored as the
     * stack's (replacing a row with the same id; see `DockerTables.TagAsWritten` for the code
     * as written).
     */
    method TagStackContainers(id: int, runtime: seq<C.ContainerInfo>, encode: Encoder, now: int)
      requires Valid()
      modifies this`containers
      ensures Valid()
      ensures containers == if id in configs then Tagged(old(containers), id, configs[id].name, runtime, encode, now)
                            else old(containers)
    {
      if id !in configs {
        return;
      }
      var name := configs[id].name;
      ghost var before := containers;
      var t := Untagged(containers, id);
      var i := 0;
      while i < |runtime|
        invariant i <= |runtime|
        invariant Upserted(t, Matching(name, runtime[i..]), ContainerKey, TagInserter(id, encode, now), TagReplacer(id, encode, now))
                  == Tagged(before, id, name, runtime, encode, now)
      {
        var c := runtime[i];
        assert runtime[i..][0] == c && runtime[i..][1..] == runtime[i + 1..];
        var m := Matching(name, runtime[i + 1..]);
        if Matches(name, c) {
          assert Matching(name, runtime[i..]) == [c] + m;
          assert ([c] + m)[0] == c && ([c] + m)[1..] == m;
          var row := NewContainer(c.id, c.name, c.image, c.status, now, encode, Some(id), c.ports);
          assert TagInserter(id, encode, now)(c) == row;
          assert c.id in t ==> TagReplacer(id, encode, now)(t[c.id], c) == row;
          t := t[c.id := row];
        } else {
          assert Matching(name, runtime[i..]) == m;
        }
        i := i + 1;
      }
      containers := t;
      TagKeepsValid(before, id, name, runtime, encode, now);
    }

    lemma TagKeepsValid(before: map<Json, ContainerRecord>, id: int, name: string, runtime: seq<C.ContainerInfo>,
                        encode: Encoder, now: int)
      requires KeyedBy(before, ContainerIdOf) && id in configs
      requires forall k :: k in before && before[k].configId.Some? ==> before[k].configId.value in configs
      ensures var t := Tagged(before, id, name, runtime, encode, now);
              KeyedBy(t, ContainerIdOf) && forall k :: k in t && t[k].configId.Some? ==> t[k].configId.value in configs
    {
      TaggedExactly(before, id, name, runtime, encode, now);
      UpsertedKeyed(Untagged(before, id), Matching(name, runtime), ContainerKey, TagInserter(id, encode, now),
                    TagReplacer(id, encode, now), ContainerIdOf);
    }

    // ------------------------------------------------------------ stack handlers

    /** The insert of a new stack under the next id; its name is not taken. */
    method StoreConfig(c: ComposeConfig)
      requires Valid() && c.id == nextConfigId
      requires forall id :: id in configs ==> configs[id].name != c.name
      modifies this`configs, this`nextConfigId
      ensures Valid()
      ensures configs == old(configs)[c.id := c] && c.id !in old(configs)
      ensures nextConfigId == old(nextConfigId) + 1
    {
      configs := configs[c.id := c];
      nextConfigId := nextConfigId + 1;
    }

    /** Deletes the container rows a stack owns. */
    method DropStack(id: int)
      requires Valid()
      modifies this`containers
      ensures Valid()
      ensures containers == Untagged(old(containers), id)
    {
      containers := Untagged(containers, id);
    }

    /** One commit of a stack's row that keeps its id and its name. */
    method SetConfig(id: int, c: ComposeConfig)
      requires Valid() && id in configs && c.id == id && c.name == configs[id].name
      modifies this`configs
      ensures Valid()
      ensures configs == old(configs)[id := c]
    {
      configs := configs[id := c];
    }

    /**
     * `add_config`: a name and a source URL are required, the name must be new, and the compose
     * file must download; only then is a configuration stored, 'down' and inactive.
     */
    method AddConfig(name: Option<string>, sourceUrl: Option<string>, description: Option<string>,
                     fm: ComposeManager, fetch: Fetch, yaml: YamlCheck, now: int)
      returns (created: Option<int>, message: string)
      requires Valid()
      modifies this`configs, this`nextConfigId, fm`files
      ensures Valid()
      ensures Missing(name) || Missing(sourceUrl) ==>
                created == None && message == "Name and source URL are required." && fm.files == old(fm.files)
      ensures !Missing(name) && !Missing(sourceUrl) && (exists id :: id in old(configs) && old(configs)[id].name == name.value) ==>
                created == None && message == DuplicateMessage(name.value) && fm.files == old(fm.files)
      ensures created.Some? <==>
                !Missing(name) && !Missing(sourceUrl) && (forall id :: id in old(configs) ==> old(configs)[id].name != name.value) &&
                fetch.Fetched? && yaml(ReadBack(fetch.text)).None?
      ensures fetch.FetchFailed? ==> fm.files == old(fm.files)
      ensures !Missing(name) && !Missing(sourceUrl) && (forall id :: id in old(configs) ==> old(configs)[id].name != name.value) &&
              fetch.Fetched? ==>
                fm.files == old(fm.files)[ComposePath(fm.composeDir, name.value) := fetch.text]
      ensures created.None? ==> configs == old(configs)
      ensures created.Some? ==>
                created.value !in old(configs) &&
                configs == old(configs)[created.value := NewComposeConfig(created.value, name.value, sourceUrl.value, now,
                                          description, Some(ComposePath(fm.composeDir, name.value)), status := "down")] &&
                fm.files == old(fm.files)[ComposePath(fm.composeDir, name.value) := fetch.text]
    {
      if Missing(name) || Missing(sourceUrl) {
        return None, "Name and source URL are required.";
      }
      if exists id :: id in configs && configs[id].name == name.value {
        return None, DuplicateMessage(name.value);
      }
      var ok, msg, path := fm.DownloadComposeFile(name.value, fetch, yaml);
      if !ok {
        return None, msg;
      }
      var id := nextConfigId;
      StoreConfig(NewComposeConfig(id, name.value, sourceUrl.value, now, description, path, status := "down"));
      return Some(id), "Docker Compose configuration \"" + name.value + "\" added successfully.";
    }

    /**
     * `check_updates`: with the compose file present, records the check time and whether the
     * source differs (False also when the check itself fails).
     */
    method CheckUpdates(id: int, fm: ComposeManager, fetch: Fetch, now: int) returns (outcome: HandlerOutcome)
      requires Valid()
      modifies this`configs
      ensures Valid()
      ensures id !in old(configs) ==> outcome == NotFound && configs == old(configs)
      ensures id in old(configs) && FileOf(old(configs)[id], fm.files).None? ==> outcome == FileMissing && configs == old(configs)
      ensures id in old(configs) && FileOf(old(configs)[id], fm.files).Some? ==>
                var check := UpdateCheck(fm.files, FileOf(old(configs)[id], fm.files).value, fetch);
                outcome == Finished(check.0, "") &&
                configs == old(configs)[id := old(configs)[id].(lastChecked := now, updateAvailable := check.1)]
    {
      if id !in configs {
        return NotFound;
      }
      var path := FileOf(configs[id], fm.files);
      if path.None? {
        return FileMissing;
      }
      var (success, available) := fm.CheckForUpdates(path.value, fetch);
      SetConfig(id, configs[id].(lastChecked := now, updateAvailable := available));
      return Finished(success, "");
    }

    /**
     * The store write of `view_config`: with the compose file present, the stack's status is
     * refreshed from the status command and committed; otherwise nothing changes.
     */
    method ViewConfig(id: int, fm: ComposeManager, ps: ProcessOutcome, decode: Decoder)
      returns (found: bool, refreshed: Option<string>)
      requires Valid()
      modifies this`configs
      ensures Valid()
      ensures found <==> id in old(configs)
      ensures refreshed.Some? <==> id in old(configs) && FileOf(old(configs)[id], fm.files).Some?
      ensures refreshed.None? ==> configs == old(configs)
      ensures refreshed.Some? ==>
                refreshed.value == ComposeStatus(ps, decode) &&
                configs == old(configs)[id := old(configs)[id].(status := ComposeStatus(ps, decode))]
    {
      if id !in configs {
        return false, None;
      }
      var path := FileOf(configs[id], fm.files);
      if path.None? {
        return true, None;
      }
      var command, status := CheckComposeStatus(path.value, ps, decode);
      SetConfig(id, configs[id].(status := status));
      return true, Some(status);
    }

    /** `update_config`: a successful update records the time and clears the pending-update flag. */
    method UpdateConfig(id: int, fm: ComposeManager, fetch: Fetch, yaml: YamlCheck, writeOk: bool, writeError: string, now: int)
      returns (outcome: HandlerOutcome)
      requires Valid()
      modifies this`configs, fm`files
      ensures Valid()
      ensures id !in old(configs) ==> outcome == NotFound && configs == old(configs) && fm.files == old(fm.files)
      ensures id in old(configs) && FileOf(old(configs)[id], old(fm.files)).None? ==>
                outcome == FileMissing && configs == old(configs) && fm.files == old(fm.files)
      ensures id in old(configs) && FileOf(old(configs)[id], old(fm.files)).Some? ==>
                var path := FileOf(old(configs)[id], old(fm.files)).value;
                var ok := fetch.Fetched? && yaml(fetch.text).None? && writeOk;
                && outcome.Finished? && outcome.ok == ok
                && fm.files == UpdatedFiles(old(fm.files), path, fetch, yaml, writeOk)
                && configs == if ok then old(configs)[id := old(configs)[id].(lastUpdated := now, updateAvailable := false)]
                              else old(configs)
    {
      if id !in configs {
        return NotFound;
      }
      var path := FileOf(configs[id], fm.files);
      if path.None? {
        return FileMissing;
      }
      var ok, message := fm.UpdateComposeFile(path.value, fetch, yaml, writeOk, writeError);
      if ok {
        SetConfig(id, configs[id].(lastUpdated := now, updateAvailable := false));
      }
      return Finished(ok, message);
    }

    /**
     * `run_config`: the stack is marked 'deploying' while `docker compose up -d` runs; on success it
     * becomes active with the status the status command reports and its containers are tagged; on
     * failure its status is 'error'. `statuses` lists the statuses committed, in order.
     */
    method RunConfig(id: int, fm: ComposeManager, up: StreamOutcome, ps: ProcessOutcome, decode: Decoder,
                     runtime: seq<C.ContainerInfo>, encode: Encoder, now: int)
      returns (outcome: HandlerOutcome, statuses: seq<string>)
      requires Valid()
      modifies this`configs, this`containers
      ensures Valid()
      ensures id !in old(configs) || FileOf(old(configs)[id], fm.files).None? ==>
                outcome == (if id in old(configs) then FileMissing else NotFound) && statuses == [] &&
                configs == old(configs) && containers == old(containers)
      ensures id in old(configs) && FileOf(old(configs)[id], fm.files).Some? ==>
                var ok := StreamResult(up).0;
                var final := if ok then ComposeStatus(ps, decode) else "error";
                && outcome == Finished(ok, StreamResult(up).1)
                && statuses == ["deploying", final]
                && configs == old(configs)[id := old(configs)[id].(isActive := ok || old(configs)[id].isActive, status := final)]
                && containers == if ok then Tagged(old(containers), id, old(configs)[id].name, runtime, encode, now) else old(containers)
    {
      if id !in configs {
        return NotFound, [];
      }
      var path := FileOf(configs[id], fm.files);
      if path.None? {
        return FileMissing, [];
      }
      var ok, output;
      ok, output, statuses := RunStack(id, path.value, up, ps, decode, runtime, encode, now);
      outcome := Finished(ok, output);
    }

    /** The part of `run_config` after the stack and its file are found. */
    method RunStack(id: int, path: string, up: StreamOutcome, ps: ProcessOutcome, decode: Decoder,
                    runtime: seq<C.ContainerInfo>, encode: Encoder, now: int)
      returns (ok: bool, output: string, statuses: seq<string>)
      requires Valid() && id in configs
      modifies this`configs, this`containers
      ensures Valid()
      ensures (ok, output) == StreamResult(up)
      ensures var final := if ok then ComposeStatus(ps, decode) else "error";
              && statuses == ["deploying", final]
              && configs == old(configs)[id := old(configs)[id].(isActive := ok || old(configs)[id].isActive, status := final)]
              && containers == if ok then Tagged(old(containers), id, old(configs)[id].name, runtime, encode, now) else old(containers)
    {
      ghost var before := configs;
      var c := configs[id];
      SetConfig(id, c.(status := "deploying"));
      var command;
      command, ok, output := RunComposeAction(path, Up, up);
      var final := "error";
      if ok {
        var statusCommand, status := CheckComposeStatus(path, ps, decode);
        final := status;
      }
      SetConfig(id, c.(isActive := ok || c.isActive, status := final));
      Overwrite(before, id, c.(status := "deploying"), c.(isActive := ok || c.isActive, status := final));
      if ok {
        TagStackContainers(id, runtime, encode, now);
      }
      statuses := ["deploying", final];
    }

    /**
     * `stop_config`: 'stopping' while `docker compose down` runs; on success the stack is inactive
     * and 'down' and its container rows are deleted; on failure the status command decides.
     */
    method StopConfig(id: int, fm: ComposeManager, down: StreamOutcome, ps: ProcessOutcome, decode: Decoder)
      returns (outcome: HandlerOutcome, statuses: seq<string>)
      requires Valid()
      modifies this`configs, this`containers
      ensures Valid()
      ensures id !in old(configs) || FileOf(old(configs)[id], fm.files).None? ==>
                outcome == (if id in old(configs) then FileMissing else NotFound) && statuses == [] &&
                configs == old(configs) && containers == old(containers)
      ensures id in old(configs) && FileOf(old(configs)[id], fm.files).Some? ==>
                var ok := StreamResult(down).0;
                var final := if ok then "down" else ComposeStatus(ps, decode);
                && outcome == Finished(ok, StreamResult(down).1)
                && statuses == ["stopping", final]
                && configs == old(configs)[id := old(configs)[id].(isActive := !ok && old(configs)[id].isActive, status := final)]
                && containers == if ok then Untagged(old(containers), id) else old(containers)
    {
      if id !in configs {
        return NotFound, [];
      }
      var path := FileOf(configs[id], fm.files);
      if path.None? {
        return FileMissing, [];
      }
      var ok, output;
      ok, output, statuses := StopStack(id, path.value, down, ps, decode);
      outcome := Finished(ok, output);
    }

    /** The part of `stop_config` after the stack and its file are found. */
    method StopStack(id: int, path: string, down: StreamOutcome, ps: ProcessOutcome, decode: Decoder)
      returns (ok: bool, output: string, statuses: seq<string>)
      requires Valid() && id in configs
      modifies this`configs, this`containers
      ensures Valid()
      ensures (ok, output) == StreamResult(down)
      ensures var final := if ok then "down" else ComposeStatus(ps, decode);
              && statuses == ["stopping", final]
              && configs == old(configs)[id := old(configs)[id].(isActive := !ok && old(configs)[id].isActive, status := final)]
              && containers == if ok then Untagged(old(containers), id) else old(containers)
    {
      ghost var before := configs;
      var c := configs[id];
      SetConfig(id, c.(status := "stopping"));
      var command;
      command, ok, output := RunComposeAction(path, Down, down);
      var final := "down";
      if !ok {
        var statusCommand, status := CheckComposeStatus(path, ps, decode);
        final := status;
      }
      SetConfig(id, c.(isActive := !ok && c.isActive, status := final));
      Overwrite(before, id, c.(status := "stopping"), c.(isActive := !ok && c.isActive, status := final));
      if ok {
        DropStack(id);
      }
      statuses := ["stopping", final];
    }

    /**
     * `restart_config`: 'restarting' while `docker compose restart` runs, then the status command
     * decides either way; on success the stack's containers are tagged again.
     */
    method RestartConfig(id: int, fm: ComposeManager, restart: StreamOutcome, ps: ProcessOutcome, decode: Decoder,
                         runtime: seq<C.ContainerInfo>, encode: Encoder, now: int)
      returns (outcome: HandlerOutcome, statuses: seq<string>)
      requires Valid()
      modifies this`configs, this`containers
      ensures Valid()
      ensures id !in old(configs) || FileOf(old(configs)[id], fm.files).None? ==>
                outcome == (if id in old(configs) then FileMissing else NotFound) && statuses == [] &&
                configs == old(configs) && containers == old(containers)
      ensures id in old(configs) && FileOf(old(configs)[id], fm.files).Some? ==>
                var ok := StreamResult(restart).0;
                && outcome == Finished(ok, StreamResult(restart).1)
                && statuses == ["restarting", ComposeStatus(ps, decode)]
                && configs == old(configs)[id := old(configs)[id].(status := ComposeStatus(ps, decode))]
                && containers == if ok then Tagged(old(containers), id, old(configs)[id].name, runtime, encode, now) else old(containers)
    {
      if id !in configs {
        return NotFound, [];
      }
      var path := FileOf(configs[id], fm.files);
      if path.None? {
        return FileMissing, [];
      }
      var ok, output;
      ok, output, statuses := RestartStack(id, path.value, restart, ps, decode, runtime, encode, now);
      outcome := Finished(ok, output);
    }

    /** The part of `restart_config` after the stack and its file are found. */
    method RestartStack(id: int, path: string, restart: StreamOutcome, ps: ProcessOutcome, decode: Decoder,
                        runtime: seq<C.ContainerInfo>, encode: Encoder, now: int)
      returns (ok: bool, output: string, statuses: seq<string>)
      requires Valid() && id in configs
      modifies this`configs, this`containers
      ensures Valid()
      ensures (ok, output) == StreamResult(restart)
      ensures && statuses == ["restarting", ComposeStatus(ps, decode)]
              && configs == old(configs)[id := old(configs)[id].(status := ComposeStatus(ps, decode))]
              && containers == if ok then Tagged(old(containers), id, old(configs)[id].name, runtime, encode, now) else old(containers)
    {
      ghost var before := configs;
      var c := configs[id];
      SetConfig(id, c.(status := "restarting"));
      var command;
      command, ok, output := RunComposeAction(path, Restart, restart);
      var statusCommand, status := CheckComposeStatus(path, ps, decode);
      SetConfig(id, c.(status := status));
      Overwrite(before, id, c.(status := "restarting"), c.(status := status));
      if ok {
        TagStackContainers(id, runtime, encode, now);
      }
      statuses := ["restarting", status];
    }

    /** `pull_config`: runs `docker compose pull` and changes no row. */
    method PullConfig(id: int, fm: ComposeManager, pull: StreamOutcome) returns (outcome: HandlerOutcome)
      ensures id !in configs ==> outcome == NotFound
      ensures id in configs && FileOf(configs[id], fm.files).None? ==> outcome == FileMissing
      ensures id in configs && FileOf(configs[id], fm.files).Some? ==> outcome == Finished(StreamResult(pull).0, StreamResult(pull).1)
    {
      if id !in configs {
        return NotFound;
      }
      var path := FileOf(configs[id], fm.files);
      if path.None? {
        return FileMissing;
      }
      var command, ok, output := RunComposeAction(path.value, Pull, pull);
      return Finished(ok, output);
    }

    /**
     * `delete_config`: an active stack whose file is present is first brought down (whatever the
     * outcome); then the stack's container rows and the stack itself are deleted.
     */
    method DeleteConfig(id: int, fm: ComposeManager, down: StreamOutcome) returns (found: bool, stopped: Option<Command>)
      requires Valid()
      modifies this`configs, this`containers
      ensures Valid()
      ensures found <==> id in old(configs)
      ensures !found ==> configs == old(configs) && containers == old(containers) && stopped == None
      ensures found ==> configs == old(configs) - {id} && containers == Untagged(old(containers), id)
      ensures found ==> (stopped.Some? <==> old(configs)[id].isActive && FileOf(old(configs)[id], fm.files).Some?)
      ensures stopped.Some? ==> stopped.value == ComposeCommand(FileOf(old(configs)[id], fm.files).value, Down)
    {
      if id !in configs {
        return false, None;
      }
      stopped := None;
      var path := FileOf(configs[id], fm.files);
      if configs[id].isActive && path.Some? {
        var command, ok, output := RunComposeAction(path.value, Down, down);
        stopped := Some(command);
      }
      containers := Untagged(containers, id);
      configs := configs - {id};
      found := true;
    }
  }

  /** A second write to a key hides the first. */
  lemma Overwrite<K, V>(m: map<K, V>, k: K, a: V, b: V)
    ensures m[k := a][k := b] == m[k := b]
  {
  }

  /**
   * Deleting a stack's rows leaves none owned by it, and keeps every other row as it was: the
   * cascade of `delete_config` and of a successful `stop_config`.
   */
  lemma CascadeDeletes(table: map<Json, ContainerRecord>, id: int)
    ensures forall k :: k in Untagged(table, id) ==> Untagged(table, id)[k].configId != Some(id)
    ensures forall k :: k in table && table[k].configId != Some(id) ==> k in Untagged(table, id) && Untagged(table, id)[k] == table[k]
    ensures Untagged(Untagged(table, id), id) == Untagged(table, id)
  {
  }
}
