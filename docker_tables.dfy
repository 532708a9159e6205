/**
 * What the Docker controller does to the persisted tables: the four `update_all_*_info`
 * reconcilers, the tagging of a stack's containers (`update_container_info`) and the deletion
 * of a stack's containers. Each table is a map keyed by the runtime identifier of its rows.
 */
module DockerTables {
  import opened Wrappers
  import opened JsonValues
  import opened Text
  import opened DockerRecords
  import opened Reconcile
  import C = Containers
  import I = Images
  import Vol = Volumes
  import N = Networks

  // ---------------------------------------------------------------- containers

  function ContainerKey(c: C.ContainerInfo): Json {
    c.id
  }

  function ContainerIdOf(r: ContainerRecord): Json {
    r.containerId
  }

  function OwnerOf(r: ContainerRecord): Option<int> {
    r.configId
  }

  /** The columns a listing entry overwrites on an existing row. */
  function Shown(r: ContainerRecord): (Json, Json, Json) {
    (r.name, r.image, r.status)
  }

  function ShownOf(c: C.ContainerInfo): (Json, Json, Json) {
    (c.name, c.image, c.status)
  }

  /** A new row for a listed container: ports stored encoded, no owning configuration. */
  function ContainerInserter(encode: Encoder, now: int): C.ContainerInfo -> ContainerRecord {
    (c: C.ContainerInfo) => NewContainer(c.id, c.name, c.image, c.status, now, encode, ports := c.ports)
  }

  /** An existing row refreshed from the listing: the raw ports value is assigned, not its encoding. */
  function UpdateContainer(r: ContainerRecord, c: C.ContainerInfo): ContainerRecord {
    r.(name := c.name, image := c.image, status := c.status, ports := c.ports)
  }

  /** The container table after `update_all_containers_info(runtime)`. */
  function ContainersAfter(table: map<Json, ContainerRecord>, runtime: seq<C.ContainerInfo>, encode: Encoder, now: int)
    : map<Json, ContainerRecord>
  {
    Reconciled(table, runtime, ContainerKey, ContainerInserter(encode, now), UpdateContainer)
  }

  /**
   * After `update_all_containers_info` the stored ids are exactly the listed ids; a row that
   * existed keeps its owning configuration and a new row has none; name, image and status come
   * from the last listing entry with that id.
   */
  lemma ContainersReconciled(table: map<Json, ContainerRecord>, runtime: seq<C.ContainerInfo>, encode: Encoder, now: int)
    ensures var t := ContainersAfter(table, runtime, encode, now);
            && t.Keys == Ids(runtime, ContainerKey)
            && (forall k :: k in t ==> t[k].configId == if k in table then table[k].configId else None)
            && (forall i :: 0 <= i < |runtime| && runtime[i].id !in Ids(runtime[i + 1..], ContainerKey) ==>
                  Shown(t[runtime[i].id]) == ShownOf(runtime[i]))
  {
    var ids := Ids(runtime, ContainerKey);
    var base := Restricted(table, ids);
    var t := ContainersAfter(table, runtime, encode, now);
    ReconciledKeys(table, runtime, ContainerKey, ContainerInserter(encode, now), UpdateContainer);
    UpsertedKeeps(base, runtime, ContainerKey, ContainerInserter(encode, now), UpdateContainer, OwnerOf, None);
    forall i | 0 <= i < |runtime| && runtime[i].id !in Ids(runtime[i + 1..], ContainerKey)
      ensures Shown(t[runtime[i].id]) == ShownOf(runtime[i])
    {
      UpsertedLast(base, runtime, ContainerKey, ContainerInserter(encode, now), UpdateContainer, Shown, ShownOf, i);
    }
  }

  /**
   * The ports column is not idempotent under reconciliation: a container first seen stores the
   * encoding of its ports, and the next pass over the same listing replaces it by the raw value.
   */
  lemma ContainerPortsFlip(table: map<Json, ContainerRecord>, c: C.ContainerInfo, encode: Encoder, now: int, later: int)
    requires c.id !in table && Truthy(c.ports)
    ensures var once := ContainersAfter(table, [c], encode, now);
            var twice := ContainersAfter(once, [c], encode, later);
            c.id in once && once[c.id].ports == JStr(encode(c.ports)) && c.id in twice && twice[c.id].ports == c.ports
  {
    var ids := Ids([c], ContainerKey);
    IdsSingle(c);
    assert Restricted(table, ids) == map[];
    var ins := ContainerInserter(encode, now);
    var once := ContainersAfter(table, [c], encode, now);
    assert [c][1..] == [];
    assert once == Upserted(map[], [c], ContainerKey, ins, UpdateContainer);
    assert once == Upserted(map[c.id := ins(c)], [], ContainerKey, ins, UpdateContainer);
    assert Restricted(once, ids) == once;
    var twice := ContainersAfter(once, [c], encode, later);
    assert twice == Upserted(once, [c], ContainerKey, ContainerInserter(encode, later), UpdateContainer);
    assert twice == Upserted(once[c.id := UpdateContainer(once[c.id], c)], [], ContainerKey, ContainerInserter(encode, later), UpdateContainer);
  }

  lemma IdsSingle(c: C.ContainerInfo)
    ensures Ids([c], ContainerKey) == {c.id}
  {
    IdsCons([c], ContainerKey);
    assert [c][1..] == [];
  }

  // ---------------------------------------------------------------- images, volumes, networks

  function ImageKey(i: I.ImageInfo): Json {
    i.id
  }

  function ImageIdOf(r: ImageRecord): Json {
    r.imageId
  }

  /** The creation time stored for a listed image: its parsed CreatedAt, or the current time when parsing raises. */
  function ImageCreated(i: I.ImageInfo, parse: Vol.DateParser, now: int): int {
    parse(i.created).GetOr(now)
  }

  function ImageData(r: ImageRecord): (Json, Json, Json, int) {
    (r.repository, r.tag, r.size, r.created)
  }

  function ImageView(parse: Vol.DateParser, now: int): I.ImageInfo -> (Json, Json, Json, int) {
    (i: I.ImageInfo) => (i.repository, i.tag, i.size, ImageCreated(i, parse, now))
  }

  function ImageInserter(parse: Vol.DateParser, now: int): I.ImageInfo -> ImageRecord {
    (i: I.ImageInfo) => ImageRecord(i.id, i.repository, i.tag, i.size, ImageCreated(i, parse, now))
  }

  function ImageUpdater(parse: Vol.DateParser, now: int): (ImageRecord, I.ImageInfo) -> ImageRecord {
    (r: ImageRecord, i: I.ImageInfo) => r.(repository := i.repository, tag := i.tag, size := i.size, created := ImageCreated(i, parse, now))
  }

  /** The image table after `update_all_images_info(runtime)`. */
  function ImagesAfter(table: map<Json, ImageRecord>, runtime: seq<I.ImageInfo>, parse: Vol.DateParser, now: int)
    : map<Json, ImageRecord>
  {
    Reconciled(table, runtime, ImageKey, ImageInserter(parse, now), ImageUpdater(parse, now))
  }

  /**
   * After `update_all_images_info` the stored image ids are exactly the listed ones, and each row
   * carries the repository, tag, size and creation time of the last entry with its id.
   */
  lemma ImagesReconciled(table: map<Json, ImageRecord>, runtime: seq<I.ImageInfo>, parse: Vol.DateParser, now: int)
    ensures var t := ImagesAfter(table, runtime, parse, now);
            && t.Keys == Ids(runtime, ImageKey)
            && (forall i :: 0 <= i < |runtime| && runtime[i].id !in Ids(runtime[i + 1..], ImageKey) ==>
                  ImageData(t[runtime[i].id]) == ImageView(parse, now)(runtime[i]))
  {
    var base := Restricted(table, Ids(runtime, ImageKey));
    ReconciledKeys(table, runtime, ImageKey, ImageInserter(parse, now), ImageUpdater(parse, now));
    forall i | 0 <= i < |runtime| && runtime[i].id !in Ids(runtime[i + 1..], ImageKey)
      ensures ImageData(ImagesAfter(table, runtime, parse, now)[runtime[i].id]) == ImageView(parse, now)(runtime[i])
    {
      UpsertedLast(base, runtime, ImageKey, ImageInserter(parse, now), ImageUpdater(parse, now), ImageData, ImageView(parse, now), i);
    }
  }

  function VolumeKey(v: Vol.VolumeInfo): Json {
    v.name
  }

  function VolumeNameOf(r: VolumeRecord): Json {
    r.volumeName
  }

  function VolumeData(r: VolumeRecord): (Json, Json, int) {
    (r.driver, r.mountpoint, r.created)
  }

  /** Driver, mountpoint, and the listed creation time or else the current time. */
  function VolumeView(now: int): Vol.VolumeInfo -> (Json, Json, int) {
    (v: Vol.VolumeInfo) => (v.driver, v.mountpoint, v.created.GetOr(now))
  }

  function VolumeInserter(now: int): Vol.VolumeInfo -> VolumeRecord {
    (v: Vol.VolumeInfo) => VolumeRecord(v.name, v.driver, v.mountpoint, v.created.GetOr(now))
  }

  function VolumeUpdater(now: int): (VolumeRecord, Vol.VolumeInfo) -> VolumeRecord {
    (r: VolumeRecord, v: Vol.VolumeInfo) => r.(driver := v.driver, mountpoint := v.mountpoint, created := v.created.GetOr(now))
  }

  /** The volume table after `update_all_volumes_info(runtime)`. */
  function VolumesAfter(table: map<Json, VolumeRecord>, runtime: seq<Vol.VolumeInfo>, now: int): map<Json, VolumeRecord> {
    Reconciled(table, runtime, VolumeKey, VolumeInserter(now), VolumeUpdater(now))
  }

  /** After `update_all_volumes_info` the stored names are exactly the listed ones, each row from the last entry of its name. */
  lemma VolumesReconciled(table: map<Json, VolumeRecord>, runtime: seq<Vol.VolumeInfo>, now: int)
    ensures var t := VolumesAfter(table, runtime, now);
            && t.Keys == Ids(runtime, VolumeKey)
            && (forall i :: 0 <= i < |runtime| && runtime[i].name !in Ids(runtime[i + 1..], VolumeKey) ==>
                  VolumeData(t[runtime[i].name]) == VolumeView(now)(runtime[i]))
  {
    var base := Restricted(table, Ids(runtime, VolumeKey));
    ReconciledKeys(table, runtime, VolumeKey, VolumeInserter(now), VolumeUpdater(now));
    forall i | 0 <= i < |runtime| && runtime[i].name !in Ids(runtime[i + 1..], VolumeKey)
      ensures VolumeData(VolumesAfter(table, runtime, now)[runtime[i].name]) == VolumeView(now)(runtime[i])
    {
      UpsertedLast(base, runtime, VolumeKey, VolumeInserter(now), VolumeUpdater(now), VolumeData, VolumeView(now), i);
    }
  }

  function NetworkKey(n: N.NetworkInfo): Json {
    n.id
  }

  function NetworkIdOf(r: NetworkRecord): Json {
    r.networkId
  }

  function NetworkData(r: NetworkRecord): (Json, Json, Json, int) {
    (r.name, r.driver, r.scope, r.created)
  }

  function NetworkView(now: int): N.NetworkInfo -> (Json, Json, Json, int) {
    (n: N.NetworkInfo) => (n.name, n.driver, n.scope, n.created.GetOr(now))
  }

  function NetworkInserter(now: int): N.NetworkInfo -> NetworkRecord {
    (n: N.NetworkInfo) => NetworkRecord(n.id, n.name, n.driver, n.scope, n.created.GetOr(now))
  }

  function NetworkUpdater(now: int): (NetworkRecord, N.NetworkInfo) -> NetworkRecord {
    (r: NetworkRecord, n: N.NetworkInfo) => r.(name := n.name, driver := n.driver, scope := n.scope, created := n.created.GetOr(now))
  }

  /** The network table after `update_all_networks_info(runtime)`. */
  function NetworksAfter(table: map<Json, NetworkRecord>, runtime: seq<N.NetworkInfo>, now: int): map<Json, NetworkRecord> {
    Reconciled(table, runtime, NetworkKey, NetworkInserter(now), NetworkUpdater(now))
  }

  /** After `update_all_networks_info` the stored ids are exactly the listed ones, each row from the last entry of its id. */
  lemma NetworksReconciled(table: map<Json, NetworkRecord>, runtime: seq<N.NetworkInfo>, now: int)
    ensures var t := NetworksAfter(table, runtime, now);
            && t.Keys == Ids(runtime, NetworkKey)
            && (forall i :: 0 <= i < |runtime| && runtime[i].id !in Ids(runtime[i + 1..], NetworkKey) ==>
                  NetworkData(t[runtime[i].id]) == NetworkView(now)(runtime[i]))
  {
    var base := Restricted(table, Ids(runtime, NetworkKey));
    ReconciledKeys(table, runtime, NetworkKey, NetworkInserter(now), NetworkUpdater(now));
    forall i | 0 <= i < |runtime| && runtime[i].id !in Ids(runtime[i + 1..], NetworkKey)
      ensures NetworkData(NetworksAfter(table, runtime, now)[runtime[i].id]) == NetworkView(now)(runtime[i])
    {
      UpsertedLast(base, runtime, NetworkKey, NetworkInserter(now), NetworkUpdater(now), NetworkData, NetworkView(now), i);
    }
  }

  // ---------------------------------------------------------------- a stack's containers

  /** A listed container belongs to a stack when its lower-cased name contains the stack's lower-cased name. */
  predicate Matches(configName: string, c: C.ContainerInfo) {
    c.name.JStr? && Contains(Lower(c.name.s), Lower(configName))
  }

  /** The listed containers of a stack, in listing order. */
  function Matching(configName: string, runtime: seq<C.ContainerInfo>): (m: seq<C.ContainerInfo>)
    ensures |m| <= |runtime|
    ensures forall j :: 0 <= j < |m| ==> Matches(configName, m[j])
  {
    if runtime == [] then []
    else (if Matches(configName, runtime[0]) then [runtime[0]] else []) + Matching(configName, runtime[1..])
  }

  /** A container id belongs to the stack's listing exactly when some matching listed container has it. */
  lemma {:induction false} MatchingIds(configName: string, runtime: seq<C.ContainerInfo>, k: Json)
    ensures k in Ids(Matching(configName, runtime), ContainerKey) <==>
            exists i :: 0 <= i < |runtime| && Matches(configName, runtime[i]) && runtime[i].id == k
    decreases |runtime|
  {
    if runtime != [] {
      var head := if Matches(configName, runtime[0]) then [runtime[0]] else [];
      var rest := Matching(configName, runtime[1..]);
      MatchingIds(configName, runtime[1..], k);
      if Matches(configName, runtime[0]) {
        IdsCons(head + rest, ContainerKey);
        assert (head + rest)[1..] == rest;
      } else {
        assert head + rest == rest;
      }
      if exists i :: 0 <= i < |runtime| && Matches(configName, runtime[i]) && runtime[i].id == k {
        var i :| 0 <= i < |runtime| && Matches(configName, runtime[i]) && runtime[i].id == k;
        if i > 0 {
          assert runtime[1..][i - 1] == runtime[i];
        }
      }
      if exists j :: 0 <= j < |runtime[1..]| && Matches(configName, runtime[1..][j]) && runtime[1..][j].id == k {
        var j :| 0 <= j < |runtime[1..]| && Matches(configName, runtime[1..][j]) && runtime[1..][j].id == k;
        assert runtime[j + 1] == runtime[1..][j];
      }
    }
  }

  /** The container table without the rows owned by `configId` (the bulk delete by config_id). */
  function Untagged(table: map<Json, ContainerRecord>, configId: int): (t: map<Json, ContainerRecord>)
    ensures forall k :: k in t <==> k in table && table[k].configId != Some(configId)
    ensures forall k :: k in t ==> t[k] == table[k]
  {
    map k | k in table && table[k].configId != Some(configId) :: table[k]
  }

  /** The row `update_container_info` builds for a matching container: owned by the stack, ports encoded. */
  function TagInserter(configId: int, encode: Encoder, now: int): C.ContainerInfo -> ContainerRecord {
    (c: C.ContainerInfo) => NewContainer(c.id, c.name, c.image, c.status, now, encode, Some(configId), c.ports)
  }

  function TagReplacer(configId: int, encode: Encoder, now: int): (ContainerRecord, C.ContainerInfo) -> ContainerRecord {
    (r: ContainerRecord, c: C.ContainerInfo) => NewContainer(c.id, c.name, c.image, c.status, now, encode, Some(configId), c.ports)
  }

  /**
   * `update_container_info` as intended: drop the stack's rows, then store a fresh row for every
   * matching container, replacing a row already stored under the same id.
   */
  function Tagged(table: map<Json, ContainerRecord>, configId: int, configName: string,
                  runtime: seq<C.ContainerInfo>, encode: Encoder, now: int): map<Json, ContainerRecord>
  {
    Upserted(Untagged(table, configId), Matching(configName, runtime), ContainerKey,
             TagInserter(configId, encode, now), TagReplacer(configId, encode, now))
  }

  /** Every row at a listed key satisfies `p` when both insert and update produce rows satisfying it. */
  lemma {:induction false} UpsertedTouched<K, R, V>(table: map<K, R>, runtime: seq<V>, key: V -> K, insert: V -> R,
                                                   update: (R, V) -> R, p: R -> bool)
    requires forall v :: p(insert(v))
    requires forall r, v :: p(update(r, v))
    ensures forall k :: k in Ids(runtime, key) ==>
              (k in Upserted(table, runtime, key, insert, update) && p(Upserted(table, runtime, key, insert, update)[k]))
    decreases |runtime|
  {
    if runtime != [] {
      var v := runtime[0];
      var k := key(v);
      var t' := table[k := if k in table then update(table[k], v) else insert(v)];
      UpsertedTouched(t', runtime[1..], key, insert, update, p);
      UpsertedKeys(t', runtime[1..], key, insert, update);
      IdsCons(runtime, key);
    }
  }

  function OwnedBy(configId: int): ContainerRecord -> bool {
    (r: ContainerRecord) => r.configId == Some(configId)
  }

  /**
   * After tagging, the rows owned by the stack are exactly those of the matching listed
   * containers; rows of other owners (or none) that no matching container replaces are kept as
   * they were.
   */
  lemma TaggedExactly(table: map<Json, ContainerRecord>, configId: int, configName: string,
                      runtime: seq<C.ContainerInfo>, encode: Encoder, now: int)
    ensures var t := Tagged(table, configId, configName, runtime, encode, now);
            var ids := Ids(Matching(configName, runtime), ContainerKey);
            && (forall k :: k in t && t[k].configId == Some(configId) <==> k in ids)
            && (forall k :: k in table && table[k].configId != Some(configId) && k !in ids ==> k in t && t[k] == table[k])
            && t.Keys == Untagged(table, configId).Keys + ids
  {
    var base := Untagged(table, configId);
    var m := Matching(configName, runtime);
    UpsertedKeys(base, m, ContainerKey, TagInserter(configId, encode, now), TagReplacer(configId, encode, now));
    UpsertedTouched(base, m, ContainerKey, TagInserter(configId, encode, now), TagReplacer(configId, encode, now), OwnedBy(configId));
  }

  /**
   * `update_container_info` as written: the new rows are plain inserts, so a matching container whose
   * id is already stored under another owner (or under none), or two matching entries with one id,
   * violate the unique `container_id` column and the commit fails, leaving the table as it was.
   */
  function TagAsWritten(table: map<Json, ContainerRecord>, configId: int, configName: string,
                        runtime: seq<C.ContainerInfo>, encode: Encoder, now: int): (r: Result<map<Json, ContainerRecord>>)
    ensures r.Err? <==> TagConflict(table, configId, configName, runtime)
  {
    if TagConflict(table, configId, configName, runtime) then Err("UNIQUE constraint failed: docker_containers.container_id")
    else Ok(Inserted(Untagged(table, configId), Matching(configName, runtime), TagInserter(configId, encode, now)))
  }

  predicate TagConflict(table: map<Json, ContainerRecord>, configId: int, configName: string, runtime: seq<C.ContainerInfo>) {
    var m := Matching(configName, runtime);
    exists i :: 0 <= i < |m| && (m[i].id in Untagged(table, configId) || m[i].id in Ids(m[i + 1..], ContainerKey))
  }

  /** Plain inserts, one per entry. */
  function Inserted(table: map<Json, ContainerRecord>, rs: seq<C.ContainerInfo>, insert: C.ContainerInfo -> ContainerRecord)
    : map<Json, ContainerRecord>
    decreases |rs|
  {
    if rs == [] then table else Inserted(table[rs[0].id := insert(rs[0])], rs[1..], insert)
  }

  lemma {:induction false} InsertedIsUpserted(table: map<Json, ContainerRecord>, rs: seq<C.ContainerInfo>,
                                              insert: C.ContainerInfo -> ContainerRecord, update: (ContainerRecord, C.ContainerInfo) -> ContainerRecord)
    requires forall i :: 0 <= i < |rs| ==> rs[i].id !in table && rs[i].id !in Ids(rs[i + 1..], ContainerKey)
    ensures Inserted(table, rs, insert) == Upserted(table, rs, ContainerKey, insert, update)
    decreases |rs|
  {
    if rs != [] {
      var t' := table[rs[0].id := insert(rs[0])];
      forall i | 0 <= i < |rs[1..]| ensures rs[1..][i].id !in t' && rs[1..][i].id !in Ids(rs[1..][i + 1..], ContainerKey) {
        assert rs[1..][i] == rs[i + 1];
        assert rs[1..][i + 1..] == rs[i + 2..];
        IdsCons(rs[i + 1..], ContainerKey);
        assert rs[i + 1..][1..] == rs[i + 2..];
        assert rs[i + 1] != rs[0] ==> true;
        IdsCons(rs, ContainerKey);
        assert rs[i + 1].id in Ids(rs[1..], ContainerKey) by {
          assert rs[1..][i] == rs[i + 1];
        }
      }
      InsertedIsUpserted(t', rs[1..], insert, update);
    }
  }

  /** Without a clash on the unique column, the code as written stores what the intended tagging stores. */
  lemma TagAgrees(table: map<Json, ContainerRecord>, configId: int, configName: string,
                  runtime: seq<C.ContainerInfo>, encode: Encoder, now: int)
    requires !TagConflict(table, configId, configName, runtime)
    ensures TagAsWritten(table, configId, configName, runtime, encode, now) == Ok(Tagged(table, configId, configName, runtime, encode, now))
  {
    InsertedIsUpserted(Untagged(table, configId), Matching(configName, runtime), TagInserter(configId, encode, now),
                       TagReplacer(configId, encode, now));
  }

  /**
   * The clash in practice: the container listing route first records a stack's container with no
   * owner; starting the stack then fails to tag it, while the intended tagging gives it the stack.
   */
  lemma TagClash(encode: Encoder, now: int)
    ensures var c := C.ContainerInfo(JStr("c1"), JStr("web"), JStr("nginx"), JStr("Up"), JStr(""), JStr(""));
            var table := ContainersAfter(map[], [c], encode, now);
            && TagAsWritten(table, 1, "web", [c], encode, now).Err?
            && JStr("c1") in Tagged(table, 1, "web", [c], encode, now)
            && Tagged(table, 1, "web", [c], encode, now)[JStr("c1")].configId == Some(1)
  {
    var c := C.ContainerInfo(JStr("c1"), JStr("web"), JStr("nginx"), JStr("Up"), JStr(""), JStr(""));
    var table := ContainersAfter(map[], [c], encode, now);
    IdsSingle(c);
    assert [c][1..] == [];
    var empty: map<Json, ContainerRecord> := map[];
    assert Restricted(empty, {JStr("c1")}) == empty;
    assert table == Upserted(map[], [c], ContainerKey, ContainerInserter(encode, now), UpdateContainer);
    assert table == Upserted(map[JStr("c1") := ContainerInserter(encode, now)(c)], [], ContainerKey, ContainerInserter(encode, now), UpdateContainer);
    assert Lower("web") == "web";
    assert StartsWith("web", "web");
    assert Matches("web", c);
    assert Matching("web", [c]) == [c];
    assert JStr("c1") in Untagged(table, 1);
    TaggedExactly(table, 1, "web", [c], encode, now);
    assert JStr("c1") in Ids(Matching("web", [c]), ContainerKey);
  }
}
