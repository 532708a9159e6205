/**
 * The volume form of the Docker controller: the `key=value,key2=value2` labels text and the
 * checks on the submitted fields before a volume is created.
 */
module VolumeLabels {
  import opened Wrappers
  import opened Text

  /** A Python dict of labels, as its items in insertion order. */
  type Labels = seq<(string, string)>

  predicate DistinctKeys(d: Labels) {
    forall i, j :: 0 <= i < j < |d| ==> d[i].0 != d[j].0
  }

  /** `d.get(k)`. */
  function Lookup(d: Labels, k: string): Option<string> {
    if d == [] then None else if d[0].0 == k then Some(d[0].1) else Lookup(d[1..], k)
  }

  /** `d[k] = v`: a present key keeps its place and takes the new value; a new key goes last. */
  function Put(d: Labels, k: string, v: string): Labels {
    if d == [] then [(k, v)]
    else if d[0].0 == k then [(k, v)] + d[1..]
    else [d[0]] + Put(d[1..], k, v)
  }

  lemma {:induction false} LookupAbsent(d: Labels, k: string)
    requires forall i :: 0 <= i < |d| ==> d[i].0 != k
    ensures Lookup(d, k) == None
  {
    if d != [] {
      LookupAbsent(d[1..], k);
    }
  }

  /** After `d[k] = v`, `k` maps to `v`. */
  lemma {:induction false} PutFinds(d: Labels, k: string, v: string)
    ensures Lookup(Put(d, k, v), k) == Some(v)
  {
    if d != [] && d[0].0 != k {
      PutFinds(d[1..], k, v);
    }
  }

  /** `d[k] = v` leaves the value of every other key as it was. */
  lemma {:induction false} PutKeepsOthers(d: Labels, k: string, v: string, k': string)
    requires k' != k
    ensures Lookup(Put(d, k, v), k') == Lookup(d, k')
  {
    if d != [] && d[0].0 != k {
      PutKeepsOthers(d[1..], k, v, k');
    } else if d != [] {
      assert ([(k, v)] + d[1..])[1..] == d[1..];
    }
  }

  /** Every key after `d[k] = v` is `k` or a key of `d`. */
  lemma {:induction false} PutKeys(d: Labels, k: string, v: string)
    ensures forall i :: 0 <= i < |Put(d, k, v)| ==> Put(d, k, v)[i].0 == k || exists j :: 0 <= j < |d| && d[j].0 == Put(d, k, v)[i].0
  {
    if d != [] && d[0].0 != k {
      var rest := Put(d[1..], k, v);
      PutKeys(d[1..], k, v);
      forall i | 0 <= i < |[d[0]] + rest| && ([d[0]] + rest)[i].0 != k
        ensures exists j :: 0 <= j < |d| && d[j].0 == ([d[0]] + rest)[i].0
      {
        if i > 0 {
          var j :| 0 <= j < |d[1..]| && d[1..][j].0 == rest[i - 1].0;
          assert d[j + 1] == d[1..][j];
        }
      }
    } else if d != [] {
      forall i | 0 < i < |Put(d, k, v)| ensures exists j :: 0 <= j < |d| && d[j].0 == Put(d, k, v)[i].0 {
        assert Put(d, k, v)[i] == d[i];
      }
    }
  }

  /** `d[k] = v` keeps the keys distinct. */
  lemma {:induction false} PutDistinct(d: Labels, k: string, v: string)
    requires DistinctKeys(d)
    ensures DistinctKeys(Put(d, k, v))
  {
    if d != [] && d[0].0 != k {
      var rest := Put(d[1..], k, v);
      PutDistinct(d[1..], k, v);
      PutKeys(d[1..], k, v);
      forall i | 0 <= i < |rest| ensures rest[i].0 != d[0].0 {
        if rest[i].0 != k {
          var j :| 0 <= j < |d[1..]| && d[1..][j].0 == rest[i].0;
          assert d[1..][j] == d[j + 1];
        }
      }
    }
  }

  /** After `d[k] = v` the keys are distinct again, `k` maps to `v` and every other key keeps its value. */
  lemma PutLookup(d: Labels, k: string, v: string)
    requires DistinctKeys(d)
    ensures DistinctKeys(Put(d, k, v))
    ensures Lookup(Put(d, k, v), k) == Some(v)
    ensures forall k' :: k' != k ==> Lookup(Put(d, k, v), k') == Lookup(d, k')
    ensures forall i :: 0 <= i < |Put(d, k, v)| ==> Put(d, k, v)[i].0 == k || exists j :: 0 <= j < |d| && d[j].0 == Put(d, k, v)[i].0
  {
    PutDistinct(d, k, v);
    PutFinds(d, k, v);
    PutKeys(d, k, v);
    forall k' | k' != k ensures Lookup(Put(d, k, v), k') == Lookup(d, k') {
      PutKeepsOthers(d, k, v, k');
    }
  }

  /** One item of the labels text: stripped, it must split on '=' into exactly a key and a value. */
  function LabelPair(item: string): Option<(string, string)> {
    var parts := Split(Strip(item), '=');
    if |parts| == 2 then Some((parts[0], parts[1])) else None
  }

  /** An accepted item is its key and value joined by '=', once stripped, and neither holds an '='. */
  lemma LabelPairMeaning(item: string)
    ensures LabelPair(item).Some? <==> |Split(Strip(item), '=')| == 2
    ensures LabelPair(item).Some? ==>
              var (k, v) := LabelPair(item).value;
              k + "=" + v == Strip(item) && '=' !in k && '=' !in v
  {
    var parts := Split(Strip(item), '=');
    JoinSplit(Strip(item), '=');
    if |parts| == 2 {
      assert parts[1..] == [parts[1]];
      assert parts[0] in parts && parts[1] in parts;
    }
  }

  /** The pairs assigned left to right into an empty dict. */
  function Dict(ps: Labels): Labels
    decreases |ps|
  {
    if ps == [] then [] else Put(Dict(ps[..|ps| - 1]), ps[|ps| - 1].0, ps[|ps| - 1].1)
  }

  /** The pair `pair` reads from every item, in order; None as soon as one item is not a pair. */
  function ItemPairs(items: seq<string>, pair: string -> Option<(string, string)>): Option<Labels>
    decreases |items|
  {
    if items == [] then Some([])
    else
      match ItemPairs(items[..|items| - 1], pair)
      case None => None
      case Some(ps) =>
        match pair(items[|items| - 1])
        case None => None
        case Some(p) => Some(ps + [p])
  }

  /** The labels of the volume form: none for empty text; else every comma-separated item must be a pair. */
  function LabelsOf(text: string): Option<Labels> {
    if text == "" then Some([])
    else
      match ItemPairs(Split(text, ','), LabelPair)
      case None => None
      case Some(ps) => Some(Dict(ps))
  }

  /** The items are accepted exactly when each is a pair, and then they give their pairs in order. */
  lemma {:induction false} ItemPairsMeaning(items: seq<string>, pair: string -> Option<(string, string)>)
    ensures ItemPairs(items, pair).Some? <==> forall j :: 0 <= j < |items| ==> pair(items[j]).Some?
    ensures ItemPairs(items, pair).Some? ==>
              |ItemPairs(items, pair).value| == |items| &&
              forall j :: 0 <= j < |items| ==> ItemPairs(items, pair).value[j] == pair(items[j]).value
    decreases |items|
  {
    if items != [] {
      var pre := items[..|items| - 1];
      ItemPairsMeaning(pre, pair);
      assert forall j :: 0 <= j < |pre| ==> pre[j] == items[j];
    }
  }

  lemma {:induction false} PairsFailurePersists(items: seq<string>, pair: string -> Option<(string, string)>, i: nat)
    requires i <= |items| && ItemPairs(items[..i], pair).None?
    ensures ItemPairs(items, pair).None?
    decreases |items| - i
  {
    if i < |items| {
      assert items[..i + 1][..i] == items[..i];
      PairsFailurePersists(items, pair, i + 1);
    } else {
      assert items[..i] == items;
    }
  }

  /** The dict built from a list of pairs has distinct keys, each of them the key of some pair. */
  lemma {:induction false} DictKeys(ps: Labels)
    ensures DistinctKeys(Dict(ps))
    ensures forall i :: 0 <= i < |Dict(ps)| ==> exists j :: 0 <= j < |ps| && ps[j].0 == Dict(ps)[i].0
    decreases |ps|
  {
    if ps != [] {
      var pre := ps[..|ps| - 1];
      var p := ps[|ps| - 1];
      DictKeys(pre);
      PutLookup(Dict(pre), p.0, p.1);
      var r := Dict(ps);
      forall i | 0 <= i < |r| ensures exists j :: 0 <= j < |ps| && ps[j].0 == r[i].0 {
        if r[i].0 != p.0 {
          var j :| 0 <= j < |Dict(pre)| && Dict(pre)[j].0 == r[i].0;
          var j' :| 0 <= j' < |pre| && pre[j'].0 == Dict(pre)[j].0;
          assert ps[j'] == pre[j'];
        }
      }
    }
  }

  /** The dict maps the key of pair `i` to its value when no later pair has that key. */
  lemma {:induction false} DictLastWinsAt(ps: Labels, i: nat)
    requires i < |ps| && forall j :: i < j < |ps| ==> ps[j].0 != ps[i].0
    ensures Lookup(Dict(ps), ps[i].0) == Some(ps[i].1)
    decreases |ps|
  {
    var n := |ps| - 1;
    var pre := ps[..n];
    if i == n {
      PutFinds(Dict(pre), ps[n].0, ps[n].1);
    } else {
      assert pre[i] == ps[i];
      assert forall j :: i < j < n ==> pre[j] == ps[j];
      DictLastWinsAt(pre, i);
      PutKeepsOthers(Dict(pre), ps[n].0, ps[n].1, ps[i].0);
    }
  }

  /** Each key of the dict holds the value of the last pair with that key. */
  lemma DictLastWins(ps: Labels)
    ensures forall i :: 0 <= i < |ps| && (forall j :: i < j < |ps| ==> ps[j].0 != ps[i].0) ==>
              Lookup(Dict(ps), ps[i].0) == Some(ps[i].1)
  {
    forall i | 0 <= i < |ps| && (forall j :: i < j < |ps| ==> ps[j].0 != ps[i].0)
      ensures Lookup(Dict(ps), ps[i].0) == Some(ps[i].1)
    {
      DictLastWinsAt(ps, i);
    }
  }

  /** `create_volume_route`'s labels loop. */
  method ParseLabels(text: string) returns (labels: Option<Labels>)
    ensures labels == LabelsOf(text)
  {
    if text == "" {
      return Some([]);
    }
    var items := Split(text, ',');
    var d: Labels := [];
    ghost var ps: Labels := [];
    var i := 0;
    while i < |items|
      invariant i <= |items|
      invariant ItemPairs(items[..i], LabelPair) == Some(ps) && d == Dict(ps)
    {
      var pair := LabelPair(items[i]);
      assert items[..i + 1][..i] == items[..i];
      if pair.None? {
        PairsFailurePersists(items, LabelPair, i + 1);
        return None;
      }
      d := Put(d, pair.value.0, pair.value.1);
      assert (ps + [pair.value])[..|ps|] == ps;
      ps := ps + [pair.value];
      i := i + 1;
    }
    assert items[..i] == items;
    return Some(d);
  }

  /** The validated fields of a volume creation request: name, driver and labels. */
  datatype VolumeRequest = VolumeRequest(name: string, driver: string, labels: Labels)

  /**
   * `create_volume_route`'s checks: a volume name is required, the driver defaults to 'local',
   * and the labels text (default '') must parse.
   */
  method CheckVolumeForm(name: Option<string>, driver: Option<string>, labelsText: Option<string>)
    returns (r: Result<VolumeRequest>)
    ensures (name.None? || name.value == "") ==> r == Err("Volume name is required.")
    ensures r.Ok? <==> name.Some? && name.value != "" && LabelsOf(labelsText.GetOr("")).Some?
    ensures r.Ok? ==> r.value == VolumeRequest(name.value, driver.GetOr("local"), LabelsOf(labelsText.GetOr("")).value)
    ensures r.Err? && name.Some? && name.value != "" ==> r == Err("Invalid labels format. Use key=value,key2=value2")
  {
    if name.None? || name.value == "" {
      return Err("Volume name is required.");
    }
    var labels := ParseLabels(labelsText.GetOr(""));
    if labels.None? {
      return Err("Invalid labels format. Use key=value,key2=value2");
    }
    return Ok(VolumeRequest(name.value, driver.GetOr("local"), labels.value));
  }
}
