/**
 * The three read-only listing commands: `snapshots list`, `volumes list` and
 * `instances list`. Each walks the working set and emits one row of columns
 * per item; a row here is the tuple of columns the command joins with ", ".
 */
module Listing {
  import opened Wrappers
  import opened Fleet
  import opened Locator
  import opened Decimal

  /** The snapshot state at which the default listing stops for a volume. */
  const Completed: string := "completed"

  /** The project column of an instance without a `proj` tag. */
  const NoProject: string := "<no project>"

  // ---------------------------------------------------------------------------
  // snapshots list
  // ---------------------------------------------------------------------------

  /** One line of `snapshots list` (the start time column is not modelled). */
  datatype SnapshotRow = SnapshotRow(
    snapshotId: string,
    volumeId: string,
    instanceId: string,
    state: string,
    progress: string)

  function SnapshotRowOf(i: Instance, v: Volume, s: Snapshot): SnapshotRow {
    SnapshotRow(s.id, v.id, i.id, s.state, s.progress)
  }

  /**
   * The part of a snapshot history (newest first) that is listed: all of it
   * with `--all`; otherwise every snapshot up to and including the newest
   * completed one.
   */
  function ShownSnapshots(history: seq<Snapshot>, listAll: bool): seq<Snapshot> {
    if listAll || history == [] then history
    else if history[0].state == Completed then [history[0]]
    else [history[0]] + ShownSnapshots(history[1..], listAll)
  }

  /**
   * The listed part is a prefix of the history: the whole history with
   * `--all`; otherwise it contains no completed snapshot before its last
   * element, and it stops short of the history only at a completed one.
   */
  lemma {:induction false} ShownSnapshotsShape(history: seq<Snapshot>, listAll: bool)
    ensures var r := ShownSnapshots(history, listAll);
      && |r| <= |history| && r == history[..|r|]
      && (listAll ==> r == history)
      && (!listAll ==> forall k :: 0 <= k < |r| - 1 ==> r[k].state != Completed)
      && (|r| < |history| ==> |r| > 0 && r[|r| - 1].state == Completed)
  {
    if !listAll && history != [] && history[0].state != Completed {
      ShownSnapshotsShape(history[1..], listAll);
    }
  }

  /** The rows for the listed snapshots of volume `v` of instance `i`. */
  function SnapshotLines(i: Instance, v: Volume, shown: seq<Snapshot>): seq<SnapshotRow> {
    if shown == [] then []
    else SnapshotLines(i, v, shown[..|shown| - 1]) + [SnapshotRowOf(i, v, shown[|shown| - 1])]
  }

  /** The rows for the volumes `vols` of instance `i`, volume by volume. */
  function VolumeSnapshotRows(i: Instance, vols: seq<Volume>, listAll: bool): seq<SnapshotRow> {
    if vols == [] then []
    else
      var v := vols[|vols| - 1];
      VolumeSnapshotRows(i, vols[..|vols| - 1], listAll)
        + SnapshotLines(i, v, ShownSnapshots(v.snapshots, listAll))
  }

  /** Every row of `snapshots list` over the working set `sel`, instance by instance. */
  function SnapshotRows(sel: seq<Instance>, listAll: bool): seq<SnapshotRow> {
    if sel == [] then []
    else
      var i := sel[|sel| - 1];
      SnapshotRows(sel[..|sel| - 1], listAll) + VolumeSnapshotRows(i, i.volumes, listAll)
  }

  /** A prefix of a history that the listing loop can stop at is exactly the listed part. */
  lemma ShownSnapshotsUpTo(history: seq<Snapshot>, listAll: bool, m: nat)
    requires m <= |history|
    requires listAll ==> m == |history|
    requires !listAll ==> forall q :: 0 <= q < m - 1 ==> history[q].state != Completed
    requires m < |history| ==> m > 0 && history[m - 1].state == Completed
    ensures ShownSnapshots(history, listAll) == history[..m]
  {
    ShownSnapshotsShape(history, listAll);
  }

  /** The innermost loop of `snapshots_call`: the listed snapshots of one volume. */
  method ListHistory(i: Instance, v: Volume, listAll: bool) returns (lines: seq<SnapshotRow>)
    ensures lines == SnapshotLines(i, v, ShownSnapshots(v.snapshots, listAll))
  {
    var history := v.snapshots;
    lines := [];
    var m := 0;
    while m < |history|
      invariant m <= |history|
      invariant lines == SnapshotLines(i, v, history[..m])
      invariant !listAll ==> forall q :: 0 <= q < m ==> history[q].state != Completed
    {
      var s := history[m];
      lines := lines + [SnapshotRowOf(i, v, s)];
      assert history[..m + 1][..m] == history[..m];
      m := m + 1;
      if s.state == Completed && !listAll {
        break;
      }
    }
    ShownSnapshotsUpTo(history, listAll, m);
  }

  /** The middle loop of `snapshots_call`: the rows for every volume of one instance. */
  method ListVolumes(i: Instance, listAll: bool) returns (lines: seq<SnapshotRow>)
    ensures lines == VolumeSnapshotRows(i, i.volumes, listAll)
  {
    var vols := i.volumes;
    lines := [];
    var j := 0;
    while j < |vols|
      invariant j <= |vols|
      invariant lines == VolumeSnapshotRows(i, vols[..j], listAll)
    {
      var more := ListHistory(i, vols[j], listAll);
      lines := lines + more;
      assert vols[..j + 1][..j] == vols[..j];
      j := j + 1;
    }
    assert vols[..j] == vols;
  }

  /** `snapshots_call(project, list_all)`: the rows it prints, in order. */
  method SnapshotsCall(fleet: seq<Instance>, project: Option<string>, listAll: bool)
    returns (rows: seq<SnapshotRow>)
    ensures rows == SnapshotRows(FilterInstances(fleet, project), listAll)
  {
    var sel := FilterInstances(fleet, project);
    rows := [];
    var k := 0;
    while k < |sel|
      invariant k <= |sel|
      invariant rows == SnapshotRows(sel[..k], listAll)
    {
      var more := ListVolumes(sel[k], listAll);
      rows := rows + more;
      assert sel[..k + 1][..k] == sel[..k];
      k := k + 1;
    }
    assert sel[..k] == sel;
  }

  /** The rows of one history are its listed snapshots, in order. */
  lemma {:induction false} SnapshotLinesExact(i: Instance, v: Volume, shown: seq<Snapshot>)
    ensures |SnapshotLines(i, v, shown)| == |shown|
    ensures forall k :: 0 <= k < |shown| ==> SnapshotLines(i, v, shown)[k] == SnapshotRowOf(i, v, shown[k])
  {
    if shown != [] {
      SnapshotLinesExact(i, v, shown[..|shown| - 1]);
    }
  }

  /** The rows of one history are exactly its listed snapshots. */
  lemma {:induction false} SnapshotLinesCover(i: Instance, v: Volume, shown: seq<Snapshot>, r: SnapshotRow)
    ensures r in SnapshotLines(i, v, shown) <==> exists s :: s in shown && r == SnapshotRowOf(i, v, s)
  {
    if shown != [] {
      var init := shown[..|shown| - 1];
      SnapshotLinesCover(i, v, init, r);
      assert shown == init + [shown[|shown| - 1]];
    }
  }

  /** The rows for the volumes of one instance name exactly its volumes and their listed snapshots. */
  lemma {:induction false} VolumeSnapshotRowsCover(i: Instance, vols: seq<Volume>, listAll: bool, r: SnapshotRow)
    ensures r in VolumeSnapshotRows(i, vols, listAll) <==>
      exists v, s :: v in vols && s in ShownSnapshots(v.snapshots, listAll) && r == SnapshotRowOf(i, v, s)
  {
    if vols != [] {
      var init, v := vols[..|vols| - 1], vols[|vols| - 1];
      var shown := ShownSnapshots(v.snapshots, listAll);
      VolumeSnapshotRowsCover(i, init, listAll, r);
      SnapshotLinesCover(i, v, shown, r);
      assert vols == init + [v];
      if r in VolumeSnapshotRows(i, init, listAll) {
        var v', s :| v' in init && s in ShownSnapshots(v'.snapshots, listAll) && r == SnapshotRowOf(i, v', s);
        assert v' in vols;
      } else if r in SnapshotLines(i, v, shown) {
        var s :| s in shown && r == SnapshotRowOf(i, v, s);
        assert v in vols;
      }
      forall v', s | v' in vols && s in ShownSnapshots(v'.snapshots, listAll) && r == SnapshotRowOf(i, v', s)
        ensures r in VolumeSnapshotRows(i, vols, listAll)
      {
        if v' != v {
          assert v' in init;
        }
      }
    }
  }

  /**
   * Every listed row names an instance of the working set, one of its volumes
   * and a listed snapshot of that volume, and every such combination is listed.
   */
  lemma {:induction false} SnapshotRowsCover(sel: seq<Instance>, listAll: bool, r: SnapshotRow)
    ensures r in SnapshotRows(sel, listAll) <==>
      exists i, v, s :: i in sel && v in i.volumes && s in ShownSnapshots(v.snapshots, listAll)
        && r == SnapshotRowOf(i, v, s)
  {
    if sel != [] {
      var init, i := sel[..|sel| - 1], sel[|sel| - 1];
      SnapshotRowsCover(init, listAll, r);
      VolumeSnapshotRowsCover(i, i.volumes, listAll, r);
      assert sel == init + [i];
      if r in SnapshotRows(init, listAll) {
        var i', v, s :| i' in init && v in i'.volumes && s in ShownSnapshots(v.snapshots, listAll)
          && r == SnapshotRowOf(i', v, s);
        assert i' in sel;
      } else if r in VolumeSnapshotRows(i, i.volumes, listAll) {
        var v, s :| v in i.volumes && s in ShownSnapshots(v.snapshots, listAll) && r == SnapshotRowOf(i, v, s);
        assert i in sel;
      }
      forall i', v, s | i' in sel && v in i'.volumes && s in ShownSnapshots(v.snapshots, listAll)
        && r == SnapshotRowOf(i', v, s)
        ensures r in SnapshotRows(sel, listAll)
      {
        if i' != i {
          assert i' in init;
        }
      }
    }
  }

  /** Without `--all`, a history is listed up to and including its newest completed snapshot. */
  lemma ShownUpToNewestCompleted(history: seq<Snapshot>, c: nat)
    requires c < |history| && history[c].state == Completed
    requires forall q :: 0 <= q < c ==> history[q].state != Completed
    ensures ShownSnapshots(history, false) == history[..c + 1]
  {
    ShownSnapshotsUpTo(history, false, c + 1);
  }

  /** Without `--all`, a history with no completed snapshot is listed whole. */
  lemma ShownWholeWithoutCompleted(history: seq<Snapshot>)
    requires forall q :: 0 <= q < |history| ==> history[q].state != Completed
    ensures ShownSnapshots(history, false) == history
  {
    ShownSnapshotsUpTo(history, false, |history|);
  }

  // ---------------------------------------------------------------------------
  // volumes list
  // ---------------------------------------------------------------------------

  /** One line of `volumes list`. */
  datatype VolumeRow = VolumeRow(
    volumeId: string,
    instanceId: string,
    state: string,
    size: string,
    encryption: string)

  /** The size column: the size in GiB as a decimal numeral followed by the unit. */
  function SizeColumn(v: Volume): string {
    NatToString(v.size) + "GiB"
  }

  /** The encryption column, which names the flag in words. */
  function EncryptionColumn(v: Volume): (r: string)
    ensures r == "Encrypted" <==> v.encrypted
    ensures r == "Encrypted" || r == "Not Encrypted"
  {
    if v.encrypted then "Encrypted" else "Not Encrypted"
  }

  function VolumeRowOf(i: Instance, v: Volume): VolumeRow {
    VolumeRow(v.id, i.id, v.state, SizeColumn(v), EncryptionColumn(v))
  }

  /** The rows for the volumes `vols` of instance `i`. */
  function InstanceVolumeRows(i: Instance, vols: seq<Volume>): seq<VolumeRow> {
    if vols == [] then []
    else InstanceVolumeRows(i, vols[..|vols| - 1]) + [VolumeRowOf(i, vols[|vols| - 1])]
  }

  /** Every row of `volumes list` over the working set `sel`, instance by instance. */
  function VolumeRows(sel: seq<Instance>): seq<VolumeRow> {
    if sel == [] then []
    else
      var i := sel[|sel| - 1];
      VolumeRows(sel[..|sel| - 1]) + InstanceVolumeRows(i, i.volumes)
  }

  /** `volumes_call(project)`: the rows it prints, in order. */
  method VolumesCall(fleet: seq<Instance>, project: Option<string>) returns (rows: seq<VolumeRow>)
    ensures rows == VolumeRows(FilterInstances(fleet, project))
  {
    var sel := FilterInstances(fleet, project);
    rows := [];
    var k := 0;
    while k < |sel|
      invariant k <= |sel|
      invariant rows == VolumeRows(sel[..k])
    {
      var i := sel[k];
      var vols := i.volumes;
      ghost var base := rows;
      var j := 0;
      while j < |vols|
        invariant j <= |vols|
        invariant rows == base + InstanceVolumeRows(i, vols[..j])
      {
        rows := rows + [VolumeRowOf(i, vols[j])];
        assert vols[..j + 1][..j] == vols[..j];
        j := j + 1;
      }
      assert vols[..j] == vols;
      assert sel[..k + 1][..k] == sel[..k];
      k := k + 1;
    }
    assert sel[..k] == sel;
  }

  /** The size column reads back as the volume's size followed by "GiB". */
  lemma SizeColumnReadsBack(v: Volume)
    ensures var c := SizeColumn(v);
      |c| > 3 && c[|c| - 3..] == "GiB" && AllDigits(c[..|c| - 3]) && DecimalValue(c[..|c| - 3]) == v.size
  {
    var c := SizeColumn(v);
    assert c[..|c| - 3] == NatToString(v.size);
    DecimalRoundTrip(v.size);
  }

  /** Every volume row is a volume of an instance of the working set, and every such volume is listed. */
  lemma {:induction false} VolumeRowsCover(sel: seq<Instance>, r: VolumeRow)
    ensures r in VolumeRows(sel) <==> exists i, v :: i in sel && v in i.volumes && r == VolumeRowOf(i, v)
  {
    if sel != [] {
      var init, i := sel[..|sel| - 1], sel[|sel| - 1];
      VolumeRowsCover(init, r);
      InstanceVolumeRowsCover(i, i.volumes, r);
      assert sel == init + [i];
      if r in VolumeRows(sel) && r !in VolumeRows(init) {
        var v :| v in i.volumes && r == VolumeRowOf(i, v);
        assert i in sel;
      }
      forall i', v | i' in sel && v in i'.volumes && r == VolumeRowOf(i', v)
        ensures r in VolumeRows(sel)
      {
        if i' != i {
          assert i' in init;
        }
      }
    }
  }

  lemma {:induction false} InstanceVolumeRowsCover(i: Instance, vols: seq<Volume>, r: VolumeRow)
    ensures r in InstanceVolumeRows(i, vols) <==> exists v :: v in vols && r == VolumeRowOf(i, v)
  {
    if vols != [] {
      var init, v := vols[..|vols| - 1], vols[|vols| - 1];
      InstanceVolumeRowsCover(i, init, r);
      assert vols == init + [v];
    }
  }

  /** With a project, `volumes list` shows only volumes of instances tagged with it. */
  lemma ScopedVolumesBelongToProject(fleet: seq<Instance>, p: string, r: VolumeRow)
    requires p != ""
    requires r in VolumeRows(FilterInstances(fleet, Some(p)))
    ensures exists i, v :: i in fleet && Tagged(i, p) && v in i.volumes && r == VolumeRowOf(i, v)
  {
    VolumeRowsCover(FilterInstances(fleet, Some(p)), r);
  }

  // ---------------------------------------------------------------------------
  // instances list
  // ---------------------------------------------------------------------------

  /** One line of `instances list`. */
  datatype InstanceRow = InstanceRow(
    instanceId: string,
    instanceType: string,
    availabilityZone: string,
    state: string,
    publicDnsName: string,
    project: string)

  /** The dictionary built from a tag list; a later tag with the same key replaces an earlier one. */
  function TagMap(tags: seq<Tag>): map<string, string> {
    if tags == [] then map[]
    else
      var t := tags[|tags| - 1];
      TagMap(tags[..|tags| - 1])[t.key := t.value]
  }

  /** The project column: the `proj` tag's value, or a placeholder when there is none. */
  function ProjectColumn(i: Instance): string {
    var tags := TagMap(TagList(i));
    if ProjectKey in tags then tags[ProjectKey] else NoProject
  }

  function InstanceRowOf(i: Instance): InstanceRow {
    InstanceRow(i.id, i.instanceType, i.availabilityZone, i.stateName, i.publicDnsName, ProjectColumn(i))
  }

  /** `list_call(project)`: one row per instance of the working set, in order. */
  method ListCall(fleet: seq<Instance>, project: Option<string>) returns (rows: seq<InstanceRow>)
    ensures var sel := FilterInstances(fleet, project);
      |rows| == |sel| && forall k :: 0 <= k < |sel| ==> rows[k] == InstanceRowOf(sel[k])
  {
    var sel := FilterInstances(fleet, project);
    rows := [];
    var k := 0;
    while k < |sel|
      invariant k <= |sel|
      invariant |rows| == k && forall q :: 0 <= q < k ==> rows[q] == InstanceRowOf(sel[q])
    {
      rows := rows + [InstanceRowOf(sel[k])];
      k := k + 1;
    }
  }

  /** `tags[j]` is the last tag with key `key`. */
  predicate LastWithKey(tags: seq<Tag>, key: string, j: int) {
    0 <= j < |tags| && tags[j].key == key && forall q :: j < q < |tags| ==> tags[q].key != key
  }

  /** A key is in the tag dictionary iff some tag has it. */
  lemma {:induction false} TagMapKeys(tags: seq<Tag>, key: string)
    ensures key in TagMap(tags) <==> exists j :: 0 <= j < |tags| && tags[j].key == key
  {
    if tags != [] {
      var init := tags[..|tags| - 1];
      TagMapKeys(init, key);
      if key in TagMap(init) {
        var j :| 0 <= j < |init| && init[j].key == key;
        assert tags[j].key == key;
      }
      forall j | 0 <= j < |init| && tags[j].key == key
        ensures key in TagMap(init)
      {
        assert init[j].key == key;
      }
    }
  }

  /** The dictionary maps a key to the value of the last tag with that key. */
  lemma {:induction false} TagMapLastWins(tags: seq<Tag>, key: string, j: int)
    requires LastWithKey(tags, key, j)
    ensures key in TagMap(tags) && TagMap(tags)[key] == tags[j].value
  {
    var init := tags[..|tags| - 1];
    if j < |init| {
      assert LastWithKey(init, key, j);
      TagMapLastWins(init, key, j);
    }
  }

  /** An instance with no `proj` tag, including one with no tag list at all, shows the placeholder. */
  lemma UntaggedShowsNoProject(i: Instance)
    requires forall t :: t in TagList(i) ==> t.key != ProjectKey
    ensures ProjectColumn(i) == NoProject
  {
    var tags := TagList(i);
    TagMapKeys(tags, ProjectKey);
    forall j | 0 <= j < |tags|
      ensures tags[j].key != ProjectKey
    {
      assert tags[j] in tags;
    }
  }

  /** With several `proj` tags, the column shows the value of the last one. */
  lemma LastProjectTagShown(i: Instance, j: int)
    requires LastWithKey(TagList(i), ProjectKey, j)
    ensures ProjectColumn(i) == TagList(i)[j].value
  {
    TagMapLastWins(TagList(i), ProjectKey, j);
  }

  /** At most one tag of `i` has the `proj` key. */
  predicate SingleProjectTag(i: Instance) {
    var tags := TagList(i);
    forall j, q :: 0 <= j < |tags| && 0 <= q < |tags| && tags[j].key == ProjectKey && tags[q].key == ProjectKey ==> j == q
  }

  /**
   * With at most one `proj` tag, the project column agrees with the provider
   * filter: the instance is tagged `proj=p` exactly when it has a `proj` tag
   * and the column shows `p`.
   */
  lemma ProjectColumnMatchesFilter(i: Instance, p: string)
    requires SingleProjectTag(i)
    ensures Tagged(i, p) <==> (exists t :: t in TagList(i) && t.key == ProjectKey) && ProjectColumn(i) == p
  {
    var tags := TagList(i);
    if Tagged(i, p) {
      var j :| 0 <= j < |tags| && tags[j] == Tag(ProjectKey, p);
      assert LastWithKey(tags, ProjectKey, j);
      LastProjectTagShown(i, j);
    }
    if (exists t :: t in tags && t.key == ProjectKey) && ProjectColumn(i) == p {
      var t :| t in tags && t.key == ProjectKey;
      var j :| 0 <= j < |tags| && tags[j] == t;
      assert LastWithKey(tags, ProjectKey, j);
      LastProjectTagShown(i, j);
    }
  }

  /** With a project and single `proj` tags, every row of `instances list` shows that project. */
  lemma ScopedListingShowsProject(fleet: seq<Instance>, p: string, rows: seq<InstanceRow>, k: nat)
    requires p != ""
    requires forall i :: i in fleet ==> SingleProjectTag(i)
    requires var sel := FilterInstances(fleet, Some(p));
      |rows| == |sel| && forall q :: 0 <= q < |sel| ==> rows[q] == InstanceRowOf(sel[q])
    requires k < |rows|
    ensures rows[k].project == p
  {
    var sel := FilterInstances(fleet, Some(p));
    assert sel[k] in sel;
    ProjectColumnMatchesFilter(sel[k], p);
  }
}
