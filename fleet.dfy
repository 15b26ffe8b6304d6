/**
 * The in-memory fleet that stands in for the cloud provider's resources.
 * A fleet is a sequence of instances in the order the provider returns them;
 * each instance carries its tags and its attached volumes, and each volume its
 * snapshot history, newest first.
 */
module Fleet {
  import opened Wrappers

  /** One key/value tag as the provider reports it. */
  datatype Tag = Tag(key: string, value: string)

  /** A point-in-time copy of a volume; its state is "pending", "completed" or "error". */
  datatype Snapshot = Snapshot(id: string, state: string, progress: string)

  /** A block-storage volume; `snapshots` is its history, newest first. */
  datatype Volume = Volume(
    id: string,
    size: nat,
    encrypted: bool,
    state: string,
    snapshots: seq<Snapshot>)

  /**
   * A compute instance. `tags` is `None` when the provider reports no tag list
   * at all (boto3 then gives `None`, not an empty list).
   */
  datatype Instance = Instance(
    id: string,
    instanceType: string,
    availabilityZone: string,
    stateName: string,
    publicDnsName: string,
    tags: Option<seq<Tag>>,
    volumes: seq<Volume>)

  /** The tag key that assigns an instance to a project. */
  const ProjectKey: string := "proj"

  /** The tag list of an instance, treating a missing list as empty (`i.tags or []`). */
  function TagList(i: Instance): seq<Tag> {
    i.tags.GetOr([])
  }
}
