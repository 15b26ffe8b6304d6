/**
 * Project scoping (`filter_instances`): either the instances tagged
 * `proj=<project>` or, when no project is given, the whole fleet.
 */
module Locator {
  import opened Wrappers
  import opened Fleet

  /**
   * Python truthiness of the `--project` option: both `None` and the empty
   * string mean "no project", so the whole fleet is used.
   */
  predicate Scoped(project: Option<string>) {
    project.Some? && project.value != ""
  }

  /** The provider-side filter `tag:proj = p`: some tag of `i` is exactly (proj, p). */
  predicate Tagged(i: Instance, p: string) {
    Tag(ProjectKey, p) in TagList(i)
  }

  /** Whether `i` is part of the working set for `project`. */
  predicate Selected(i: Instance, project: Option<string>) {
    !Scoped(project) || Tagged(i, project.value)
  }

  /** The instances of `fleet` tagged `proj=p`, in fleet order. */
  function TaggedWith(fleet: seq<Instance>, p: string): (r: seq<Instance>)
    ensures |r| <= |fleet|
    ensures forall i :: i in r <==> i in fleet && Tagged(i, p)
  {
    if fleet == [] then []
    else if Tagged(fleet[0], p) then [fleet[0]] + TaggedWith(fleet[1..], p)
    else TaggedWith(fleet[1..], p)
  }

  /** `filter_instances(project)`: the working set of an operation. */
  function FilterInstances(fleet: seq<Instance>, project: Option<string>): (r: seq<Instance>)
    ensures forall i :: i in r <==> i in fleet && Selected(i, project)
    ensures !Scoped(project) ==> r == fleet
  {
    if Scoped(project) then TaggedWith(fleet, project.value) else fleet
  }

  /** Filtering distributes over concatenation, so it keeps fleet order. */
  lemma {:induction false} TaggedWithAppend(a: seq<Instance>, b: seq<Instance>, p: string)
    ensures TaggedWith(a + b, p) == TaggedWith(a, p) + TaggedWith(b, p)
  {
    if a == [] {
      assert a + b == b;
    } else {
      assert (a + b)[1..] == a[1..] + b;
      TaggedWithAppend(a[1..], b, p);
    }
  }

  /** A tagged instance is kept as a one-element result; an untagged one is dropped. */
  lemma TaggedWithSingleton(i: Instance, p: string)
    ensures TaggedWith([i], p) == if Tagged(i, p) then [i] else []
  {
    assert [i][1..] == [];
  }

  /** Scoping twice with the same project changes nothing. */
  lemma {:induction false} FilterIdempotent(fleet: seq<Instance>, project: Option<string>)
    ensures FilterInstances(FilterInstances(fleet, project), project) == FilterInstances(fleet, project)
  {
    if Scoped(project) {
      TaggedWithIdempotent(fleet, project.value);
    }
  }

  lemma {:induction false} TaggedWithIdempotent(fleet: seq<Instance>, p: string)
    ensures TaggedWith(TaggedWith(fleet, p), p) == TaggedWith(fleet, p)
  {
    if fleet != [] {
      TaggedWithIdempotent(fleet[1..], p);
      if Tagged(fleet[0], p) {
        var r := TaggedWith(fleet, p);
        assert r[0] == fleet[0] && r[1..] == TaggedWith(fleet[1..], p);
      }
    }
  }
}
