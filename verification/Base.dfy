/**
 The values every other module talks about: the Bucket custom resource as the
 API server stores it, and the management cluster as the operator sees it.
 */
module Base {

  datatype Option<+T> = None | Some(value: T)

  /** The namespaced name of a Bucket resource or of a Secret. */
  datatype Key = Key(namespace: string, name: string)

  datatype Tag = Tag(key: string, value: string)

  datatype AccessRole = AccessRole(
    roleName: string,
    extraBucketNames: seq<string>,
    serviceAccountName: string,
    serviceAccountNamespace: string)

  /** `expiration` holds the number of days, when an expiration policy is set. */
  datatype Spec = Spec(
    name: string,
    expiration: Option<int>,
    reclaimPolicy: string,
    accessRole: Option<AccessRole>,
    tags: seq<Tag>)

  datatype Status = Status(ready: bool, id: string)

  datatype Bucket = Bucket(spec: Spec, finalizers: seq<string>, deleting: bool, status: Status)

  datatype Cluster = Cluster(
    name: string,
    baseDomain: string,
    region: string,
    accountId: string,
    tags: map<string, string>)

  const BUCKET_FINALIZER := "objectstorage.giantswarm.io/bucket"
  const SECRET_FINALIZER := "objectstorage.giantswarm.io/secret"
  const RECLAIM_DELETE := "Delete"

  /** The name of the access role, or the empty string when none is asked for. */
  function RoleName(spec: Spec): string {
    if spec.accessRole.Some? then spec.accessRole.value.roleName else ""
  }

  predicate HasRole(spec: Spec) {
    RoleName(spec) != ""
  }

  /** What the operator's cloud resources are named after. */
  predicate SameIdentity(a: Spec, b: Spec) {
    a.name == b.name && RoleName(a) == RoleName(b)
  }

  /** A list of finalizers without any occurrence of `f`. */
  function Without(list: seq<string>, f: string): (r: seq<string>)
    ensures f !in r
    ensures forall x :: x in r <==> x in list && x != f
  {
    if list == [] then []
    else if list[0] == f then Without(list[1..], f)
    else [list[0]] + Without(list[1..], f)
  }

  /**
   The map a list of tags stands for; a later tag wins over an earlier one.
   */
  function TagMap(tags: seq<Tag>): map<string, string> {
    if tags == [] then map[]
    else
      var last := tags[|tags| - 1];
      TagMap(tags[..|tags| - 1])[last.key := last.value]
  }

  predicate DistinctKeys(tags: seq<Tag>) {
    forall i, j :: 0 <= i < j < |tags| ==> tags[i].key != tags[j].key
  }

  /** Whether some tag of the list has this key. */
  predicate HasKey(tags: seq<Tag>, key: string) {
    exists i :: 0 <= i < |tags| && tags[i].key == key
  }

  /** The map has the keys of the list, each with its last value. */
  lemma {:induction false} TagMapKeys(tags: seq<Tag>, key: string)
    ensures key in TagMap(tags) <==> HasKey(tags, key)
  {
    if tags != [] {
      var m := |tags| - 1;
      var init := tags[..m];
      TagMapKeys(init, key);
      if HasKey(init, key) {
        var i :| 0 <= i < |init| && init[i].key == key;
        assert tags[i].key == key;
      }
      if HasKey(tags, key) && tags[m].key != key {
        var i :| 0 <= i < |tags| && tags[i].key == key;
        assert init[i].key == key;
      }
    }
  }

  lemma {:induction false} TagMapLast(tags: seq<Tag>, i: nat)
    requires i < |tags| && forall j :: i < j < |tags| ==> tags[j].key != tags[i].key
    ensures tags[i].key in TagMap(tags) && TagMap(tags)[tags[i].key] == tags[i].value
  {
    var m := |tags| - 1;
    if i < m {
      TagMapLast(tags[..m], i);
    }
  }

  lemma {:induction false} TagMapSome(tags: seq<Tag>, key: string) returns (i: nat)
    requires key in TagMap(tags)
    ensures i < |tags| && tags[i].key == key && tags[i].value == TagMap(tags)[key]
  {
    i := |tags| - 1;
    if tags[i].key != key {
      i := TagMapSome(tags[..i], key);
    }
  }

  lemma {:induction false} TagMapSplits(a: seq<Tag>, b: seq<Tag>)
    ensures TagMap(a + b) == TagMap(a) + TagMap(b)
  {
    if b == [] {
      assert a + b == a;
    } else {
      var init := b[..|b| - 1];
      assert (a + b)[..|a + b| - 1] == a + init;
      TagMapSplits(a, init);
    }
  }
}
