/**
 How the tags of a bucket are put together from its spec and from the cluster, whose
 tags come in whatever order the map iteration yields them.
 */
module Tags {
  import opened Base

  predicate Meaningful(t: Tag) {
    t.key != "" && t.value != ""
  }

  /** The tags with a key and a value. */
  function Kept(tags: seq<Tag>): seq<Tag> {
    if tags == [] then []
    else
      var m := |tags| - 1;
      Kept(tags[..m]) + if Meaningful(tags[m]) then [tags[m]] else []
  }

  function KeptMap(m: map<string, string>): map<string, string> {
    map k | k in m && k != "" && m[k] != "" :: m[k]
  }

  /** A sequence in which a map iteration may visit the entries of `m`. */
  predicate IsOrder(order: seq<Tag>, m: map<string, string>) {
    && DistinctKeys(order)
    && (forall i :: 0 <= i < |order| ==> order[i].key in m && m[order[i].key] == order[i].value)
    && (forall k :: k in m ==> HasKey(order, k))
  }

  /** The entries of `m` that are no longer to be visited. */
  function Visited(m: map<string, string>, rest: set<string>): map<string, string> {
    map k | k in m && k !in rest :: m[k]
  }

  lemma NothingVisited(m: map<string, string>)
    ensures IsOrder([], Visited(m, m.Keys))
  {
  }

  lemma AllVisited(m: map<string, string>)
    ensures Visited(m, {}) == m
  {
  }

  lemma KeptStep(tags: seq<Tag>, t: Tag)
    ensures Kept([]) == []
    ensures Kept(tags + [t]) == if Meaningful(t) then Kept(tags) + [t] else Kept(tags)
  {
    assert (tags + [t])[..|tags|] == tags;
  }

  lemma {:induction false} KeptSplits(a: seq<Tag>, b: seq<Tag>)
    ensures Kept(a + b) == Kept(a) + Kept(b)
  {
    if b == [] {
      assert a + b == a;
    } else {
      var m := |b| - 1;
      assert (a + b)[..|a| + m] == a + b[..m];
      KeptSplits(a, b[..m]);
    }
  }

  /** Exactly the meaningful tags are kept. */
  lemma {:induction false} KeptMembers(tags: seq<Tag>, t: Tag)
    ensures t in Kept(tags) <==> t in tags && Meaningful(t)
  {
    if tags != [] {
      var m := |tags| - 1;
      KeptMembers(tags[..m], t);
      assert tags == tags[..m] + [tags[m]];
    }
  }

  lemma {:induction false} KeptDistinct(tags: seq<Tag>)
    requires DistinctKeys(tags)
    ensures DistinctKeys(Kept(tags))
  {
    if tags != [] {
      var m := |tags| - 1;
      var init := tags[..m];
      KeptDistinct(init);
      forall i | 0 <= i < |Kept(init)|
        ensures Kept(init)[i].key != tags[m].key
      {
        KeptMembers(init, Kept(init)[i]);
        var j :| 0 <= j < |init| && init[j] == Kept(init)[i];
        assert tags[j].key != tags[m].key;
      }
    }
  }

  // -------------------------------------------------------------- AWS tag lists

  /** The tags an S3 bucket or an IAM role should carry. */
  function Wanted(spec: seq<Tag>, cluster: map<string, string>): map<string, string> {
    TagMap(Kept(spec)) + KeptMap(cluster)
  }

  /** No meaningful key occurs twice in spec and cluster together. */
  predicate NoDuplicates(spec: seq<Tag>, cluster: map<string, string>) {
    DistinctKeys(Kept(spec)) && forall i :: 0 <= i < |Kept(spec)| ==> Kept(spec)[i].key !in KeptMap(cluster)
  }

  /** When no key occurs twice, the wanted tags are exactly those of spec and cluster that have a key and a value. */
  lemma WantedExactly(spec: seq<Tag>, cluster: map<string, string>, k: string, v: string)
    requires NoDuplicates(spec, cluster)
    ensures k in Wanted(spec, cluster) && Wanted(spec, cluster)[k] == v <==>
            k != "" && v != "" && (Tag(k, v) in spec || (k in cluster && cluster[k] == v))
  {
    var kept := Kept(spec);
    KeptMembers(spec, Tag(k, v));
    if k in TagMap(kept) {
      var i := TagMapSome(kept, k);
      KeptMembers(spec, kept[i]);
    }
    if Tag(k, v) in kept {
      var i :| 0 <= i < |kept| && kept[i] == Tag(k, v);
      TagMapLast(kept, i);
    }
  }

  /** The list sent to AWS, whatever the order the cluster's tags are visited in. */
  method TagList(spec: seq<Tag>, cluster: map<string, string>) returns (tags: seq<Tag>)
    ensures TagMap(tags) == Wanted(spec, cluster)
    ensures DistinctKeys(tags) <==> NoDuplicates(spec, cluster)
  {
    hide Kept, IsOrder, Visited, Wanted, NoDuplicates;
    tags := [];
    KeptStep([], Tag("", ""));
    for i := 0 to |spec|
      invariant tags == Kept(spec[..i])
    {
      KeptStep(spec[..i], spec[i]);
      assert spec[..i + 1] == spec[..i] + [spec[i]];
      if spec[i].key != "" && spec[i].value != "" {
        tags := tags + [spec[i]];
      }
    }
    assert spec[..|spec|] == spec;
    ghost var order: seq<Tag> := [];
    NothingVisited(cluster);
    var rest := cluster.Keys;
    while rest != {}
      invariant rest <= cluster.Keys
      invariant IsOrder(order, Visited(cluster, rest))
      invariant tags == Kept(spec) + Kept(order)
    {
      var k :| k in rest;
      OrderGrows(order, cluster, rest, k);
      KeptStep(order, Tag(k, cluster[k]));
      order := order + [Tag(k, cluster[k])];
      rest := rest - {k};
      if k != "" && cluster[k] != "" {
        tags := tags + [Tag(k, cluster[k])];
      }
    }
    AllVisited(cluster);
    AnyOrderIsWanted(spec, order, cluster);
    AnyOrderIsDistinct(spec, order, cluster);
  }

  lemma OrderGrows(order: seq<Tag>, m: map<string, string>, rest: set<string>, k: string)
    requires k in rest && rest <= m.Keys && IsOrder(order, Visited(m, rest))
    ensures IsOrder(order + [Tag(k, m[k])], Visited(m, rest - {k}))
  {
    var order' := order + [Tag(k, m[k])];
    forall x | x in m && x !in rest - {k}
      ensures HasKey(order', x)
    {
      if x == k {
        assert order'[|order|].key == x;
      } else {
        assert HasKey(order, x);
        var i :| 0 <= i < |order| && order[i].key == x;
        assert order'[i].key == x;
      }
    }
  }

  lemma OrderedTagMap(order: seq<Tag>, m: map<string, string>)
    requires IsOrder(order, m)
    ensures TagMap(Kept(order)) == KeptMap(m)
  {
    var kept := Kept(order);
    KeptDistinct(order);
    forall k
      ensures k in TagMap(kept) <==> k in KeptMap(m)
      ensures k in KeptMap(m) ==> TagMap(kept)[k] == m[k]
    {
      TagMapKeys(kept, k);
      if k in KeptMap(m) {
        assert HasKey(order, k);
        var i :| 0 <= i < |order| && order[i].key == k;
        KeptMembers(order, order[i]);
        var j :| 0 <= j < |kept| && kept[j] == order[i];
        TagMapLast(kept, j);
      }
      if HasKey(kept, k) {
        var j :| 0 <= j < |kept| && kept[j].key == k;
        KeptMembers(order, kept[j]);
        var i :| 0 <= i < |order| && order[i] == kept[j];
      }
    }
  }

  /** Whatever the order, the list stands for the wanted tags. */
  lemma AnyOrderIsWanted(spec: seq<Tag>, order: seq<Tag>, cluster: map<string, string>)
    requires IsOrder(order, cluster)
    ensures TagMap(Kept(spec) + Kept(order)) == Wanted(spec, cluster)
  {
    TagMapSplits(Kept(spec), Kept(order));
    OrderedTagMap(order, cluster);
  }

  lemma DistinctConcat(a: seq<Tag>, b: seq<Tag>)
    ensures DistinctKeys(a + b) <==> DistinctKeys(a) && DistinctKeys(b) && forall i :: 0 <= i < |a| ==> !HasKey(b, a[i].key)
  {
    var c := a + b;
    assert forall i :: 0 <= i < |a| ==> c[i] == a[i];
    assert forall j :: 0 <= j < |b| ==> c[|a| + j] == b[j];
    if DistinctKeys(c) {
      forall i, j | 0 <= i < j < |b|
        ensures b[i].key != b[j].key
      {
        assert c[|a| + i].key != c[|a| + j].key;
      }
    }
    if DistinctKeys(a) && DistinctKeys(b) && forall i :: 0 <= i < |a| ==> !HasKey(b, a[i].key) {
      forall i, j | 0 <= i < j < |c|
        ensures c[i].key != c[j].key
      {
        if i < |a| <= j {
          assert !HasKey(b, a[i].key);
          assert c[j] == b[j - |a|];
        }
      }
    }
  }

  lemma AnyOrderIsDistinct(spec: seq<Tag>, order: seq<Tag>, cluster: map<string, string>)
    requires IsOrder(order, cluster)
    ensures DistinctKeys(Kept(spec) + Kept(order)) <==> NoDuplicates(spec, cluster)
  {
    OrderedTagMap(order, cluster);
    KeptDistinct(order);
    hide IsOrder, Kept, KeptMap;
    DistinctConcat(Kept(spec), Kept(order));
    forall i | 0 <= i < |Kept(spec)|
      ensures HasKey(Kept(order), Kept(spec)[i].key) <==> Kept(spec)[i].key in KeptMap(cluster)
    {
      TagMapKeys(Kept(order), Kept(spec)[i].key);
    }
  }

  // ------------------------------------------------------------ Azure tag merge

  /** Azure tag keys must not contain dashes. */
  function SanitizeTagKey(key: string): (r: string)
    ensures |r| == |key| && forall i :: 0 <= i < |key| ==> r[i] == if key[i] == '-' then '_' else key[i]
    ensures '-' !in r
  {
    seq(|key|, i requires 0 <= i < |key| => if key[i] == '-' then '_' else key[i])
  }

  function Renamed(tags: seq<Tag>): (r: seq<Tag>)
    ensures |r| == |tags| && forall i :: 0 <= i < |tags| ==> r[i] == Tag(SanitizeTagKey(tags[i].key), tags[i].value)
  {
    seq(|tags|, i requires 0 <= i < |tags| => Tag(SanitizeTagKey(tags[i].key), tags[i].value))
  }

  /** The merged tags when the cluster's tags are visited in `order`. */
  function Merged(spec: seq<Tag>, order: seq<Tag>): map<string, string> {
    TagMap(Renamed(Kept(spec + order)))
  }

  /** `key` is a meaningful cluster tag that is sanitised to `k`. */
  predicate Yields(cluster: map<string, string>, key: string, k: string) {
    key in KeptMap(cluster) && SanitizeTagKey(key) == k
  }

  /** `i` is the last meaningful tag of the spec that is sanitised to `k`. */
  predicate LastYields(spec: seq<Tag>, i: nat, k: string) {
    i < |spec| && Meaningful(spec[i]) && SanitizeTagKey(spec[i].key) == k &&
    forall j :: i < j < |spec| && Meaningful(spec[j]) ==> SanitizeTagKey(spec[j].key) != k
  }

  /**
   A merge as its users see it: cluster tags win over spec tags, later spec tags over
   earlier ones, and there is nothing else in it.
   */
  ghost predicate IsMerge(spec: seq<Tag>, cluster: map<string, string>, r: map<string, string>) {
    forall k ::
      if exists key :: Yields(cluster, key, k) then
        k in r && exists key :: Yields(cluster, key, k) && r[k] == cluster[key]
      else if exists i: nat :: LastYields(spec, i, k) then
        k in r && forall i: nat :: LastYields(spec, i, k) ==> r[k] == spec[i].value
      else k !in r
  }

  /** Cluster tags that are sanitised to the same key carry the same value. */
  ghost predicate NoConflict(cluster: map<string, string>) {
    forall key, key', k :: Yields(cluster, key, k) && Yields(cluster, key', k) ==> cluster[key] == cluster[key']
  }

  /** The map the adapter attaches to accounts, containers, endpoints and records. */
  method GetBucketTags(spec: seq<Tag>, cluster: map<string, string>) returns (tags: map<string, string>)
    ensures IsMerge(spec, cluster, tags)
    ensures forall k :: k in tags ==> '-' !in k
  {
    hide IsMerge, Kept, Renamed, IsOrder, Visited;
    tags := map[];
    NothingMerges();
    for i := 0 to |spec|
      invariant tags == Merged(spec[..i], [])
    {
      MergeStep(spec[..i], spec[i]);
      assert spec[..i + 1] == spec[..i] + [spec[i]];
      assert spec[..i] + [] == spec[..i] && spec[..i + 1] + [] == spec[..i + 1];
      if spec[i].key != "" && spec[i].value != "" {
        tags := tags[SanitizeTagKey(spec[i].key) := spec[i].value];
      }
    }
    assert spec[..|spec|] == spec;
    ghost var order: seq<Tag> := [];
    NothingVisited(cluster);
    var rest := cluster.Keys;
    while rest != {}
      invariant rest <= cluster.Keys
      invariant IsOrder(order, Visited(cluster, rest))
      invariant tags == Merged(spec, order)
    {
      var k :| k in rest;
      OrderGrows(order, cluster, rest, k);
      MergeStep(spec + order, Tag(k, cluster[k]));
      assert spec + (order + [Tag(k, cluster[k])]) == spec + order + [Tag(k, cluster[k])];
      order := order + [Tag(k, cluster[k])];
      if k != "" && cluster[k] != "" {
        tags := tags[SanitizeTagKey(k) := cluster[k]];
      }
      rest := rest - {k};
    }
    AllVisited(cluster);
    AnyOrderMerges(spec, order, cluster);
  }

  lemma NothingMerges()
    ensures Merged([], []) == map[]
  {
  }

  lemma MergeStep(tags: seq<Tag>, t: Tag)
    ensures TagMap(Renamed(Kept(tags + [t]))) ==
            var m := TagMap(Renamed(Kept(tags)));
            if Meaningful(t) then m[SanitizeTagKey(t.key) := t.value] else m
  {
    assert (tags + [t])[..|tags|] == tags;
    var kept := Kept(tags);
    if Meaningful(t) {
      var r := Renamed(kept + [t]);
      assert r[..|kept|] == Renamed(kept);
    } else {
      assert kept + [] == kept;
    }
  }

  lemma MergeSplits(spec: seq<Tag>, order: seq<Tag>)
    ensures Merged(spec, order) == TagMap(Renamed(Kept(spec))) + TagMap(Renamed(Kept(order)))
  {
    KeptSplits(spec, order);
    var a, b := Kept(spec), Kept(order);
    assert Renamed(a + b) == Renamed(a) + Renamed(b);
    TagMapSplits(Renamed(a), Renamed(b));
  }

  /** `m` holds at `k` what the last meaningful tag of the spec says. */
  ghost predicate LastWins(spec: seq<Tag>, k: string, m: map<string, string>) {
    && (k in m <==> exists i: nat :: LastYields(spec, i, k))
    && forall i: nat :: LastYields(spec, i, k) ==> k in m && m[k] == spec[i].value
  }

  /** The spec's share of the merge: the last meaningful tag wins. */
  lemma {:induction false} SpecShare(spec: seq<Tag>, k: string)
    ensures LastWins(spec, k, TagMap(Renamed(Kept(spec))))
  {
    if spec == [] {
      hide SanitizeTagKey;
    } else {
      hide Renamed, Kept, TagMap, LastWins, Meaningful;
      var m := |spec| - 1;
      SpecShare(spec[..m], k);
      MergeStep(spec[..m], spec[m]);
      assert spec == spec[..m] + [spec[m]];
      ShareStep(spec, k, TagMap(Renamed(Kept(spec[..m]))));
    }
  }

  lemma ShareStep(spec: seq<Tag>, k: string, before: map<string, string>)
    requires spec != [] && LastWins(spec[..|spec| - 1], k, before)
    ensures var t := spec[|spec| - 1];
            LastWins(spec, k, if Meaningful(t) then before[SanitizeTagKey(t.key) := t.value] else before)
  {
    hide SanitizeTagKey;
    var m := |spec| - 1;
    LastYieldsStep(spec, k);
    hide LastYields;
    if Meaningful(spec[m]) && SanitizeTagKey(spec[m].key) == k {
      assert LastYields(spec, m, k);
    }
  }

  lemma LastYieldsStep(spec: seq<Tag>, k: string)
    requires spec != []
    ensures var m := |spec| - 1;
            if Meaningful(spec[m]) && SanitizeTagKey(spec[m].key) == k then
              forall i: nat :: LastYields(spec, i, k) <==> i == m
            else
              forall i: nat :: LastYields(spec, i, k) <==> LastYields(spec[..m], i, k)
  {
    hide SanitizeTagKey;
  }

  /** The cluster's share: one of the cluster tags sanitised to the key. */
  lemma ClusterShare(order: seq<Tag>, cluster: map<string, string>, k: string)
    requires IsOrder(order, cluster)
    ensures var b := TagMap(Renamed(Kept(order)));
            if k in b then exists key :: Yields(cluster, key, k) && b[k] == cluster[key]
            else forall key :: !Yields(cluster, key, k)
  {
    var kept := Kept(order);
    var b := TagMap(Renamed(kept));
    if k in b {
      var i := TagMapSome(Renamed(kept), k);
      KeptMembers(order, kept[i]);
      var j :| 0 <= j < |order| && order[j] == kept[i];
      assert Yields(cluster, order[j].key, k) && b[k] == cluster[order[j].key];
    } else {
      forall key
        ensures !Yields(cluster, key, k)
      {
        if Yields(cluster, key, k) {
          assert HasKey(order, key);
          var j :| 0 <= j < |order| && order[j].key == key;
          KeptMembers(order, order[j]);
          var i :| 0 <= i < |kept| && kept[i] == order[j];
          assert Renamed(kept)[i].key == k;
          TagMapKeys(Renamed(kept), k);
        }
      }
    }
  }

  /** Whatever the order of the cluster's tags, the result is a merge and has no dash in its keys. */
  lemma AnyOrderMerges(spec: seq<Tag>, order: seq<Tag>, cluster: map<string, string>)
    requires IsOrder(order, cluster)
    ensures IsMerge(spec, cluster, Merged(spec, order))
    ensures forall k :: k in Merged(spec, order) ==> '-' !in k
  {
    MergeSplits(spec, order);
    forall k
      ensures if exists key :: Yields(cluster, key, k) then
                k in Merged(spec, order) && exists key :: Yields(cluster, key, k) && Merged(spec, order)[k] == cluster[key]
              else if exists i: nat :: LastYields(spec, i, k) then
                k in Merged(spec, order) && forall i: nat :: LastYields(spec, i, k) ==> Merged(spec, order)[k] == spec[i].value
              else k !in Merged(spec, order)
    {
      SpecShare(spec, k);
      ClusterShare(order, cluster, k);
    }
    forall k | k in Merged(spec, order)
      ensures '-' !in k
    {
      var i := TagMapSome(Renamed(Kept(spec + order)), k);
    }
  }

  lemma {:induction false} OrderExists(m: map<string, string>) returns (order: seq<Tag>)
    ensures IsOrder(order, m)
    decreases |m|
  {
    if m == map[] {
      order := [];
    } else {
      var k :| k in m;
      order := OrderEndingWith(m, k);
    }
  }

  lemma {:induction false} OrderEndingWith(m: map<string, string>, key: string) returns (order: seq<Tag>)
    requires key in m
    ensures IsOrder(order, m) && order != [] && order[|order| - 1] == Tag(key, m[key])
    decreases |m|, 0
  {
    var init := OrderExists(m - {key});
    assert m - {key} == Visited(m, {key});
    OrderGrows(init, m, {key}, key);
    order := init + [Tag(key, m[key])];
    assert m == Visited(m, {key} - {key});
  }

  /** The tag visited last decides its key. */
  lemma LastVisitedWins(spec: seq<Tag>, order: seq<Tag>, cluster: map<string, string>, key: string, k: string)
    requires IsOrder(order, cluster) && Yields(cluster, key, k) && order != [] && order[|order| - 1] == Tag(key, cluster[key])
    ensures k in Merged(spec, order) && Merged(spec, order)[k] == cluster[key]
  {
    var init, t := order[..|order| - 1], Tag(key, cluster[key]);
    assert order == init + [t] && spec + order == spec + init + [t];
    MergeStep(spec + init, t);
  }

  /**
   The merge is the same for every order in which the cluster's tags may be visited
   exactly when cluster tags that collide after sanitising carry equal values.
   */
  lemma OrderIndependence(spec: seq<Tag>, cluster: map<string, string>)
    ensures (forall o, o' :: IsOrder(o, cluster) && IsOrder(o', cluster) ==> Merged(spec, o) == Merged(spec, o')) <==>
            NoConflict(cluster)
  {
    if NoConflict(cluster) {
      forall o, o' | IsOrder(o, cluster) && IsOrder(o', cluster)
        ensures Merged(spec, o) == Merged(spec, o')
      {
        AnyOrderMerges(spec, o, cluster);
        AnyOrderMerges(spec, o', cluster);
        MergeIsUnique(spec, cluster, Merged(spec, o), Merged(spec, o'));
      }
    } else {
      var key, key', k :| Yields(cluster, key, k) && Yields(cluster, key', k) && cluster[key] != cluster[key'];
      var o := OrderEndingWith(cluster, key);
      var o' := OrderEndingWith(cluster, key');
      LastVisitedWins(spec, o, cluster, key, k);
      LastVisitedWins(spec, o', cluster, key', k);
      assert Merged(spec, o) != Merged(spec, o');
    }
  }

  lemma MergeIsUnique(spec: seq<Tag>, cluster: map<string, string>, r: map<string, string>, r': map<string, string>)
    requires NoConflict(cluster) && IsMerge(spec, cluster, r) && IsMerge(spec, cluster, r')
    ensures r == r'
  {
    forall k
      ensures k in r <==> k in r'
      ensures k in r ==> r[k] == r'[k]
    {
      if i: nat :| LastYields(spec, i, k) {
      }
    }
  }
}
