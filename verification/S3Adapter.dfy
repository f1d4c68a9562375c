/**
 The S3 side of the AWS adapter.

 Each method says what it does to the world when nobody else moves meanwhile
 (`Quiet`), and whether it succeeds when, moreover, no call fails (`Clean`). It is
 correct in any case in that it issues only calls the protocol allows, so that what
 happens is always a run of the protocol (`Valid`).
 */
module S3Adapter {
  import opened Base
  import opened Cloud
  import opened Protocol
  import opened Sessions
  import opened Tags
  import opened Templates

  /** A missing bucket is no error; any other error comes with the answer "exists". */
  method ExistsBucket(s: Session, b: Bucket, del: bool) returns (found: bool, err: bool)
    requires s.Valid() && s.Provider() == Aws && s.Pc() == Probing(b, del)
    modifies s
    ensures s.Valid() && s.Advanced()
    ensures !err ==> s.Pc() == Probed(Aws, b, del, found)
    ensures err ==> found
    ensures !err && found ==> s.tally.sightings > old(s.tally.sightings)
    ensures s.Quiet() ==> s.sys.w == old(s.sys.w)
    ensures s.Quiet() && !err ==> (found <==> b.spec.name in s.sys.w.s3)
    ensures s.Clean() ==> !err
  {
    hide Session.Valid;
    var resp := s.CallS3(Head(b.spec.name));
    found, err := true, resp != Done;
    if resp == Missing {
      found, err := false, false;
    }
  }

  method CreateBucket(s: Session, b: Bucket) returns (err: bool)
    requires s.Valid() && s.Provider() == Aws && s.Pc() == Provisioning(b, AtCreate)
    modifies s
    ensures s.Valid() && s.Advanced()
    ensures !err ==> s.Pc() == Provisioning(b, AtLifecycle)
    ensures s.Quiet() ==> s.sys.w == old(s.sys.w).(s3 := s.sys.w.s3)
    ensures s.Quiet() ==> s.sys.w.s3 == old(s.sys.w.s3) || s.sys.w.s3 == WithBucket(old(s.sys.w.s3), s.me, b.spec.name)
    ensures s.Quiet() && !err ==> s.sys.w.s3 == WithBucket(old(s.sys.w.s3), s.me, b.spec.name)
    ensures s.Clean() && b.spec.name !in old(s.sys.w.s3) ==> !err
  {
    hide Session.Valid;
    var resp := s.CallS3(Create(b.spec.name));
    err := resp != Done;
  }

  /** The store with bucket `n` in it: what was there, or a new, empty bucket. */
  function WithBucket(x: S3, who: Key, n: string): S3 {
    if n in x then x else x[n := S3Bucket({}, None, None, map[], Some(who))]
  }

  // ------------------------------------------------------------- configuration

  /** The configuration a bucket should have. */
  function ConfiguredBucket(bucket: S3Bucket, spec: Spec, c: Cluster): S3Bucket {
    bucket.(
      lifecycle := spec.expiration,
      policy := Some(BucketPolicyText(BucketPolicyData(AwsDomain(c.region), spec.name))),
      tags := Wanted(spec.tags, c.tags))
  }

  /** Only the configuration of bucket `n` differs. */
  predicate Reconfigured(w: World, w': World, n: string) {
    && w' == w.(s3 := w'.s3)
    && w'.s3.Keys == w.s3.Keys
    && (forall m :: m in w.s3 && m != n ==> w'.s3[m] == w.s3[m])
    && (n in w.s3 ==> w'.s3[n].objects == w.s3[n].objects && w'.s3[n].creator == w.s3[n].creator)
  }

  /** What a configuring call sets. */
  function Set(bucket: S3Bucket, q: S3Req): S3Bucket {
    match q
    case PutLifecycle(_, days) => bucket.(lifecycle := Some(days))
    case DeleteLifecycle(_) => bucket.(lifecycle := None)
    case PutPolicy(_, document) => bucket.(policy := Some(document))
    case PutTagging(_, tags) => bucket.(tags := TagMap(tags))
    case _ => bucket
  }

  /** One configuring call: what it may touch, what it does when it succeeds, and when a fault-free service accepts it. */
  lemma SettingServed(w: World, k: Key, q: S3Req, resp: Resp, w': World)
    requires w' == w.(s3 := w'.s3) && S3Serves(w.s3, k, q, resp, w'.s3)
    requires q.PutLifecycle? || q.DeleteLifecycle? || q.PutPolicy? || q.PutTagging?
    ensures Reconfigured(w, w', q.n)
    ensures resp == Done ==> q.n in w.s3 && q.n in w'.s3 && w'.s3[q.n] == Set(w.s3[q.n], q)
    ensures S3Reply(w.s3, q, resp) ==> (resp == Done <==> q.n in w.s3 && (q.PutTagging? ==> DistinctKeys(q.tags)))
  {
    hide TagMap, DistinctKeys;
  }

  /** An expiration policy becomes the lifecycle rule; without one all rules are removed. */
  method SetLifecycleRules(s: Session, b: Bucket) returns (err: bool)
    requires s.Valid() && s.Provider() == Aws && s.Pc() == Provisioning(b, AtLifecycle)
    modifies s
    ensures s.Valid() && s.Advanced()
    ensures !err ==> s.Pc() == Provisioning(b, AtPolicy)
    ensures s.Quiet() ==> Reconfigured(old(s.sys.w), s.sys.w, b.spec.name)
    ensures s.Quiet() && !err ==>
              b.spec.name in old(s.sys.w.s3) &&
              s.sys.w.s3[b.spec.name] == old(s.sys.w.s3)[b.spec.name].(lifecycle := b.spec.expiration)
    ensures s.Clean() ==> (!err <==> b.spec.name in old(s.sys.w.s3))
  {
    hide Session.Valid, S3Serves, S3Reply, S3Effect, Reconfigured, Allowed, Next;
    ghost var w := s.sys.w;
    var resp;
    if b.spec.expiration.Some? {
      StageCalls(Aws, s.me, b, AtLifecycle, OnS3(PutLifecycle(b.spec.name, b.spec.expiration.value)));
      resp := s.CallS3(PutLifecycle(b.spec.name, b.spec.expiration.value));
      if s.Quiet() {
        SettingServed(w, s.me, PutLifecycle(b.spec.name, b.spec.expiration.value), resp, s.sys.w);
      }
    } else {
      StageCalls(Aws, s.me, b, AtLifecycle, OnS3(DeleteLifecycle(b.spec.name)));
      resp := s.CallS3(DeleteLifecycle(b.spec.name));
      if s.Quiet() {
        SettingServed(w, s.me, DeleteLifecycle(b.spec.name), resp, s.sys.w);
      }
    }
    err := resp != Done;
  }

  method SetBucketPolicy(s: Session, b: Bucket, c: Cluster) returns (err: bool)
    requires s.Valid() && s.Provider() == Aws && s.Pc() == Provisioning(b, AtPolicy)
    modifies s
    ensures s.Valid() && s.Advanced()
    ensures !err ==> s.Pc() == Provisioning(b, AtTagging)
    ensures s.Quiet() ==> Reconfigured(old(s.sys.w), s.sys.w, b.spec.name)
    ensures s.Quiet() && !err ==>
              b.spec.name in old(s.sys.w.s3) &&
              s.sys.w.s3[b.spec.name] == old(s.sys.w.s3)[b.spec.name].(
                policy := Some(BucketPolicyText(BucketPolicyData(AwsDomain(c.region), b.spec.name))))
    ensures s.Clean() ==> (!err <==> b.spec.name in old(s.sys.w.s3))
  {
    hide Session.Valid, S3Serves, S3Reply, S3Effect, Reconfigured, DistinctKeys, Allowed, Next, BucketPolicyText;
    var policy := BucketPolicyText(BucketPolicyData(AwsDomain(c.region), b.spec.name));
    StageCalls(Aws, s.me, b, AtPolicy, OnS3(PutPolicy(b.spec.name, policy)));
    ghost var w := s.sys.w;
    var resp := s.CallS3(PutPolicy(b.spec.name, policy));
    err := resp != Done;
    if s.Quiet() {
      SettingServed(w, s.me, PutPolicy(b.spec.name, policy), resp, s.sys.w);
    }
  }

  method SetTags(s: Session, b: Bucket, c: Cluster) returns (err: bool)
    requires s.Valid() && s.Provider() == Aws && s.Pc() == Provisioning(b, AtTagging)
    modifies s
    ensures s.Valid() && s.Advanced()
    ensures !err ==> s.Pc() == Reporting(b)
    ensures s.Quiet() ==> Reconfigured(old(s.sys.w), s.sys.w, b.spec.name)
    ensures s.Quiet() && !err ==>
              b.spec.name in old(s.sys.w.s3) &&
              s.sys.w.s3[b.spec.name] == old(s.sys.w.s3)[b.spec.name].(tags := Wanted(b.spec.tags, c.tags))
    ensures s.Clean() ==> (!err <==> b.spec.name in old(s.sys.w.s3) && NoDuplicates(b.spec.tags, c.tags))
  {
    hide Session.Valid, S3Serves, S3Reply, S3Effect, Reconfigured, DistinctKeys, Allowed, Next, NoDuplicates, Wanted, TagMap;
    var tags := TagList(b.spec.tags, c.tags);
    StageCalls(Aws, s.me, b, AtTagging, OnS3(PutTagging(b.spec.name, tags)));
    ghost var w := s.sys.w;
    var resp := s.CallS3(PutTagging(b.spec.name, tags));
    err := resp != Done;
    if s.Quiet() {
      SettingServed(w, s.me, PutTagging(b.spec.name, tags), resp, s.sys.w);
    }
  }

  /**
   Configures the bucket from whatever configuration it had; a failure leaves its
   objects and every other bucket alone.
   */
  method ConfigureBucket(s: Session, b: Bucket, c: Cluster) returns (err: bool)
    requires s.Valid() && s.Provider() == Aws && s.Pc() == Provisioning(b, AtLifecycle)
    modifies s
    ensures s.Valid() && s.Advanced()
    ensures !err ==> s.Pc() == Reporting(b)
    ensures s.Quiet() ==> Reconfigured(old(s.sys.w), s.sys.w, b.spec.name)
    ensures s.Quiet() && !err ==>
              b.spec.name in old(s.sys.w.s3) &&
              s.sys.w == old(s.sys.w).(s3 := old(s.sys.w.s3)[b.spec.name := ConfiguredBucket(old(s.sys.w.s3)[b.spec.name], b.spec, c)])
    ensures s.Clean() ==> (!err <==> b.spec.name in old(s.sys.w.s3) && NoDuplicates(b.spec.tags, c.tags))
  {
    hide Session.Valid, NoDuplicates, Wanted, TagMap, BucketPolicyText;
    err := SetLifecycleRules(s, b);
    if err {
      return;
    }
    err := SetBucketPolicy(s, b, c);
    if err {
      return;
    }
    err := SetTags(s, b, c);
  }

  // ------------------------------------------------------------------- deletion

  function ObjectsOf(x: S3, n: string): set<int> {
    if n in x then x[n].objects else {}
  }

  /** Bucket `n` may have lost objects; nothing else differs. */
  predicate Shrunk(w: World, w': World, n: string) {
    w' == w || (n in w.s3 && w' == w.(s3 := w.s3[n := w.s3[n].(objects := ObjectsOf(w'.s3, n))]) &&
                ObjectsOf(w'.s3, n) <= ObjectsOf(w.s3, n))
  }

  /** `k` is listed only on pages after the one that ended with token `next`. */
  predicate BeyondPage(next: Option<int>, k: int) {
    next.Some? && next.value < k
  }

  /** What one page does to the objects of a bucket: everything on it was submitted, the rest is untouched. */
  ghost predicate Purged(before: set<int>, token: Option<int>, next: Option<int>, submitted: set<int>, after: set<int>) {
    && after <= before && before - after <= submitted
    && (forall k :: k in before && Beyond(token, k) && !BeyondPage(next, k) ==> k in submitted)
    && (next.Some? ==> next.value in before && Beyond(token, next.value))
  }

  lemma ListServed(x: S3, k: Key, n: string, token: Option<int>, resp: Resp, x': S3)
    requires S3Serves(x, k, ListObjects(n, token), resp, x')
    ensures x' == x
    ensures resp.Page? ==> n in x && IsPage(x[n].objects, token, resp.keys, resp.next)
    ensures S3Reply(x, ListObjects(n, token), resp) ==> (resp.Page? <==> n in x)
  {
  }

  lemma DeleteServed(x: S3, k: Key, n: string, keys: seq<int>, resp: Resp, x': S3)
    requires S3Serves(x, k, DeleteObjects(n, keys), resp, x')
    ensures x' == x || (n in x && x' == x[n := x[n].(objects := ObjectsOf(x', n))])
    ensures ObjectsOf(x', n) <= ObjectsOf(x, n) && ObjectsOf(x, n) - ObjectsOf(x', n) <= KeySet(keys)
    ensures n in x ==> n in x'
    ensures S3Reply(x, DeleteObjects(n, keys), resp) ==> (resp == Done <==> n in x)
    ensures x' == S3Effect(x, k, DeleteObjects(n, keys)) ==> ObjectsOf(x', n) == ObjectsOf(x, n) - KeySet(keys)
  {
  }

  lemma PageIsPurged(before: set<int>, token: Option<int>, keys: seq<int>, next: Option<int>, after: set<int>)
    requires IsPage(before, token, keys, next) && after <= before && before - after <= KeySet(keys)
    ensures Purged(before, token, next, KeySet(keys), after)
  {
  }

  /** The identifiers of the objects on a page. */
  method Identifiers(keys: seq<int>) returns (objects: seq<int>)
    ensures objects == keys
  {
    objects := [];
    for i := 0 to |keys|
      invariant objects == keys[..i]
    {
      objects := objects + [keys[i]];
    }
  }

  lemma DropReplied(x: S3, n: string, resp: Resp)
    requires S3Reply(x, Drop(n), resp)
    ensures n in x && ObjectsOf(x, n) == {} ==> resp == Done
  {
  }

  /** A bucket goes only when it is empty. */
  lemma DropServed(x: S3, k: Key, n: string, resp: Resp, x': S3)
    requires S3Serves(x, k, Drop(n), resp, x')
    ensures x' == x || x' == x - {n}
    ensures resp == Done ==> n !in x'
    ensures n in x && n !in x' ==> ObjectsOf(x, n) == {}
  {
  }

  /** Lists one page and asks for the deletion of what is on it. */
  method PurgePage(s: Session, b: Bucket, token: Option<int>) returns (err: bool, next: Option<int>, ghost submitted: set<int>)
    requires s.Valid() && s.Provider() == Aws && s.Pc() == Destroying(b)
    modifies s
    ensures s.Valid() && s.Advanced() && old(s.clock) < s.clock && (old(s.clock) >= s.horizon ==> s.Quiet())
    ensures !err ==> s.Pc() == Destroying(b)
    ensures s.Quiet() ==> Shrunk(old(s.sys.w), s.sys.w, b.spec.name)
    ensures s.Quiet() && !err ==> b.spec.name in s.sys.w.s3
    ensures s.Quiet() && !err ==>
              Purged(ObjectsOf(old(s.sys.w.s3), b.spec.name), token, next, submitted, ObjectsOf(s.sys.w.s3, b.spec.name))
    ensures s.Clean() ==> (!err <==> b.spec.name in old(s.sys.w.s3))
    ensures s.Clean() && !err ==> ObjectsOf(s.sys.w.s3, b.spec.name) == ObjectsOf(old(s.sys.w.s3), b.spec.name) - submitted
  {
    hide Session.Valid, S3Serves, S3Reply, S3Effect, IsPage, Purged, Destroyed;
    var n := b.spec.name;
    submitted, next := {}, None;
    ghost var x := s.sys.w.s3;
    var page := s.CallS3(ListObjects(n, token));
    err := !page.Page?;
    if s.Quiet() {
      ListServed(x, s.me, n, token, page, s.sys.w.s3);
    }
    if err {
      return;
    }
    var objects := Identifiers(page.keys);
    next, submitted := page.next, KeySet(page.keys);
    if |objects| != 0 {
      var resp := s.CallS3(DeleteObjects(n, objects));
      err := resp != Done;
      if s.Quiet() {
        DeleteServed(x, s.me, n, objects, resp, s.sys.w.s3);
      }
    }
    if s.Quiet() {
      PageIsPurged(ObjectsOf(x, n), token, page.keys, next, ObjectsOf(s.sys.w.s3, n));
    }
  }

  /** The listing has come past object `k`. */
  predicate Passed(firstPage: bool, token: Option<int>, k: int) {
    !firstPage && !BeyondPage(token, k)
  }

  /** How far the emptying has come: whatever is gone or has been passed was submitted. */
  ghost predicate Emptied(before: set<int>, firstPage: bool, token: Option<int>, submitted: set<int>, now: set<int>) {
    now <= before && before - now <= submitted && forall k :: k in now && Passed(firstPage, token, k) ==> k in submitted
  }

  /** The objects a listing that has come to `token` has yet to show. */
  function Unlisted(objects: set<int>, token: Option<int>): set<int> {
    set k | k in objects && Beyond(token, k)
  }

  lemma EmptyingGoesOn(before: set<int>, firstPage: bool, token: Option<int>, submitted: set<int>, now: set<int>,
                       next: Option<int>, page: set<int>, after: set<int>)
    requires Emptied(before, firstPage, token, submitted, now) && Purged(now, token, next, page, after)
    requires firstPage ==> token.None?
    requires !firstPage ==> token.Some?
    ensures Emptied(before, false, next, submitted + page, after)
  {
  }

  /** The paginated loop: every object the bucket had is submitted for deletion. */
  method EmptyBucket(s: Session, b: Bucket) returns (err: bool, ghost submitted: set<int>)
    requires s.Valid() && s.Provider() == Aws && s.Pc() == Destroying(b)
    modifies s
    ensures s.Valid() && s.Advanced()
    ensures !err ==> s.Pc() == Destroying(b)
    ensures s.Quiet() ==> Shrunk(old(s.sys.w), s.sys.w, b.spec.name)
    ensures s.Quiet() && !err ==> b.spec.name in s.sys.w.s3 && ObjectsOf(old(s.sys.w.s3), b.spec.name) <= submitted
    ensures s.Clean() ==> (!err <==> b.spec.name in old(s.sys.w.s3))
    ensures s.Clean() && !err ==> ObjectsOf(s.sys.w.s3, b.spec.name) == {}
  {
    hide Session.Valid, Purged, Allowed, Next;
    var n := b.spec.name;
    ghost var before := ObjectsOf(s.sys.w.s3, n);
    err, submitted := false, {};
    var firstPage, token := true, None;
    while firstPage || token.Some?
      invariant s.Valid() && s.Advanced() && s.Pc() == Destroying(b)
      invariant firstPage ==> token.None?
      invariant s.Quiet() ==> Shrunk(old(s.sys.w), s.sys.w, n)
      invariant s.Quiet() ==> Emptied(before, firstPage, token, submitted, ObjectsOf(s.sys.w.s3, n))
      invariant s.Quiet() && !firstPage ==> n in s.sys.w.s3
      invariant s.Clean() ==> ObjectsOf(s.sys.w.s3, n) == before - submitted
      decreases s.Unsettled(), firstPage, token.Some?, Unlisted(ObjectsOf(s.sys.w.s3, n), token)
    {
      ghost var now, was, page := ObjectsOf(s.sys.w.s3, n), submitted, {};
      var first, from := firstPage, token;
      label L:
      err, token, page := PurgePage(s, b, from);
      submitted := submitted + page;
      firstPage := false;
      if err {
        return;
      }
      if s.foreign == old@L(s.foreign) {
        PurgedDecreases(now, from, token, page, ObjectsOf(s.sys.w.s3, n));
        if s.Quiet() {
          EmptyingGoesOn(before, first, from, was, now, token, page, ObjectsOf(s.sys.w.s3, n));
        }
      }
    }
    if s.Quiet() {
      AllPassed(before, submitted, ObjectsOf(s.sys.w.s3, n));
    }
  }

  lemma AllPassed(before: set<int>, submitted: set<int>, now: set<int>)
    requires Emptied(before, false, None, submitted, now)
    ensures before <= submitted
  {
    forall k | k in before
      ensures k in submitted
    {
      assert k in now ==> Passed(false, None, k);
    }
  }

  lemma PurgedDecreases(now: set<int>, token: Option<int>, next: Option<int>, page: set<int>, after: set<int>)
    requires Purged(now, token, next, page, after)
    ensures next.Some? ==> Unlisted(after, next) < Unlisted(now, token)
  {
    if next.Some? {
      assert next.value in Unlisted(now, token) && next.value !in Unlisted(after, next);
    }
  }

  /**
   Empties the bucket page by page, then deletes it. Objects whose deletion S3 refuses
   silently make the last call fail; then the bucket is still there, with no object it
   did not have before, to be tried again. `submitted` are the objects whose deletion
   was asked for: all of them, before the bucket itself goes.
   */
  method DeleteBucket(s: Session, b: Bucket) returns (err: bool, ghost submitted: set<int>)
    requires s.Valid() && s.Provider() == Aws && s.Pc() == Destroying(b)
    modifies s
    ensures s.Valid() && s.Advanced()
    ensures !err ==> s.Pc() == Destroyed(Aws, b)
    ensures s.Quiet() ==> Shrunk(old(s.sys.w), s.sys.w, b.spec.name) ||
                          s.sys.w == old(s.sys.w).(s3 := old(s.sys.w.s3) - {b.spec.name})
    ensures s.Quiet() && !err ==> b.spec.name !in s.sys.w.s3
    ensures s.Quiet() && b.spec.name in old(s.sys.w.s3) && b.spec.name !in s.sys.w.s3 ==>
              ObjectsOf(old(s.sys.w.s3), b.spec.name) <= submitted
    ensures s.Clean() ==> (!err <==> b.spec.name in old(s.sys.w.s3))
  {
    hide Session.Valid, S3Serves, S3Effect, S3Reply, Provides, Provided;
    err, submitted := EmptyBucket(s, b);
    if err {
      return;
    }
    ghost var x := s.sys.w.s3;
    var resp := s.CallS3(Drop(b.spec.name));
    err := resp != Done;
    if s.Clean() {
      DropReplied(x, b.spec.name, resp);
    }
    if s.Quiet() {
      DropServed(x, s.me, b.spec.name, resp, s.sys.w.s3);
    }
  }
}
