/**
 The reconciler: one reconciliation of a Bucket resource from its read to its return.

 The methods follow the controller call by call, with its early returns. Whatever the
 services answer and whatever others do meanwhile, what happens is a run of the
 protocol, so every theorem about runs holds of it; when nobody else moves, the
 contracts say exactly what a reconciliation leaves behind.
 */
module Reconciler {
  import opened Base
  import opened Cloud
  import opened Names
  import opened Protocol
  import opened Sessions
  import opened NoOrphans
  import opened Isolation
  import opened Tags
  import opened IamAdapter
  import S3Adapter
  import AzureAdapter

  // ------------------------------------------------------------ the resource itself

  /** The feeds once the finalizer is registered. */
  function Registered(feeds: Feeds, k: Key, b: Bucket): Feeds {
    if BUCKET_FINALIZER in b.finalizers then feeds
    else KubeEffect(feeds, PatchFinalizers(k, Some(b.finalizers + [BUCKET_FINALIZER])))
  }

  /** The copy the reconciler goes on with: the patch that registers the finalizer refreshes it. */
  function Copy(feeds: Feeds, k: Key, b: Bucket): Bucket {
    var cur := Current(feeds, k);
    if BUCKET_FINALIZER in b.finalizers || cur.None? then b
    else cur.value.(finalizers := b.finalizers + [BUCKET_FINALIZER])
  }

  /** The feeds once the status is reported. */
  function Reported(feeds: Feeds, k: Key, copy: Bucket): Feeds {
    KubeEffect(feeds, StatusPatch(k, copy).kube)
  }

  /** What the stored resource `cur` becomes by a reconciliation that read `b`. */
  function Ready(cur: Bucket, b: Bucket): Bucket {
    var registered := if BUCKET_FINALIZER in b.finalizers then cur else cur.(finalizers := b.finalizers + [BUCKET_FINALIZER]);
    var known := if BUCKET_FINALIZER in b.finalizers then b else registered;
    var status := Status(true, known.spec.name);
    if known.status == status then registered else registered.(status := status)
  }

  /** No other Bucket resource differs. */
  ghost predicate OthersKept(feeds: Feeds, feeds': Feeds, k: Key) {
    forall k' :: k' != k ==> FeedOf(feeds', k') == FeedOf(feeds, k')
  }

  /** The stored resource carries the finalizer and the ready status. */
  ghost predicate Recorded(feeds: Feeds, feeds': Feeds, k: Key, b: Bucket) {
    && Current(feeds, k).Some?
    && var cur := Current(feeds, k).value;
    && (Current(feeds', k) == Stored(Ready(cur, b)) || (Ready(cur, b) == cur && Current(feeds', k) == Some(cur)))
  }

  lemma RecordedIs(feeds: Feeds, k: Key, b: Bucket)
    requires Current(feeds, k).Some?
    ensures var feeds' := Reported(Registered(feeds, k, b), k, Copy(feeds, k, b));
            Recorded(feeds, feeds', k, b) && OthersKept(feeds, feeds', k)
  {
  }

  /** What the answer to a patch says when nobody else moves. */
  lemma PatchServed(feeds: Feeds, q: KubeReq, resp: Resp, feeds': Feeds)
    requires KubeServes(feeds, q, resp, feeds') && !q.GetCr?
    ensures feeds' == feeds || feeds' == KubeEffect(feeds, q)
    ensures OthersKept(feeds, feeds', q.k)
    ensures resp.GotBucket? ==>
              feeds' == KubeEffect(feeds, q) && Current(feeds, q.k).Some? &&
              resp.b == if Written(Current(feeds, q.k), q).Some? then Written(Current(feeds, q.k), q).value else Current(feeds, q.k).value
    ensures KubeReplies(feeds, q, resp, feeds') ==> (resp.GotBucket? <==> Current(feeds, q.k).Some?)
  {
  }

  /** Where a reconciliation of an unmarked copy starts. */
  function Starting(b: Bucket): Pc {
    if BUCKET_FINALIZER in b.finalizers then Probing(b, false) else Finalizing(b)
  }

  method RegisterFinalizer(s: Session, b: Bucket) returns (copy: Bucket, err: bool)
    requires s.Valid() && s.Pc() == Starting(b)
    modifies s
    ensures s.Valid() && s.Advanced()
    ensures !err ==> s.Pc() == Probing(copy, false)
    ensures s.Quiet() ==> s.sys.w == old(s.sys.w).(feeds := s.sys.w.feeds) && OthersKept(old(s.sys.w.feeds), s.sys.w.feeds, s.me)
    ensures s.Quiet() ==> s.sys.w.feeds == old(s.sys.w.feeds) || s.sys.w.feeds == Registered(old(s.sys.w.feeds), s.me, b)
    ensures s.Quiet() && !err ==> s.sys.w.feeds == Registered(old(s.sys.w.feeds), s.me, b) && copy == Copy(old(s.sys.w.feeds), s.me, b)
    ensures s.Clean() ==> (!err <==> BUCKET_FINALIZER in b.finalizers || Current(old(s.sys.w.feeds), s.me).Some?)
  {
    hide Session.Valid, KubeServes, KubeReplies, KubeEffect, BUCKET_FINALIZER;
    copy, err := b, false;
    ghost var feeds := s.sys.w.feeds;
    if BUCKET_FINALIZER !in b.finalizers {
      var q := PatchFinalizers(s.me, Some(b.finalizers + [BUCKET_FINALIZER]));
      var resp := s.CallKube(q);
      err := !resp.GotBucket?;
      copy := if resp.GotBucket? then resp.b else b;
      if s.Quiet() {
        PatchServed(feeds, q, resp, s.sys.w.feeds);
      }
    }
  }

  method ReportReady(s: Session, b: Bucket) returns (copy: Bucket, err: bool)
    requires s.Valid() && s.Pc() == Reporting(b)
    modifies s
    ensures s.Valid() && s.Advanced()
    ensures !err ==> s.Pc() == if s.Provider().Aws? && HasRole(copy.spec) then Granting(copy) else Idle
    ensures s.Quiet() ==> s.sys.w == old(s.sys.w).(feeds := s.sys.w.feeds) && OthersKept(old(s.sys.w.feeds), s.sys.w.feeds, s.me)
    ensures s.Quiet() ==> s.sys.w.feeds == old(s.sys.w.feeds) || s.sys.w.feeds == Reported(old(s.sys.w.feeds), s.me, b)
    ensures s.Quiet() && !err ==> s.sys.w.feeds == Reported(old(s.sys.w.feeds), s.me, b)
    ensures s.Quiet() && !err ==>
              Current(old(s.sys.w.feeds), s.me).Some? && copy.spec == Current(old(s.sys.w.feeds), s.me).value.spec
    ensures s.Clean() ==> (!err <==> Current(old(s.sys.w.feeds), s.me).Some?)
  {
    hide Session.Valid, KubeServes, KubeReplies, KubeEffect;
    ghost var feeds := s.sys.w.feeds;
    var resp := s.CallKube(StatusPatch(s.me, b).kube);
    err := !resp.GotBucket?;
    copy := if resp.GotBucket? then resp.b else b;
    if s.Quiet() {
      PatchServed(feeds, StatusPatch(s.me, b).kube, resp, s.sys.w.feeds);
    }
  }

  // ------------------------------------------------------------------ reconcileNormal

  /** The S3 store with the bucket of `spec` there and configured. */
  function BucketSettled(x: S3, who: Key, spec: Spec, c: Cluster): S3 {
    var y := S3Adapter.WithBucket(x, who, spec.name);
    y[spec.name := S3Adapter.ConfiguredBucket(y[spec.name], spec, c)]
  }

  function RoleSettled(x: Iam, who: Key, spec: Spec, c: Cluster): Iam {
    if HasRole(spec) then ConfiguredIam(x, who, spec, c) else x
  }

  /**
   What an error-free reconciliation that read `b` leaves on AWS, from any state: bucket
   and role exactly as spec and cluster ask for, nothing else touched. The role follows
   the resource as stored, since reporting the status refreshes the copy.
   */
  ghost predicate AwsSettled(w: World, w': World, k: Key, b: Bucket, c: Cluster) {
    && Recorded(w.feeds, w'.feeds, k, b)
    && OthersKept(w.feeds, w'.feeds, k)
    && w' == w.(
         feeds := w'.feeds,
         s3 := BucketSettled(w.s3, k, Copy(w.feeds, k, b).spec, c),
         iam := RoleSettled(w.iam, k, Current(w.feeds, k).value.spec, c))
  }

  /** What building for bucket `n` and role `r` of `k` never touches, even when it fails half-way. */
  ghost predicate AwsSpared(w: World, w': World, k: Key, n: string, r: string) {
    && OthersKept(w.feeds, w'.feeds, k)
    && w' == w.(feeds := w'.feeds, s3 := w'.s3, iam := w'.iam)
    && w'.s3 - {n} == w.s3 - {n}
    && (n in w.s3 ==> n in w'.s3 && w'.s3[n].objects == w.s3[n].objects && w'.s3[n].creator == w.s3[n].creator)
    && (n in w'.s3 && n !in w.s3 ==> w'.s3[n].objects == {} && w'.s3[n].creator == Some(k))
    && (w'.iam == w.iam || (r != "" && Touched(w.iam, w'.iam, k, r)))
  }

  /** The existence check, the creation if need be, and the configuration. */
  method BuildAws(s: Session, b: Bucket, c: Cluster) returns (err: bool)
    requires s.Valid() && s.Provider() == Aws && s.Pc() == Probing(b, false)
    modifies s
    ensures s.Valid() && s.Advanced()
    ensures !err ==> s.Pc() == Reporting(b)
    ensures s.Quiet() ==> s.sys.w == old(s.sys.w).(s3 := s.sys.w.s3) && AwsSpared(old(s.sys.w), s.sys.w, s.me, b.spec.name, RoleName(b.spec))
    ensures s.Quiet() && !err ==> s.sys.w.s3 == BucketSettled(old(s.sys.w.s3), s.me, b.spec, c)
    ensures s.Clean() ==> (!err <==> NoDuplicates(b.spec.tags, c.tags))
  {
    hide Session.Valid, NoDuplicates, S3Adapter.ConfiguredBucket, Touched;
    var n := b.spec.name;
    var found;
    found, err := S3Adapter.ExistsBucket(s, b, false);
    if err {
      return;
    }
    if !found {
      err := S3Adapter.CreateBucket(s, b);
      if err {
        return;
      }
    }
    ghost var y := s.sys.w.s3;
    err := S3Adapter.ConfigureBucket(s, b, c);
  }

  /** What is provisioned for the bucket, with the account's policies configured on top. */
  ghost predicate AccountSettled(x: Az, x': Az, who: Key, spec: Spec, c: Cluster, isPrivate: bool) {
    exists y :: AzureAdapter.Provisioned(x, y, who, spec, c, isPrivate) && AccountName(spec.name) in y.accounts &&
                x' == AzureAdapter.PoliciesConfigured(y, spec)
  }

  /** What an error-free reconciliation that read `b` leaves on Azure, from any state. */
  ghost predicate AzureSettled(w: World, w': World, k: Key, b: Bucket, c: Cluster) {
    var copy := Copy(w.feeds, k, b);
    && Recorded(w.feeds, w'.feeds, k, b)
    && OthersKept(w.feeds, w'.feeds, k)
    && w' == w.(feeds := w'.feeds, az := w'.az, secrets := w'.secrets)
    && AccountSettled(w.az, w'.az, k, copy.spec, c, w.isPrivate)
    && AzureAdapter.HasCredentials(w.az, copy.spec.name)
    && w'.secrets == AzureAdapter.CredentialsStored(w, k, copy.spec.name)
  }

  /** An attempt keeps the account and what is in it; at most the policies are configured already. */
  predicate AccountSpared(x: Az, x': Az, who: Key, spec: Spec) {
    var a, n := AccountName(spec.name), spec.name;
    var was := AzureAdapter.Found(x, who, a);
    && (a in x.accounts ==> a in x'.accounts)
    && (a in x'.accounts ==>
          AzureAdapter.Survives(was, x'.accounts[a], who, n) &&
          (x'.accounts[a].policies == was.policies ||
           x'.accounts[a].policies == AzureAdapter.ConfiguredPolicies(was.policies, spec.expiration)))
  }

  /** What providing for the bucket of `spec` never touches, even when it fails half-way. */
  ghost predicate AzureSpared(w: World, w': World, k: Key, spec: Spec) {
    && OthersKept(w.feeds, w'.feeds, k)
    && w' == w.(feeds := w'.feeds, az := w'.az, secrets := w'.secrets)
    && Local(w.az, w'.az, AccountName(spec.name), spec.name)
    && AccountSpared(w.az, w'.az, k, spec)
    && (!w.isPrivate ==> w'.az.endpoints == w.az.endpoints && w'.az.records == w.az.records)
    && (|| w'.secrets == w.secrets
        || (AzureAdapter.HasCredentials(w.az, spec.name) && w'.secrets == AzureAdapter.CredentialsStored(w, k, spec.name)))
  }

  /** Configuring the policies of what was provided, or failing to, is still within what an attempt may touch. */
  lemma ConfiguringSpares(w: World, w1: World, w': World, k: Key, spec: Spec)
    requires AzureAdapter.ProvisioningSpared(w, w1, k, spec.name) && AccountName(spec.name) in w1.az.accounts
    requires w' == w1.(az := w'.az) && (w'.az == w1.az || w'.az == AzureAdapter.PoliciesConfigured(w1.az, spec))
    ensures AzureSpared(w, w', k, spec)
  {
    hide AccountName, AzureAdapter.HasCredentials, AzureAdapter.CredentialsStored, AzureAdapter.ConfiguredPolicies;
    ConfiguringIsLocal(w1.az, spec);
    LocalItself(w1.az, AccountName(spec.name), spec.name);
    LocalTwice(w.az, w1.az, w'.az, AccountName(spec.name), spec.name);
  }

  lemma ProvidingSpares(w: World, w': World, k: Key, spec: Spec)
    requires AzureAdapter.ProvisioningSpared(w, w', k, spec.name)
    ensures AzureSpared(w, w', k, spec)
  {
    hide AccountName, AzureAdapter.HasCredentials, AzureAdapter.CredentialsStored, AzureAdapter.ConfiguredPolicies, Local;
  }

  lemma AzureSparedItself(w: World, k: Key, spec: Spec)
    ensures AzureSpared(w, w, k, spec)
  {
    hide AccountName;
  }

  lemma ConfiguringIsLocal(x: Az, spec: Spec)
    requires AccountName(spec.name) in x.accounts
    ensures Local(x, AzureAdapter.PoliciesConfigured(x, spec), AccountName(spec.name), spec.name)
  {
    hide AccountName, AzureAdapter.ConfiguredPolicies;
  }

  /** The existence check, the creation or update, and the configuration. */
  method BuildAzure(s: Session, b: Bucket, c: Cluster) returns (err: bool)
    requires s.Valid() && s.Provider() == Azure && s.Pc() == Probing(b, false)
    modifies s
    ensures s.Valid() && s.Advanced()
    ensures !err ==> s.Pc() == Reporting(b)
    ensures s.Quiet() ==> s.sys.w.feeds == old(s.sys.w.feeds) && AzureSpared(old(s.sys.w), s.sys.w, s.me, b.spec)
    ensures s.Quiet() && !err ==> AccountSettled(old(s.sys.w.az), s.sys.w.az, s.me, b.spec, c, old(s.sys.w.isPrivate))
    ensures s.Quiet() && !err ==>
              AzureAdapter.HasCredentials(old(s.sys.w.az), b.spec.name) &&
              s.sys.w.secrets == AzureAdapter.CredentialsStored(old(s.sys.w), s.me, b.spec.name)
    ensures s.Clean() ==>
              (!err <==> AccountName(b.spec.name) !in old(s.sys.w.az.taken) && AzureAdapter.HasCredentials(old(s.sys.w.az), b.spec.name))
  {
    hide Session.Valid, AccountName, AzureSpared, AzureAdapter.HasCredentials, AzureAdapter.CredentialsStored,
         AzureAdapter.Provisioned, AzureAdapter.PoliciesConfigured, AzureAdapter.ProvisioningSpared, Provides, Provided;
    ghost var w := s.sys.w;
    AzureSparedItself(w, s.me, b.spec);
    var found;
    found, err := AzureAdapter.ExistsBucket(s, b, false);
    if err {
      return;
    }
    if !found {
      err := AzureAdapter.CreateBucket(s, b, c);
    } else {
      err := AzureAdapter.UpdateBucket(s, b, c);
    }
    ghost var w1 := s.sys.w;
    if err {
      if s.Quiet() {
        ProvidingSpares(w, w1, s.me, b.spec);
      }
      return;
    }
    if s.Quiet() {
      AzureAdapter.ProvisionedAccount(w.az, w1.az, s.me, b.spec, c, w.isPrivate);
    }
    err := AzureAdapter.ConfigureBucket(s, b);
    if s.Quiet() {
      ConfiguringSpares(w, w1, s.sys.w, s.me, b.spec);
    }
  }

  /** The role name of the resource as stored. */
  function StoredRole(feeds: Feeds, k: Key): string {
    if Current(feeds, k).Some? then RoleName(Current(feeds, k).value.spec) else ""
  }

  lemma RegisteringKeepsSpec(feeds: Feeds, k: Key, b: Bucket)
    ensures var feeds' := Registered(feeds, k, b);
            (Current(feeds', k).Some? <==> Current(feeds, k).Some?) &&
            (Current(feeds, k).Some? ==> Current(feeds', k).value.spec == Current(feeds, k).value.spec)
  {
  }

  /** When a fault-free, undisturbed reconciliation on AWS succeeds: no tag key occurs twice. */
  predicate AwsSettles(w: World, k: Key, b: Bucket, c: Cluster) {
    && Current(w.feeds, k).Some?
    && NoDuplicates(Copy(w.feeds, k, b).spec.tags, c.tags)
    && (StoredRole(w.feeds, k) != "" ==> NoDuplicates(Current(w.feeds, k).value.spec.tags, c.tags))
  }

  /** When a fault-free, undisturbed reconciliation on Azure succeeds. */
  predicate AzureSettles(w: World, k: Key, b: Bucket) {
    var n := Copy(w.feeds, k, b).spec.name;
    Current(w.feeds, k).Some? && AccountName(n) !in w.az.taken && AzureAdapter.HasCredentials(w.az, n)
  }

  /** Finalizer, existence check, creation if need be, and configuration. */
  method ProvideAws(s: Session, b: Bucket, c: Cluster) returns (copy: Bucket, err: bool)
    requires s.Valid() && s.Provider() == Aws && s.Pc() == Starting(b)
    modifies s
    ensures s.Valid() && s.Advanced()
    ensures !err ==> s.Pc() == Reporting(copy)
    ensures s.Quiet() ==>
              AwsSpared(old(s.sys.w), s.sys.w, s.me, Copy(old(s.sys.w.feeds), s.me, b).spec.name, StoredRole(old(s.sys.w.feeds), s.me)) &&
              s.sys.w.iam == old(s.sys.w.iam)
    ensures s.Quiet() && !err ==>
              copy == Copy(old(s.sys.w.feeds), s.me, b) && s.sys.w.feeds == Registered(old(s.sys.w.feeds), s.me, b) &&
              s.sys.w.s3 == BucketSettled(old(s.sys.w.s3), s.me, copy.spec, c)
    ensures s.Clean() ==>
              (!err <==> (BUCKET_FINALIZER in b.finalizers || Current(old(s.sys.w.feeds), s.me).Some?) &&
                         NoDuplicates(Copy(old(s.sys.w.feeds), s.me, b).spec.tags, c.tags))
  {
    hide Session.Valid, NoDuplicates, Touched, BucketSettled, Registered, Copy, BUCKET_FINALIZER;
    copy, err := RegisterFinalizer(s, b);
    if err {
      return;
    }
    err := BuildAws(s, copy, c);
  }

  /** The reconciliation of an unmarked copy `b` with the AWS services. */
  method ReconcileNormalAws(s: Session, b: Bucket, c: Cluster) returns (err: bool)
    requires s.Valid() && s.Provider() == Aws && s.Pc() == Starting(b)
    modifies s
    ensures s.Valid() && s.Advanced()
    ensures s.Quiet() ==>
              AwsSpared(old(s.sys.w), s.sys.w, s.me, Copy(old(s.sys.w.feeds), s.me, b).spec.name, StoredRole(old(s.sys.w.feeds), s.me))
    ensures s.Quiet() && !err ==> AwsSettled(old(s.sys.w), s.sys.w, s.me, b, c)
    ensures s.Clean() ==> (!err <==> AwsSettles(old(s.sys.w), s.me, b, c))
  {
    hide Session.Valid, NoDuplicates, Touched, BucketSettled, ConfiguredIam, Recorded, Registered, Reported, Copy, BUCKET_FINALIZER;
    ghost var w := s.sys.w;
    RegisteringKeepsSpec(w.feeds, s.me, b);
    var copy;
    copy, err := ProvideAws(s, b, c);
    if err {
      return;
    }
    copy, err := ReportReady(s, copy);
    if err {
      return;
    }
    if s.Quiet() {
      RecordedIs(w.feeds, s.me, b);
    }
    if HasRole(copy.spec) {
      err := ConfigureRole(s, copy, c);
    }
  }

  /** The reconciliation of an unmarked copy `b` with the Azure services, whose role operations do nothing. */
  method ReconcileNormalAzure(s: Session, b: Bucket, c: Cluster) returns (err: bool)
    requires s.Valid() && s.Provider() == Azure && s.Pc() == Starting(b)
    modifies s
    ensures s.Valid() && s.Advanced()
    ensures s.Quiet() ==> AzureSpared(old(s.sys.w), s.sys.w, s.me, Copy(old(s.sys.w.feeds), s.me, b).spec)
    ensures s.Quiet() && !err ==> AzureSettled(old(s.sys.w), s.sys.w, s.me, b, c)
    ensures s.Clean() ==> (!err <==> AzureSettles(old(s.sys.w), s.me, b))
  {
    hide Session.Valid, AccountName, AccountSettled, AccountSpared, Local, AzureAdapter.HasCredentials, AzureAdapter.CredentialsStored,
         Recorded, Registered, Reported, Copy, BUCKET_FINALIZER;
    ghost var w := s.sys.w;
    RegisteringKeepsSpec(w.feeds, s.me, b);
    AzureSparedItself(w, s.me, Copy(w.feeds, s.me, b).spec);
    var copy;
    copy, err := RegisterFinalizer(s, b);
    if err {
      return;
    }
    if s.Quiet() {
      AzureAdapter.SameCredentials(w, s.sys.w, s.me, copy.spec.name);
    }
    err := BuildAzure(s, copy, c);
    if err {
      return;
    }
    copy, err := ReportReady(s, copy);
    if s.Quiet() && !err {
      RecordedIs(w.feeds, s.me, b);
    }
  }

  // ------------------------------------------------------------------ reconcileDelete

  /** When the fault-free deletion of existing storage goes through to the release. */
  predicate Removes(w: World, k: Key, b: Bucket) {
    if w.provider.Aws? then HasRole(b.spec) ==> Removable(w.iam, RoleName(b.spec))
    else AzureAdapter.DeletableSecret(w.secrets, SecretKey(k, b))
  }

  /** Nothing named after the copy is left. */
  predicate Gone(w: World, k: Key, b: Bucket) {
    Absent(w, b.spec.name) &&
    if w.provider.Aws? then HasRole(b.spec) ==> RoleName(b.spec) !in w.iam.roles
    else AzureAdapter.SecretDropped(w.secrets, SecretKey(k, b))
  }

  /** What destroying bucket `n` and role `r` of `k` never touches, even when it fails half-way. */
  ghost predicate AwsDestructionSpared(w: World, w': World, k: Key, n: string, r: string) {
    && OthersKept(w.feeds, w'.feeds, k)
    && w' == w.(feeds := w'.feeds, s3 := w'.s3, iam := w'.iam)
    && w'.s3 - {n} == w.s3 - {n}
    && TornDown(w.iam, w'.iam, r)
  }

  ghost predicate AzureDestructionSpared(w: World, w': World, k: Key, n: string) {
    && OthersKept(w.feeds, w'.feeds, k)
    && w' == w.(feeds := w'.feeds, az := w'.az, secrets := w'.secrets)
    && Local(w.az, w'.az, AccountName(n), n)
    && w'.secrets - {Key(k.namespace, n)} == w.secrets - {Key(k.namespace, n)}
  }

  ghost predicate DestructionSpared(w: World, w': World, k: Key, b: Bucket) {
    if w.provider.Aws? then AwsDestructionSpared(w, w', k, b.spec.name, RoleName(b.spec))
    else AzureDestructionSpared(w, w', k, b.spec.name)
  }

  /** The deletion of the storage and, when one is named, of the role, on AWS. */
  method DestroyAws(s: Session, b: Bucket) returns (err: bool)
    requires s.Valid() && s.Provider() == Aws && s.Pc() == Destroying(b)
    modifies s
    ensures s.Valid() && s.Advanced()
    ensures !err ==> s.Pc() == Releasing(b)
    ensures s.Quiet() ==> s.sys.w.feeds == old(s.sys.w.feeds) && DestructionSpared(old(s.sys.w), s.sys.w, s.me, b)
    ensures s.Quiet() && !err ==> Gone(s.sys.w, s.me, b)
    ensures s.Clean() ==> (!err <==> b.spec.name in old(s.sys.w.s3) && Removes(old(s.sys.w), s.me, b))
  {
    hide Session.Valid, TornDown, Removable;
    TornDownItself(s.sys.w.iam, RoleName(b.spec));
    ghost var submitted, swallowed;
    err, submitted := S3Adapter.DeleteBucket(s, b);
    if err {
      return;
    }
    if HasRole(b.spec) {
      err, swallowed := DeleteRole(s, b);
    }
  }

  /** The deletion of the storage and its credentials, on Azure. */
  method DestroyAzure(s: Session, b: Bucket) returns (err: bool)
    requires s.Valid() && s.Provider() == Azure && s.Pc() == Destroying(b)
    modifies s
    ensures s.Valid() && s.Advanced()
    ensures !err ==> s.Pc() == Releasing(b)
    ensures s.Quiet() ==> s.sys.w.feeds == old(s.sys.w.feeds) && DestructionSpared(old(s.sys.w), s.sys.w, s.me, b)
    ensures s.Quiet() && !err ==> Gone(s.sys.w, s.me, b)
    ensures s.Clean() ==> (!err <==> Removes(old(s.sys.w), s.me, b))
  {
    hide Session.Valid, AccountName, AzureAdapter.DeletableSecret, AzureAdapter.SecretDropped;
    err := AzureAdapter.DeleteBucket(s, b);
  }

  /** The deletions that precede the release. */
  method Destroy(s: Session, b: Bucket) returns (err: bool)
    requires s.Valid() && s.Pc() == Destroying(b)
    modifies s
    ensures s.Valid() && s.Advanced()
    ensures !err ==> s.Pc() == Releasing(b)
    ensures s.Quiet() ==> s.sys.w.feeds == old(s.sys.w.feeds) && DestructionSpared(old(s.sys.w), s.sys.w, s.me, b)
    ensures s.Quiet() && !err ==> Gone(s.sys.w, s.me, b)
    ensures s.Clean() && !Absent(old(s.sys.w), b.spec.name) ==> (!err <==> Removes(old(s.sys.w), s.me, b))
  {
    hide Session.Valid, DestructionSpared, Gone, Removes, AccountName;
    if s.Provider().Aws? {
      err := DestroyAws(s, b);
    } else {
      err := DestroyAzure(s, b);
    }
  }

  /** The existence check before a deletion. */
  method ExistsBucket(s: Session, b: Bucket) returns (found: bool, err: bool)
    requires s.Valid() && s.Pc() == Probing(b, true)
    modifies s
    ensures s.Valid() && s.Advanced()
    ensures !err ==> s.Pc() == Probed(s.Provider(), b, true, found)
    ensures !err && found ==> s.tally.sightings > old(s.tally.sightings)
    ensures s.Quiet() ==> s.sys.w == old(s.sys.w)
    ensures s.Quiet() && !err ==> (found <==> !Absent(s.sys.w, b.spec.name))
    ensures s.Clean() ==> !err
  {
    hide Session.Valid, AccountName;
    if s.Provider().Aws? {
      found, err := S3Adapter.ExistsBucket(s, b, true);
    } else {
      found, err := AzureAdapter.ExistsBucket(s, b, true);
    }
  }

  /** The storage exists, its copy asks for its deletion. */
  predicate Condemned(w: World, b: Bucket) {
    !Absent(w, b.spec.name) && b.spec.reclaimPolicy == "Delete"
  }

  /** The finalizer has just been taken off. */
  predicate Released(feeds: Feeds, feeds': Feeds, k: Key) {
    Live(Current(feeds, k)) && !Live(Current(feeds', k))
  }

  lemma ReleaseServed(feeds: Feeds, k: Key, b: Bucket, resp: Resp, feeds': Feeds)
    requires KubeServes(feeds, ReleasePatch(k, b).kube, resp, feeds')
    ensures OthersKept(feeds, feeds', k)
    ensures BUCKET_FINALIZER !in b.finalizers ==> feeds' == feeds
    ensures Released(feeds, feeds', k) ==>
              BUCKET_FINALIZER in b.finalizers &&
              Current(feeds', k) == Stored(Current(feeds, k).value.(finalizers := Without(b.finalizers, BUCKET_FINALIZER)))
    ensures resp.GotBucket? && BUCKET_FINALIZER in b.finalizers ==> !Live(Current(feeds', k))
    ensures KubeReplies(feeds, ReleasePatch(k, b).kube, resp, feeds') ==> (resp.GotBucket? <==> Current(feeds, k).Some?)
  {
    hide Without, BUCKET_FINALIZER;
    assert BUCKET_FINALIZER !in Without(b.finalizers, BUCKET_FINALIZER);
    PatchServed(feeds, ReleasePatch(k, b).kube, resp, feeds');
  }

  lemma SparedItself(w: World, k: Key, b: Bucket)
    ensures DestructionSpared(w, w, k, b)
  {
    hide AccountName;
  }

  /** The release itself touches nothing but its own resource. */
  lemma SparedAndReleased(w: World, w': World, w'': World, k: Key, b: Bucket)
    requires DestructionSpared(w, w', k, b) && w'' == w'.(feeds := w''.feeds) && OthersKept(w'.feeds, w''.feeds, k)
    ensures DestructionSpared(w, w'', k, b)
    ensures Gone(w', k, b) ==> Gone(w'', k, b)
  {
    hide AccountName, Local, TornDown, AzureAdapter.SecretDropped;
  }

  /**
   The reconciliation of a marked copy. When its storage is absent, the existence check
   fails, or the reclaim policy is anything but "Delete", it does nothing at all and
   reports success. The finalizer goes only when everything named after the copy is
   gone, and without faults it goes exactly when the storage existed, was to be deleted,
   and nothing kept the role or the secret in place. Other finalizers of the copy stay.
   */
  method ReconcileDelete(s: Session, b: Bucket) returns (err: bool)
    requires s.Valid() && s.Pc() == Probing(b, true)
    modifies s
    ensures s.Valid() && s.Advanced()
    ensures b.spec.reclaimPolicy != "Delete" ==> !err
    ensures err ==> s.tally.sightings > old(s.tally.sightings)
    ensures s.Quiet() ==> DestructionSpared(old(s.sys.w), s.sys.w, s.me, b)
    ensures s.Quiet() && !Condemned(old(s.sys.w), b) ==> !err && s.sys.w == old(s.sys.w)
    ensures s.Quiet() && Released(old(s.sys.w.feeds), s.sys.w.feeds, s.me) ==>
              Condemned(old(s.sys.w), b) && BUCKET_FINALIZER in b.finalizers && Gone(s.sys.w, s.me, b)
    ensures s.Quiet() && Released(old(s.sys.w.feeds), s.sys.w.feeds, s.me) ==>
              Current(s.sys.w.feeds, s.me) ==
              Stored(Current(old(s.sys.w.feeds), s.me).value.(finalizers := Without(b.finalizers, BUCKET_FINALIZER)))
    ensures s.Clean() && Live(Current(old(s.sys.w.feeds), s.me)) ==>
              (Released(old(s.sys.w.feeds), s.sys.w.feeds, s.me) <==>
               BUCKET_FINALIZER in b.finalizers && Condemned(old(s.sys.w), b) && Removes(old(s.sys.w), s.me, b))
    ensures s.Quiet() && BUCKET_FINALIZER !in b.finalizers ==> s.sys.w.feeds == old(s.sys.w.feeds)
    ensures s.Quiet() && !err && s.sys.w != old(s.sys.w) ==>
              Gone(s.sys.w, s.me, b) && (BUCKET_FINALIZER in b.finalizers ==> !Live(Current(s.sys.w.feeds, s.me)))
    ensures s.Clean() && Condemned(old(s.sys.w), b) ==>
              (!err <==> Removes(old(s.sys.w), s.me, b) && Current(old(s.sys.w.feeds), s.me).Some?)
  {
    hide Session.Valid, AccountName, Removes, Gone, Absent, DestructionSpared,
         KubeServes, KubeReplies, KubeEffect, BUCKET_FINALIZER, Without;
    SparedItself(s.sys.w, s.me, b);
    var found;
    found, err := ExistsBucket(s, b);
    if err || !found || b.spec.reclaimPolicy != RECLAIM_DELETE {
      return false;
    }
    err := Destroy(s, b);
    if err {
      return;
    }
    ghost var w, feeds := s.sys.w, s.sys.w.feeds;
    var resp := s.CallKube(ReleasePatch(s.me, b).kube);
    err := !resp.GotBucket?;
    if s.Quiet() {
      ReleaseServed(feeds, s.me, b, resp, s.sys.w.feeds);
      SparedAndReleased(old(s.sys.w), w, s.sys.w, s.me, b);
    }
  }

  // ------------------------------------------------------------------------ Reconcile

  /** The cache has caught up: a read can only return the resource as stored. */
  predicate UpToDate(feeds: Feeds, k: Key) {
    |FeedOf(feeds, k)| == 1
  }

  lemma ReadServed(feeds: Feeds, k: Key, resp: Resp, feeds': Feeds)
    requires KubeServes(feeds, GetCr(k), resp, feeds') && UpToDate(feeds, k)
    ensures forall k' :: FeedOf(feeds', k') == FeedOf(feeds, k')
    ensures resp.GotBucket? ==> Current(feeds, k) == Some(resp.b) && feeds' == feeds
    ensures KubeReplies(feeds, GetCr(k), resp, feeds') ==>
              if Current(feeds, k).None? then resp == Missing else resp.GotBucket?
    ensures if resp == Missing then Current(feeds, k).None? else feeds' == feeds
  {
    var j := ReadMovesOn(feeds, k, resp, feeds');
    if resp.GotBucket? {
      assert FeedOf(feeds, k)[0..] == FeedOf(feeds, k);
      assert feeds[k := feeds[k]] == feeds;
    }
  }

  lemma ClusterServed(w: World, k: Key, resp: Resp, w': World)
    requires Serves(w, k, GetCluster, resp, w')
    ensures w' == w && (resp.GotCluster? ==> resp.c == w.cluster)
    ensures Replies(w, k, GetCluster, resp, w') ==> resp.GotCluster?
  {
  }

  ghost predicate Settled(w: World, w': World, k: Key, b: Bucket, c: Cluster) {
    if w.provider.Aws? then AwsSettled(w, w', k, b, c) else AzureSettled(w, w', k, b, c)
  }

  predicate Settles(w: World, k: Key, b: Bucket, c: Cluster) {
    if w.provider.Aws? then AwsSettles(w, k, b, c) else AzureSettles(w, k, b)
  }

  /** What a reconciliation that read `b` never touches, even when it fails half-way. */
  ghost predicate Spared(w: World, w': World, k: Key, b: Bucket) {
    var spec := Copy(w.feeds, k, b).spec;
    if w.provider.Aws? then AwsSpared(w, w', k, spec.name, StoredRole(w.feeds, k)) else AzureSpared(w, w', k, spec)
  }

  method ReconcileNormal(s: Session, b: Bucket, c: Cluster) returns (err: bool)
    requires s.Valid() && s.Pc() == Starting(b)
    modifies s
    ensures s.Valid() && s.Advanced()
    ensures s.Quiet() ==> Spared(old(s.sys.w), s.sys.w, s.me, b)
    ensures s.Quiet() && !err ==> Settled(old(s.sys.w), s.sys.w, s.me, b, c)
    ensures s.Clean() ==> (!err <==> Settles(old(s.sys.w), s.me, b, c))
  {
    hide Session.Valid, AwsSettled, AzureSettled, AwsSettles, AzureSettles, AwsSpared, AzureSpared, Copy, AccountName;
    if s.Provider().Aws? {
      err := ReconcileNormalAws(s, b, c);
    } else {
      err := ReconcileNormalAzure(s, b, c);
    }
  }

  /** The deletion half of `Reconciled`. */
  ghost predicate Unwound(w: World, w': World, k: Key, b: Bucket, err: bool, clean: bool) {
    && DestructionSpared(w, w', k, b)
    && (!Condemned(w, b) ==> w' == w)
    && (Released(w.feeds, w'.feeds, k) ==> Condemned(w, b) && Gone(w', k, b))
    && (Released(w.feeds, w'.feeds, k) ==>
          Current(w'.feeds, k) == Stored(b.(finalizers := Without(b.finalizers, "objectstorage.giantswarm.io/bucket"))))
    && (clean && Live(Some(b)) ==> (Released(w.feeds, w'.feeds, k) <==> Condemned(w, b) && Removes(w, k, b)))
    && (clean ==> (err <==> Condemned(w, b) && !Removes(w, k, b)))
    && (!err && w' != w ==> Gone(w', k, b) && !Live(Current(w'.feeds, k)))
  }

  /**
   What a reconciliation does that nobody disturbs and that reads an up-to-date cache;
   `clean` when, moreover, no call failed.
   */
  ghost predicate Reconciled(w: World, w': World, k: Key, err: bool, clean: bool) {
    match Current(w.feeds, k)
    case None =>
      && w' == w.(feeds := w'.feeds) && (forall k' :: FeedOf(w'.feeds, k') == FeedOf(w.feeds, k'))
      && (clean ==> !err)
    case Some(b) =>
      if b.deleting then Unwound(w, w', k, b, err, clean)
      else
        && Spared(w, w', k, b)
        && (!err ==> Settled(w, w', k, b, w.cluster))
        && (clean ==> (!err <==> Settles(w, k, b, w.cluster)))
  }

  /** Whatever the operator made belongs to a Bucket resource that carries the finalizer. */
  ghost predicate NothingOrphaned(w: World) {
    forall t :: Maker(w, t).Some? ==>
      var v := Current(w.feeds, Maker(w, t).value);
      v.Some? && "objectstorage.giantswarm.io/bucket" in v.value.finalizers
  }

  lemma RunOrphansNothing(run: seq<Sys>)
    requires IsRun(run) && Init(run[0])
    ensures NothingOrphaned(run[|run| - 1].w)
  {
    hide Init, Step;
    var w := run[|run| - 1].w;
    forall t | Maker(w, t).Some?
      ensures var v := Current(w.feeds, Maker(w, t).value);
              v.Some? && "objectstorage.giantswarm.io/bucket" in v.value.finalizers
    {
      NoOrphansInRuns(run, |run| - 1, Maker(w, t).value);
    }
  }

  lemma NothingHappened(w: World, k: Key, b: Bucket)
    ensures Unwound(w, w, k, b, true, false) && Spared(w, w, k, b)
  {
    AzureSparedItself(w, k, Copy(w.feeds, k, b).spec);
    hide AzureSpared;
    hide Condemned, Gone, DestructionSpared, AccountName, Copy, Touched;
    SparedItself(w, k, b);
  }

  /**
   A reconciliation reports success only if its read found no resource, or if both its
   read and its lookup of the cluster were answered.
   */
  twostate predicate LookedUp(s: Session)
    reads s
  {
    s.tally.absences > old(s.tally.absences) || (s.tally.readings > old(s.tally.readings) && s.tally.lookups > old(s.tally.lookups))
  }

  /** From the read to the last call. */
  method Attempt(s: Session) returns (err: bool)
    requires s.Valid() && s.Pc() == Idle
    modifies s
    ensures s.Valid() && s.Advanced() && (!err ==> LookedUp(s))
    ensures s.Quiet() && UpToDate(old(s.sys.w.feeds), s.me) ==> Reconciled(old(s.sys.w), s.sys.w, s.me, err, s.Clean())
  {
    hide Session.Valid, KubeServes, KubeReplies, Serves, Replies, Settled, Settles, Condemned, Removes, Gone, DestructionSpared, Spared, UpToDate,
         FeedOf, Released;
    ghost var w := s.sys.w;
    var read := s.CallKube(GetCr(s.me));
    ghost var upToDate := s.Quiet() && UpToDate(w.feeds, s.me);
    if upToDate {
      ReadServed(w.feeds, s.me, read, s.sys.w.feeds);
    }
    if !read.GotBucket? {
      if upToDate && Current(w.feeds, s.me).Some? {
        NothingHappened(w, s.me, Current(w.feeds, s.me).value);
      }
      return read != Missing;
    }
    var b := read.b;
    ghost var w' := s.sys.w;
    var looked := s.Call(GetCluster);
    if s.Quiet() {
      ClusterServed(w', s.me, looked, s.sys.w);
    }
    if !looked.GotCluster? {
      if upToDate {
        NothingHappened(w, s.me, b);
      }
      return true;
    }
    if b.deleting {
      err := ReconcileDelete(s, b);
    } else {
      err := ReconcileNormal(s, b, looked.c);
    }
  }

  /**
   One reconciliation. If the session started before the operator had touched anything,
   no resource of the operator's is orphaned when it returns, however the services
   answered and whatever others did.
   */
  method Reconcile(s: Session) returns (err: bool)
    requires s.Valid() && s.Pc() == Idle
    modifies s
    ensures s.Valid() && s.Advanced() && s.Pc() == Idle && (!err ==> LookedUp(s))
    ensures Init(s.start) ==> NothingOrphaned(s.sys.w)
    ensures s.Quiet() && UpToDate(old(s.sys.w.feeds), s.me) ==> Reconciled(old(s.sys.w), s.sys.w, s.me, err, s.Clean())
  {
    hide Reconciled, UpToDate, NothingOrphaned, Init, Step;
    err := Attempt(s);
    s.Return();
    if Init(s.start) {
      RunOrphansNothing(s.run);
    }
  }
}
