/**
 The reconciliation protocol as a state machine over its calls.

 Each Bucket resource has at most one reconciliation under way; reconciliations
 of different resources, users, and crashes of the operator interleave freely
 between any two calls. A worker's program counter says which calls it may issue
 next. Creation, update, configuration and the deletion of the Azure secret go call by
 call; when emptying a bucket and when configuring or taking apart a role, the machine
 leaves the order of calls open, since no theorem depends on it. The methods of the
 adapter modules fix that order and are proved to issue only calls the machine allows.
 */
module Protocol {
  import opened Base
  import opened Cloud
  import opened Names

  /** Where the reconciliation of one resource stands; `b` is its copy of the resource. */
  datatype Pc =
    | Idle
    | Preparing(b: Bucket)                       // read; cluster and services not looked up yet
    | Finalizing(b: Bucket)                      // about to register the finalizer
    | Probing(b: Bucket, del: bool)              // does the storage exist?
    | ProbingContainer(b: Bucket, del: bool)     // the account exists; does the container?
    | Provisioning(b: Bucket, at: Stage)         // creation or update, then configuration
    | Reporting(b: Bucket)
    | Granting(b: Bucket)
    | Destroying(b: Bucket)
    | DestroyingSecret(b: Bucket)                // the storage account is deleted
    | UnguardingSecret(b: Bucket, held: Secret)  // about to take the finalizer off the secret read
    | DeletingSecret(b: Bucket)                  // the finalizer is off
    | Revoking(b: Bucket)                        // the storage is deleted
    | Releasing(b: Bucket)                       // storage and role are deleted

  /** The next call of creation, update and configuration; on AWS the first and the last three. */
  datatype Stage =
    | AtCreate
    | AtSettings                                 // is the cluster private?
    | AtNameCheck(isPrivate: bool)
    | AtAccount(isPrivate: bool)
    | AtContainerCheck(isPrivate: bool)
    | AtContainer(isPrivate: bool, found: bool)
    | AtEndpoint                                 // this one and the next in private clusters only
    | AtRecords(dns: Dns)
    | AtKeys(isPrivate: bool)
    | AtSecretCheck(isPrivate: bool, accessKeys: seq<Tag>)
    | AtSecret(isPrivate: bool, was: Option<Secret>, data: map<string, string>)
    | AtManagementPolicy(isPrivate: bool)
    | AtLifecycle
    | AtPolicy
    | AtTagging

  const DEFAULT_POLICY := "default"
  const LIFECYCLE_RULE := "ExpirationLogging"
  const KEY1 := "key1"

  /** The addresses of all DNS configurations, in order. */
  function Addresses(dns: Dns): seq<string> {
    if dns == [] then []
    else
      var m := |dns| - 1;
      Addresses(dns[..m]) + if dns[m].Some? then dns[m].value else []
  }

  /** The value of the first access key named "key1". */
  function FirstKey(accessKeys: seq<Tag>): Option<string> {
    if accessKeys == [] then None
    else if accessKeys[0].key == KEY1 then Some(accessKeys[0].value)
    else FirstKey(accessKeys[1..])
  }

  /** What the secret of a storage account holds. */
  function Credentials(account: string, key: string): map<string, string> {
    map["accountName" := account, "accountKey" := key]
  }

  /** The patch that takes the operator's finalizer off a secret. */
  function Unguarded(finalizers: seq<string>): Option<seq<string>> {
    if SECRET_FINALIZER in finalizers then Some(Without(finalizers, SECRET_FINALIZER)) else None
  }

  function SecretKey(k: Key, b: Bucket): Key {
    Key(k.namespace, b.spec.name)
  }

  /** The merge patch that takes the finalizer off the copy `b`. */
  function ReleasePatch(k: Key, b: Bucket): Req {
    Kube(PatchFinalizers(k, if BUCKET_FINALIZER in b.finalizers then Some(Without(b.finalizers, BUCKET_FINALIZER)) else None))
  }

  function StatusPatch(k: Key, b: Bucket): Req {
    var status := Status(true, b.spec.name);
    Kube(PatchStatus(k, if b.status == status then None else Some(status)))
  }

  predicate AwsStage(at: Stage) {
    at.AtCreate? || at.AtLifecycle? || at.AtPolicy? || at.AtTagging?
  }

  /** The call to issue at stage `at`; tags and policy documents are left open. */
  predicate Provides(k: Key, b: Bucket, at: Stage, r: Req) {
    var n, a, days := b.spec.name, AccountName(b.spec.name), b.spec.expiration;
    match at
    case AtCreate => r == OnS3(Create(n))
    case AtSettings => r == GetUserValues
    case AtNameCheck(_) => r == OnAz(CheckName(a))
    case AtAccount(isPrivate) => r.OnAz? && r.az.PutAccount? && r.az.a == a && r.az.publicAccess == !isPrivate
    case AtContainerCheck(_) => r == OnAz(GetContainer(a, n))
    case AtContainer(_, found) =>
      r.OnAz? && (if found then r.az.UpdateContainer? else r.az.CreateContainer?) && r.az.a == a && r.az.n == n
    case AtEndpoint => r.OnAz? && r.az.PutEndpoint? && r.az.a == a && r.az.n == n
    case AtRecords(dns) => r.OnAz? && r.az.PutRecords? && r.az.a == a && r.az.ips == Addresses(dns)
    case AtKeys(_) => r == OnAz(ListKeys(a))
    case AtSecretCheck(_, _) => r == OnSecret(GetSecret(SecretKey(k, b)))
    case AtSecret(_, was, data) =>
      r == OnSecret(if was.Some? then UpdateSecret(SecretKey(k, b), was.value, data) else CreateSecret(SecretKey(k, b), data))
    case AtManagementPolicy(_) =>
      r == OnAz(if days.Some? then PutManagementPolicy(a, DEFAULT_POLICY, days.value) else DeleteManagementPolicy(a, LIFECYCLE_RULE))
    case AtLifecycle => r == OnS3(if days.Some? then PutLifecycle(n, days.value) else DeleteLifecycle(n))
    case AtPolicy => r.OnS3? && r.s3.PutPolicy? && r.s3.n == n
    case AtTagging => r.OnS3? && r.s3.PutTagging? && r.s3.n == n
  }

  predicate Grants(r: IamReq) {
    r.GetRole? || r.CreateRole? || r.UpdateTrust? || r.UntagRole? || r.TagRole? || r.PutRolePolicy?
  }

  predicate Revokes(r: IamReq) {
    r.GetRole? || r.ListAttached? || r.Detach? || r.ListInline? || r.DeleteInline? || r.DropRole? ||
    ((r.RemoveFromProfile? || r.DeleteProfile?) && r.profile == r.r)
  }

  /** The calls a worker of `k` may issue at `pc`. */
  predicate Allowed(p: Provider, k: Key, pc: Pc, r: Req) {
    match pc
    case Idle => r == Kube(GetCr(k))
    case Preparing(b) => r == GetCluster
    case Finalizing(b) => r == Kube(PatchFinalizers(k, Some(b.finalizers + [BUCKET_FINALIZER])))
    case Probing(b, _) =>
      r == if p.Aws? then OnS3(Head(b.spec.name)) else OnAz(CheckName(AccountName(b.spec.name)))
    case ProbingContainer(b, _) => r == OnAz(GetContainer(AccountName(b.spec.name), b.spec.name))
    case Provisioning(b, at) => (p.Aws? <==> AwsStage(at)) && Provides(k, b, at, r)
    case Reporting(b) => r == StatusPatch(k, b)
    case Granting(b) => r.OnIam? && r.iam.r == RoleName(b.spec) && Grants(r.iam)
    case Destroying(b) =>
      if p.Aws? then
        r.OnS3? && r.s3.n == b.spec.name && (r.s3.ListObjects? || r.s3.DeleteObjects? || r.s3.Drop?)
      else r == OnAz(DropAccount(AccountName(b.spec.name)))
    case DestroyingSecret(b) => r == OnSecret(GetSecret(SecretKey(k, b)))
    case UnguardingSecret(b, held) => r == OnSecret(PatchSecret(SecretKey(k, b), Unguarded(held.finalizers)))
    case DeletingSecret(b) => r == OnSecret(DeleteSecret(SecretKey(k, b)))
    case Revoking(b) => r.OnIam? && r.iam.r == RoleName(b.spec) && Revokes(r.iam)
    case Releasing(b) => r == ReleasePatch(k, b)
  }

  /** What follows the existence check. */
  function Probed(p: Provider, b: Bucket, del: bool, found: bool): Pc {
    if !del then Provisioning(b, if p.Azure? then AtSettings else if found then AtLifecycle else AtCreate)
    else if found && b.spec.reclaimPolicy == RECLAIM_DELETE then Destroying(b)
    else Idle
  }

  /** What follows the answer `resp` at stage `at`. */
  function Provided(b: Bucket, at: Stage, resp: Resp): Pc {
    match at
    case AtCreate => if resp == Done then Provisioning(b, AtLifecycle) else Idle
    case AtSettings => if resp.Flag? then Provisioning(b, AtNameCheck(resp.yes)) else Idle
    case AtNameCheck(isPrivate) => if resp.Flag? then Provisioning(b, AtAccount(isPrivate)) else Idle
    case AtAccount(isPrivate) => if resp == Done then Provisioning(b, AtContainerCheck(isPrivate)) else Idle
    case AtContainerCheck(isPrivate) =>
      if resp == Done || resp == Missing then Provisioning(b, AtContainer(isPrivate, resp == Done)) else Idle
    case AtContainer(isPrivate, _) =>
      if resp == Done then Provisioning(b, if isPrivate then AtEndpoint else AtKeys(false)) else Idle
    case AtEndpoint => if resp.GotEndpoint? then Provisioning(b, AtRecords(resp.dns)) else Idle
    case AtRecords(_) => if resp == Done then Provisioning(b, AtKeys(true)) else Idle
    case AtKeys(isPrivate) => if resp.GotKeys? then Provisioning(b, AtSecretCheck(isPrivate, resp.accessKeys)) else Idle
    case AtSecretCheck(isPrivate, accessKeys) =>
      var key := FirstKey(accessKeys);
      if key.None? || !(resp.GotSecret? || resp == Missing) then Idle
      else
        var data := Credentials(AccountName(b.spec.name), key.value);
        if resp == Missing then Provisioning(b, AtSecret(isPrivate, None, data))
        else if resp.secret.data == data then Provisioning(b, AtManagementPolicy(isPrivate))
        else Provisioning(b, AtSecret(isPrivate, Some(resp.secret), data))
    case AtSecret(isPrivate, _, _) => if resp == Done then Provisioning(b, AtManagementPolicy(isPrivate)) else Idle
    case AtManagementPolicy(_) => if resp == Done || (b.spec.expiration.None? && resp == Missing) then Reporting(b) else Idle
    case AtLifecycle => if resp == Done then Provisioning(b, AtPolicy) else Idle
    case AtPolicy => if resp == Done then Provisioning(b, AtTagging) else Idle
    case AtTagging => if resp == Done then Reporting(b) else Idle
  }

  /** What follows the deletion of the storage. */
  function Destroyed(p: Provider, b: Bucket): Pc {
    if p.Aws? && HasRole(b.spec) then Revoking(b) else Releasing(b)
  }

  /** Where a worker goes with answer `resp`; errors end the reconciliation. */
  function Next(p: Provider, pc: Pc, r: Req, resp: Resp): Pc {
    if pc.Revoking? then
      if (resp == Missing && r.OnIam? && r.iam.GetRole?) || (resp == Done && r.OnIam? && r.iam.DropRole?)
      then Releasing(pc.b) else pc
    else if resp.Failed? then Idle
    else
      match pc
      case Idle => if resp.GotBucket? then Preparing(resp.b) else Idle
      case Preparing(b) =>
        if b.deleting then Probing(b, true)
        else if BUCKET_FINALIZER in b.finalizers then Probing(b, false)
        else Finalizing(b)
      case Finalizing(b) => if resp.GotBucket? then Probing(resp.b, false) else Idle
      case Probing(b, del) =>
        if p.Aws? then Probed(p, b, del, resp == Done)
        else if resp == Flag(false) then ProbingContainer(b, del)
        else Probed(p, b, del, false)
      case ProbingContainer(b, del) => Probed(p, b, del, resp == Done)
      case Provisioning(b, at) => Provided(b, at, resp)
      case Reporting(b) => if resp.GotBucket? && p.Aws? && HasRole(resp.b.spec) then Granting(resp.b) else Idle
      case Granting(b) => if r.OnIam? && r.iam.PutRolePolicy? then Idle else pc
      case Destroying(b) =>
        if p.Azure? then (if resp == Done then DestroyingSecret(b) else Idle)
        else if r.OnS3? && r.s3.Drop? then (if resp == Done then Destroyed(p, b) else Idle)
        else if resp == Missing then Idle
        else pc
      case DestroyingSecret(b) => if resp.GotSecret? then UnguardingSecret(b, resp.secret) else Idle
      case UnguardingSecret(b, _) => if resp == Done then DeletingSecret(b) else Idle
      case DeletingSecret(b) => if resp == Done then Destroyed(p, b) else Idle
      case Releasing(b) => Idle
  }

  /** The calls and answers of a stage. */
  lemma StageCalls(p: Provider, k: Key, b: Bucket, at: Stage, r: Req)
    requires p.Aws? <==> AwsStage(at)
    ensures Allowed(p, k, Provisioning(b, at), r) <==> Provides(k, b, at, r)
    ensures forall resp :: Next(p, Provisioning(b, at), r, resp) == if resp.Failed? then Idle else Provided(b, at, resp)
  {
    hide Provides, Provided;
  }

  // -------------------------------------------------------------------- runs

  /** One call and its answer, as an observer between operator and services sees it. */
  datatype Entry = Entry(k: Key, r: Req, resp: Resp)

  datatype Sys = Sys(w: World, pcs: map<Key, Pc>, log: seq<Entry>)

  function PcOf(s: Sys, k: Key): Pc {
    if k in s.pcs then s.pcs[k] else Idle
  }

  ghost predicate CallStep(s: Sys, k: Key, r: Req, resp: Resp, s': Sys) {
    && Allowed(s.w.provider, k, PcOf(s, k), r)
    && Serves(s.w, k, r, resp, s'.w) && s'.w.provider == s.w.provider
    && s'.pcs == s.pcs[k := Next(s.w.provider, PcOf(s, k), r, resp)]
    && s'.log == s.log + [Entry(k, r, resp)]
  }

  /** A reconciliation returns or dies, at any point. */
  predicate EndStep(s: Sys, k: Key, s': Sys) {
    s' == s.(pcs := s.pcs[k := Idle])
  }

  ghost predicate EnvStep(s: Sys, s': Sys) {
    s' == s.(w := s'.w) && UserStep(s.w, s'.w)
  }

  ghost predicate Step(s: Sys, s': Sys) {
    || (exists k, r, resp :: CallStep(s, k, r, resp, s'))
    || (exists k :: EndStep(s, k, s'))
    || EnvStep(s, s')
  }

  /** The operator has not touched anything yet; the clouds and resources are arbitrary. */
  ghost predicate Init(s: Sys) {
    && s.pcs == map[] && s.log == []
    && (forall k, v :: v in FeedOf(s.w.feeds, k) && v.Some? ==> !Live(v) && v.value.status == Status(false, ""))
    && (forall n :: n in s.w.s3 ==> s.w.s3[n].creator.None?)
    && (forall r :: r in s.w.iam.roles ==> s.w.iam.roles[r].creator.None?)
    && (forall a :: a in s.w.az.accounts ==> s.w.az.accounts[a].creator.None?)
    && (forall a, n :: HasContainer(s.w.az, a, n) ==> s.w.az.accounts[a].containers[n].creator.None?)
    && (forall x :: x in s.w.secrets ==> s.w.secrets[x].creator.None?)
  }

  ghost predicate IsRun(run: seq<Sys>) {
    |run| > 0 && forall i :: 0 <= i < |run| - 1 ==> Step(run[i], run[i + 1])
  }
}
