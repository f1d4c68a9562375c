/**
 The services the operator talks to, each as a store, what a request does to the
 store (`...Effect`) and what a fault-free service answers (`...Reply`).

 `Serves` adds the faults: any call may fail before taking effect, or take effect
 and lose its response. `creator` records which Bucket resource's reconciliation
 made a resource; it is `None` for everything the operator found already there.
 */
module Cloud {
  import opened Base

  /** Everything a caller can see of an answer. */
  datatype Resp =
    | Failed(api: bool)              // an error; `api` when the service itself reported it
    | Missing                        // the service's not-found error
    | Done
    | GotBucket(b: Bucket)
    | GotCluster(c: Cluster)
    | Flag(yes: bool)
    | Page(keys: seq<int>, next: Option<int>)  // `next` is the continuation token
    | GotRole(tags: Option<seq<Tag>>)  // `None` is a nil slice
    | Listed(names: seq<string>)
    | GotEndpoint(dns: Dns)
    | GotKeys(accessKeys: seq<Tag>)
    | GotSecret(secret: Secret)

  // ---------------------------------------------------------------- Kubernetes

  /** The stored resource after a write; `None` while there is no such resource. */
  type Version = Option<Bucket>

  /**
   What a cached reader may still be given: the version it read last, followed by
   everything written since. The last entry is what the API server holds now.
   */
  type Feed = f: seq<Version> | |f| > 0 witness [None]

  type Feeds = map<Key, Feed>

  function FeedOf(feeds: Feeds, k: Key): Feed {
    if k in feeds then feeds[k] else [None]
  }

  function Latest(f: Feed): Version {
    f[|f| - 1]
  }

  function Current(feeds: Feeds, k: Key): Version {
    Latest(FeedOf(feeds, k))
  }

  predicate Live(v: Version) {
    v.Some? && BUCKET_FINALIZER in v.value.finalizers
  }

  /** Merge patches; `None` is the empty patch, sent when nothing changed. */
  datatype KubeReq =
    | GetCr(k: Key)
    | PatchFinalizers(k: Key, list: Option<seq<string>>)
    | PatchStatus(k: Key, status: Option<Status>)

  /** The API server drops a deleted resource as soon as it has no finalizer left. */
  function Stored(b: Bucket): Version {
    if b.deleting && b.finalizers == [] then None else Some(b)
  }

  /** What a request writes into the stored resource `b`, if anything. */
  function Patched(b: Bucket, r: KubeReq): Option<Bucket> {
    match r
    case GetCr(_) => None
    case PatchFinalizers(_, list) => if list.Some? then Some(b.(finalizers := list.value)) else None
    case PatchStatus(_, status) => if status.Some? then Some(b.(status := status.value)) else None
  }

  function Written(v: Version, r: KubeReq): Option<Bucket> {
    if v.Some? then Patched(v.value, r) else None
  }

  function KubeEffect(feeds: Feeds, r: KubeReq): Feeds {
    var b := Written(Current(feeds, r.k), r);
    if b.None? then feeds else feeds[r.k := FeedOf(feeds, r.k) + [Stored(b.value)]]
  }

  ghost predicate KubeReplies(feeds: Feeds, r: KubeReq, resp: Resp, feeds': Feeds) {
    match r
    case GetCr(k) => exists j: nat :: ReadsAt(feeds, k, j, resp, feeds')
    case _ =>
      var cur := Current(feeds, r.k);
      feeds' == KubeEffect(feeds, r) &&
      resp == if cur.None? then Missing else GotBucket(if Written(cur, r).Some? then Written(cur, r).value else cur.value)
  }

  /** A cached read answers from the feed and never goes back before what it answered. */
  ghost predicate ReadsAt(feeds: Feeds, k: Key, j: nat, resp: Resp, feeds': Feeds) {
    var f := FeedOf(feeds, k);
    j < |f| && feeds' == feeds[k := f[j..]] && resp == if f[j].None? then Missing else GotBucket(f[j].value)
  }

  ghost predicate KubeServes(feeds: Feeds, r: KubeReq, resp: Resp, feeds': Feeds) {
    KubeReplies(feeds, r, resp, feeds') ||
    (resp.Failed? && (feeds' == feeds || feeds' == KubeEffect(feeds, r)))
  }

  // ------------------------------------------------------------------------ S3

  /** Object keys are numbered in S3's listing order. */
  datatype S3Bucket = S3Bucket(
    objects: set<int>,
    lifecycle: Option<int>,
    policy: Option<string>,
    tags: map<string, string>,
    creator: Option<Key>)

  type S3 = map<string, S3Bucket>

  datatype S3Req =
    | Head(n: string)
    | Create(n: string)
    | PutLifecycle(n: string, days: int)
    | DeleteLifecycle(n: string)
    | PutPolicy(n: string, document: string)
    | PutTagging(n: string, tags: seq<Tag>)
    | ListObjects(n: string, after: Option<int>)
    | DeleteObjects(n: string, keys: seq<int>)
    | Drop(n: string)

  function KeySet(keys: seq<int>): set<int> {
    set k | k in keys
  }

  function S3Effect(x: S3, who: Key, r: S3Req): S3 {
    if r.Create? then
      if r.n in x then x else x[r.n := S3Bucket({}, None, None, map[], Some(who))]
    else if r.n !in x then x
    else
      var b := x[r.n];
      match r
      case PutLifecycle(n, days) => x[n := b.(lifecycle := Some(days))]
      case DeleteLifecycle(n) => x[n := b.(lifecycle := None)]
      case PutPolicy(n, document) => x[n := b.(policy := Some(document))]
      case PutTagging(n, tags) => if DistinctKeys(tags) then x[n := b.(tags := TagMap(tags))] else x
      case DeleteObjects(n, keys) => x[n := b.(objects := b.objects - KeySet(keys))]
      case Drop(n) => if b.objects == {} then x - {n} else x
      case _ => x
  }

  /**
   One page of a listing: the next keys in order, and a token for what comes after
   them when there may be more.
   */
  ghost predicate IsPage(objects: set<int>, after: Option<int>, keys: seq<int>, next: Option<int>) {
    && (forall i, j :: 0 <= i < j < |keys| ==> keys[i] < keys[j])
    && (forall k :: k in keys ==> k in objects && Beyond(after, k))
    && (next.Some? ==> keys != [] && next.value == keys[|keys| - 1])
    && (forall k :: k in objects && Beyond(after, k) && (next.Some? ==> k <= next.value) ==> k in keys)
  }

  predicate Beyond(after: Option<int>, k: int) {
    after.Some? ==> after.value < k
  }

  /**
   Creating a bucket one already owns fails, or in us-east-1 succeeds without
   effect; S3 refuses duplicate tag keys and refuses to drop a bucket with objects.
   */
  ghost predicate S3Reply(x: S3, r: S3Req, resp: Resp) {
    if r.Create? then resp == Done || (r.n in x && resp == Failed(true))
    else if r.n !in x then resp == Missing
    else
      match r
      case PutTagging(n, tags) => resp == if DistinctKeys(tags) then Done else Failed(true)
      case ListObjects(n, after) => resp.Page? && IsPage(x[n].objects, after, resp.keys, resp.next)
      case Drop(n) => resp == if x[n].objects == {} then Done else Failed(true)
      case _ => resp == Done
  }

  /** S3 reports failed deletions one by one, inside a response the caller takes for success. */
  ghost predicate S3PartlyDeletes(x: S3, r: S3Req, x': S3) {
    r.DeleteObjects? && r.n in x && r.n in x' &&
    x' == x[r.n := x[r.n].(objects := x'[r.n].objects)] &&
    x'[r.n].objects <= x[r.n].objects && x[r.n].objects - x'[r.n].objects <= KeySet(r.keys)
  }

  ghost predicate S3Serves(x: S3, who: Key, r: S3Req, resp: Resp, x': S3) {
    (S3Reply(x, r, resp) && x' == S3Effect(x, who, r)) ||
    (resp.Failed? && (x' == x || x' == S3Effect(x, who, r))) ||
    ((resp == Done || resp.Failed?) && S3PartlyDeletes(x, r, x'))
  }

  // ----------------------------------------------------------------------- IAM

  datatype Role = Role(
    trust: string,
    tags: map<string, string>,
    attached: set<string>,
    inline: map<string, string>,
    creator: Option<Key>)

  /** `profiles` maps an instance profile to the roles in it. */
  datatype Iam = Iam(roles: map<string, Role>, profiles: map<string, set<string>>)

  datatype IamReq =
    | GetRole(r: string)
    | CreateRole(r: string, trust: string, tags: seq<Tag>)
    | UpdateTrust(r: string, trust: string)
    | UntagRole(r: string, keys: seq<string>)
    | TagRole(r: string, tags: seq<Tag>)
    | PutRolePolicy(r: string, policy: string, document: string)
    | ListAttached(r: string)
    | Detach(r: string, policy: string)
    | ListInline(r: string)
    | DeleteInline(r: string, policy: string)
    | RemoveFromProfile(r: string, profile: string)
    | DeleteProfile(r: string, profile: string)
    | DropRole(r: string)

  /** IAM refuses to delete a role while anything hangs on it. */
  predicate InUse(x: Iam, r: string) {
    (r in x.roles && (x.roles[r].attached != {} || x.roles[r].inline != map[])) ||
    exists p :: p in x.profiles && r in x.profiles[p]
  }

  function IamEffect(x: Iam, who: Key, req: IamReq): Iam {
    match req
    case GetRole(_) => x
    case ListAttached(_) => x
    case ListInline(_) => x
    case CreateRole(r, trust, tags) =>
      if r in x.roles || !DistinctKeys(tags) then x
      else x.(roles := x.roles[r := Role(trust, TagMap(tags), {}, map[], Some(who))])
    case RemoveFromProfile(r, p) =>
      if p in x.profiles then x.(profiles := x.profiles[p := x.profiles[p] - {r}]) else x
    case DeleteProfile(_, p) =>
      if p in x.profiles && x.profiles[p] == {} then x.(profiles := x.profiles - {p}) else x
    case _ =>
      if req.r !in x.roles then x
      else if req.DropRole? then
        if InUse(x, req.r) then x else x.(roles := x.roles - {req.r})
      else x.(roles := x.roles[req.r := RoleEffect(x.roles[req.r], req)])
  }

  function RoleEffect(role: Role, req: IamReq): Role {
    match req
    case UpdateTrust(_, trust) => role.(trust := trust)
    case UntagRole(_, keys) => role.(tags := role.tags - set k | k in keys)
    case TagRole(_, tags) => if DistinctKeys(tags) then role.(tags := role.tags + TagMap(tags)) else role
    case PutRolePolicy(_, policy, document) => role.(inline := role.inline[policy := document])
    case Detach(_, policy) => role.(attached := role.attached - {policy})
    case DeleteInline(_, policy) => role.(inline := role.inline - {policy})
    case _ => role
  }

  /** `names` lists exactly the members of `s`, once each. */
  ghost predicate Lists(names: seq<string>, s: set<string>) {
    (forall n :: n in names <==> n in s) && forall i, j :: 0 <= i < j < |names| ==> names[i] != names[j]
  }

  ghost predicate IamReply(x: Iam, req: IamReq, resp: Resp) {
    match req
    case CreateRole(r, _, tags) => resp == if r in x.roles || !DistinctKeys(tags) then Failed(true) else Done
    case RemoveFromProfile(r, p) => resp == if p in x.profiles && r in x.profiles[p] then Done else Missing
    case DeleteProfile(_, p) =>
      resp == if p !in x.profiles then Missing else if x.profiles[p] == {} then Done else Failed(true)
    case _ =>
      if req.r !in x.roles then resp == Missing
      else
        var role := x.roles[req.r];
        match req
        case GetRole(_) => resp.GotRole? && TagsOf(resp.tags, role.tags)
        case TagRole(_, tags) => resp == if DistinctKeys(tags) then Done else Failed(true)
        case ListAttached(_) => resp.Listed? && Lists(resp.names, role.attached)
        case ListInline(_) => resp.Listed? && Lists(resp.names, role.inline.Keys)
        case Detach(_, policy) => resp == if policy in role.attached then Done else Missing
        case DeleteInline(_, policy) => resp == if policy in role.inline then Done else Missing
        case DropRole(r) => resp == if InUse(x, r) then Failed(true) else Done
        case _ => resp == Done
  }

  /** A listing of the tags of a role, in whatever order the service chose. */
  ghost predicate TagsOf(listed: Option<seq<Tag>>, tags: map<string, string>) {
    if listed.None? then tags == map[]
    else DistinctKeys(listed.value) && TagMap(listed.value) == tags
  }

  ghost predicate IamServes(x: Iam, who: Key, r: IamReq, resp: Resp, x': Iam) {
    (IamReply(x, r, resp) && x' == IamEffect(x, who, r)) ||
    (resp.Failed? && (x' == x || x' == IamEffect(x, who, r)))
  }

  // --------------------------------------------------------------------- Azure

  /** The DNS configurations of a private endpoint; `None` is a nil address list. */
  type Dns = seq<Option<seq<string>>>

  datatype Container = Container(metadata: map<string, string>, creator: Option<Key>)

  /** `policies` maps the name of a management policy to its expiration in days. */
  datatype Account = Account(
    publicAccess: bool,
    tags: map<string, string>,
    containers: map<string, Container>,
    policies: map<string, int>,
    creator: Option<Key>)

  datatype Endpoint = Endpoint(account: string, tags: map<string, string>)

  datatype RecordSet = RecordSet(ips: seq<string>, metadata: map<string, string>)

  /**
   `taken` are the account names strangers hold; `keys` and `dns` are the access
   keys and addresses Azure assigns to an account and to an endpoint.
   */
  datatype Az = Az(
    accounts: map<string, Account>,
    endpoints: map<string, Endpoint>,
    records: map<string, RecordSet>,
    taken: set<string>,
    keys: map<string, seq<Tag>>,
    dns: map<string, Dns>)

  datatype AzReq =
    | CheckName(a: string)
    | PutAccount(a: string, publicAccess: bool, tags: map<string, string>)
    | GetContainer(a: string, n: string)
    | CreateContainer(a: string, n: string, metadata: map<string, string>)
    | UpdateContainer(a: string, n: string, metadata: map<string, string>)
    | PutEndpoint(a: string, n: string, tags: map<string, string>)
    | PutRecords(a: string, ips: seq<string>, metadata: map<string, string>)
    | ListKeys(a: string)
    | PutManagementPolicy(a: string, policy: string, days: int)
    | DeleteManagementPolicy(a: string, policy: string)
    | DropAccount(a: string)

  function DnsOf(x: Az, n: string): Dns {
    if n in x.dns then x.dns[n] else []
  }

  function KeysOf(x: Az, a: string): seq<Tag> {
    if a in x.keys then x.keys[a] else []
  }

  function AzEffect(x: Az, who: Key, r: AzReq): Az {
    match r
    case CheckName(_) => x
    case GetContainer(_, _) => x
    case ListKeys(_) => x
    case PutAccount(a, public, tags) =>
      if a in x.taken then x
      else if a in x.accounts then
        x.(accounts := x.accounts[a := x.accounts[a].(publicAccess := public, tags := tags)])
      else x.(accounts := x.accounts[a := Account(public, tags, map[], map[], Some(who))])
    case PutEndpoint(a, n, tags) => x.(endpoints := x.endpoints[n := Endpoint(a, tags)])
    case PutRecords(a, ips, metadata) => x.(records := x.records[a := RecordSet(ips, metadata)])
    case DropAccount(a) => x.(accounts := x.accounts - {a})
    case _ =>
      if r.a in x.accounts then x.(accounts := x.accounts[r.a := AccountEffect(x.accounts[r.a], who, r)]) else x
  }

  function AccountEffect(account: Account, who: Key, r: AzReq): Account {
    match r
    case CreateContainer(_, n, metadata) =>
      var creator := if n in account.containers then account.containers[n].creator else Some(who);
      account.(containers := account.containers[n := Container(metadata, creator)])
    case UpdateContainer(_, n, metadata) =>
      if n in account.containers then
        account.(containers := account.containers[n := account.containers[n].(metadata := metadata)])
      else account
    case PutManagementPolicy(_, policy, days) => account.(policies := account.policies[policy := days])
    case DeleteManagementPolicy(_, policy) => account.(policies := account.policies - {policy})
    case _ => account
  }

  ghost predicate AzReply(x: Az, r: AzReq, resp: Resp) {
    match r
    case CheckName(a) => resp == Flag(a !in x.accounts && a !in x.taken)
    case PutAccount(a, _, _) => resp == if a in x.taken then Failed(true) else Done
    case PutEndpoint(_, n, _) => resp == GotEndpoint(DnsOf(x, n))
    case PutRecords(_, _, _) => resp == Done
    case DropAccount(a) => resp == Done
    case _ =>
      if r.a !in x.accounts then resp == Missing
      else
        var account := x.accounts[r.a];
        match r
        case GetContainer(_, n) => resp == if n in account.containers then Done else Missing
        case UpdateContainer(_, n, _) => resp == if n in account.containers then Done else Missing
        case DeleteManagementPolicy(_, policy) => resp == if policy in account.policies then Done else Missing
        case ListKeys(a) => resp == GotKeys(KeysOf(x, a))
        case _ => resp == Done
  }

  ghost predicate AzServes(x: Az, who: Key, r: AzReq, resp: Resp, x': Az) {
    (AzReply(x, r, resp) && x' == AzEffect(x, who, r)) ||
    (resp.Failed? && (x' == x || x' == AzEffect(x, who, r)))
  }

  /** Nothing differs but the account `a` with its records, and the endpoint `n`. */
  predicate Local(x: Az, x': Az, a: string, n: string) {
    && x'.accounts - {a} == x.accounts - {a}
    && x'.records - {a} == x.records - {a}
    && x'.endpoints - {n} == x.endpoints - {n}
    && x'.keys == x.keys && x'.dns == x.dns && x'.taken == x.taken
  }

  lemma LocalTwice(x: Az, y: Az, z: Az, a: string, n: string)
    requires Local(x, y, a, n) && Local(y, z, a, n)
    ensures Local(x, z, a, n)
  {
  }

  lemma LocalItself(x: Az, a: string, n: string)
    ensures Local(x, x, a, n)
  {
  }

  lemma EffectIsLocal(x: Az, k: Key, q: AzReq, n: string)
    requires q.PutEndpoint? ==> q.n == n
    ensures Local(x, x, q.a, n) && Local(x, AzEffect(x, k, q), q.a, n)
  {
    hide AccountEffect;
  }

  // -------------------------------------------------------------------- secrets

  datatype Secret = Secret(
    data: map<string, string>,
    finalizers: seq<string>,
    deleting: bool,
    creator: Option<Key>)

  type Secrets = map<Key, Secret>

  /** An update carries the version it was computed from; the empty patch is `None`. */
  datatype SecretReq =
    | GetSecret(s: Key)
    | CreateSecret(s: Key, data: map<string, string>)
    | UpdateSecret(s: Key, was: Secret, data: map<string, string>)
    | PatchSecret(s: Key, list: Option<seq<string>>)
    | DeleteSecret(s: Key)

  function SecretEffect(x: Secrets, who: Key, r: SecretReq): Secrets {
    if r.CreateSecret? then
      if r.s in x then x else x[r.s := Secret(r.data, [SECRET_FINALIZER], false, Some(who))]
    else if r.s !in x then x
    else
      var held := x[r.s];
      match r
      case UpdateSecret(s, was, data) => if held == was then x[s := held.(data := data)] else x
      case PatchSecret(s, list) =>
        if list.None? then x
        else if held.deleting && list.value == [] then x - {s}
        else x[s := held.(finalizers := list.value)]
      case DeleteSecret(s) => if held.finalizers == [] then x - {s} else x[s := held.(deleting := true)]
      case _ => x
  }

  ghost predicate SecretReply(x: Secrets, r: SecretReq, resp: Resp) {
    if r.CreateSecret? then resp == if r.s in x then Failed(true) else Done
    else if r.s !in x then resp == Missing
    else
      match r
      case GetSecret(s) => resp == GotSecret(x[s])
      case UpdateSecret(s, was, _) => resp == if x[s] == was then Done else Failed(true)
      case _ => resp == Done
  }

  ghost predicate SecretServes(x: Secrets, who: Key, r: SecretReq, resp: Resp, x': Secrets) {
    (SecretReply(x, r, resp) && x' == SecretEffect(x, who, r)) ||
    (resp.Failed? && (x' == x || x' == SecretEffect(x, who, r)))
  }

  // --------------------------------------------------------------- the world

  datatype Provider = Aws | Azure

  /** `isPrivate` is what the management cluster's user values say about its network. */
  datatype World = World(
    provider: Provider,
    cluster: Cluster,
    isPrivate: bool,
    feeds: Feeds,
    s3: S3,
    iam: Iam,
    az: Az,
    secrets: Secrets)

  datatype Req =
    | Kube(kube: KubeReq)
    | OnS3(s3: S3Req)
    | OnIam(iam: IamReq)
    | OnAz(az: AzReq)
    | OnSecret(secret: SecretReq)
    | GetCluster
    | GetUserValues

  /** A fault-free answer to request `r` of the reconciliation of `who`. */
  ghost predicate Replies(w: World, who: Key, r: Req, resp: Resp, w': World) {
    match r
    case Kube(q) => w' == w.(feeds := w'.feeds) && KubeReplies(w.feeds, q, resp, w'.feeds)
    case OnS3(q) => w' == w.(s3 := S3Effect(w.s3, who, q)) && S3Reply(w.s3, q, resp)
    case OnIam(q) => w' == w.(iam := IamEffect(w.iam, who, q)) && IamReply(w.iam, q, resp)
    case OnAz(q) => w' == w.(az := AzEffect(w.az, who, q)) && AzReply(w.az, q, resp)
    case OnSecret(q) => w' == w.(secrets := SecretEffect(w.secrets, who, q)) && SecretReply(w.secrets, q, resp)
    case GetCluster => w' == w && resp == GotCluster(w.cluster)
    case GetUserValues => w' == w && resp == Flag(w.isPrivate)
  }

  /** Any answer, faults included. */
  ghost predicate Serves(w: World, who: Key, r: Req, resp: Resp, w': World) {
    match r
    case Kube(q) => w' == w.(feeds := w'.feeds) && KubeServes(w.feeds, q, resp, w'.feeds)
    case OnS3(q) => w' == w.(s3 := w'.s3) && S3Serves(w.s3, who, q, resp, w'.s3)
    case OnIam(q) => w' == w.(iam := w'.iam) && IamServes(w.iam, who, q, resp, w'.iam)
    case OnAz(q) => w' == w.(az := w'.az) && AzServes(w.az, who, q, resp, w'.az)
    case OnSecret(q) => w' == w.(secrets := w'.secrets) && SecretServes(w.secrets, who, q, resp, w'.secrets)
    case GetCluster => w' == w && (resp == GotCluster(w.cluster) || resp.Failed?)
    case GetUserValues => w' == w && (resp == Flag(w.isPrivate) || resp.Failed?)
  }

  // ------------------------------------------------------ everybody else's steps

  /**
   What users and other controllers may write to a Bucket resource: they neither
   set nor strip the operator's finalizer, do not rename the bucket or its role,
   cannot write the status or take a deletion back, and deleting a resource that
   carries the finalizer only marks it.
   */
  ghost predicate UserWrite(v: Version, v': Version) {
    match (v, v')
    case (None, None) => true
    case (None, Some(b')) => !Live(v') && !b'.deleting && b'.status == Status(false, "")
    case (Some(_), None) => !Live(v)
    case (Some(b), Some(b')) =>
      (Live(v) <==> Live(v')) && SameIdentity(b.spec, b'.spec) && (b.deleting ==> b'.deleting) && b'.status == b.status
  }

  ghost predicate UserFeed(f: Feed, f': Feed) {
    f' == f || (|f'| == |f| + 1 && f'[..|f|] == f && UserWrite(Latest(f), Latest(f')))
  }

  /** Others may do anything to cloud resources except create one in the operator's name. */
  ghost predicate UserS3(x: S3, x': S3) {
    forall n :: n in x' && x'[n].creator.Some? ==> n in x && x[n].creator == x'[n].creator
  }

  ghost predicate UserIam(x: Iam, x': Iam) {
    forall r :: r in x'.roles && x'.roles[r].creator.Some? ==>
      r in x.roles && x.roles[r].creator == x'.roles[r].creator
  }

  ghost predicate UserAz(x: Az, x': Az) {
    && (forall a :: a in x'.accounts && x'.accounts[a].creator.Some? ==>
          a in x.accounts && x.accounts[a].creator == x'.accounts[a].creator)
    && (forall a, n :: HasContainer(x', a, n) && x'.accounts[a].containers[n].creator.Some? ==>
          HasContainer(x, a, n) && x.accounts[a].containers[n].creator == x'.accounts[a].containers[n].creator)
  }

  /** A secret with the operator's finalizer stays, and users neither set that finalizer nor strip it. */
  ghost predicate UserSecrets(x: Secrets, x': Secrets) {
    && (forall s :: s in x' && x'[s].creator.Some? ==>
          s in x && x[s].creator == x'[s].creator && (x[s].deleting ==> x'[s].deleting) &&
          (SECRET_FINALIZER in x'[s].finalizers ==> SECRET_FINALIZER in x[s].finalizers))
    && (forall s :: s in x && SECRET_FINALIZER in x[s].finalizers ==>
          s in x' && SECRET_FINALIZER in x'[s].finalizers && x'[s].creator == x[s].creator)
  }

  predicate HasContainer(x: Az, a: string, n: string) {
    a in x.accounts && n in x.accounts[a].containers
  }

  ghost predicate UserStep(w: World, w': World) {
    && w'.provider == w.provider
    && (forall k :: UserFeed(FeedOf(w.feeds, k), FeedOf(w'.feeds, k)))
    && UserS3(w.s3, w'.s3)
    && UserIam(w.iam, w'.iam)
    && UserAz(w.az, w'.az)
    && UserSecrets(w.secrets, w'.secrets)
  }
}
