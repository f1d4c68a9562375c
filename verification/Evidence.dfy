/**
 What the call history of a run proves about the calls in it: deletions are
 authorised, the finalizer goes last, the secret goes after the account, and a
 ready status was earned.
 */
module Evidence {
  import opened Base
  import opened Cloud
  import opened Names
  import opened Protocol
  import opened NoOrphans

  /** The calls of `k`'s reconciliation under way, from the read it started with. */
  function Trail(log: seq<Entry>, k: Key): seq<Entry> {
    if log == [] then []
    else
      var last := log[|log| - 1];
      if last.k != k then Trail(log[..|log| - 1], k)
      else if last.r == Kube(GetCr(k)) then [last]
      else Trail(log[..|log| - 1], k) + [last]
  }

  lemma TrailGrows(log: seq<Entry>, e: Entry, k: Key)
    ensures Trail(log + [e], k) ==
            if e.k != k then Trail(log, k) else if e.r == Kube(GetCr(k)) then [e] else Trail(log, k) + [e]
  {
    assert (log + [e])[..|log|] == log;
  }

  /** This reconciliation read `b`. */
  predicate ReadIt(k: Key, b: Bucket, trail: seq<Entry>) {
    |trail| > 0 && trail[0] == Entry(k, Kube(GetCr(k)), GotBucket(b))
  }

  /** The answer that the storage of `b` exists. */
  function ExistsEntry(p: Provider, k: Key, b: Bucket): Entry {
    if p.Aws? then Entry(k, OnS3(Head(b.spec.name)), Done)
    else Entry(k, OnAz(GetContainer(AccountName(b.spec.name), b.spec.name)), Done)
  }

  /**
   The reconciliation read `b` marked for deletion with reclaim policy "Delete" and
   was told, without error, that its storage exists.
   */
  predicate Confirmed(p: Provider, k: Key, b: Bucket, trail: seq<Entry>) {
    ReadIt(k, b, trail) && b.deleting && b.spec.reclaimPolicy == "Delete" && ExistsEntry(p, k, b) in trail
  }

  predicate AccountDropped(p: Provider, k: Key, b: Bucket, trail: seq<Entry>) {
    Confirmed(p, k, b, trail) && Entry(k, OnAz(DropAccount(AccountName(b.spec.name))), Done) in trail
  }

  predicate AllStorageDropped(p: Provider, k: Key, b: Bucket, trail: seq<Entry>) {
    Confirmed(p, k, b, trail) &&
    if p.Aws? then Entry(k, OnS3(Drop(b.spec.name)), Done) in trail
    else AccountDropped(p, k, b, trail) && Entry(k, OnSecret(DeleteSecret(SecretKey(k, b))), Done) in trail
  }

  predicate AllDropped(p: Provider, k: Key, b: Bucket, trail: seq<Entry>) {
    AllStorageDropped(p, k, b, trail) &&
    (p.Aws? && HasRole(b.spec) ==>
       Entry(k, OnIam(GetRole(RoleName(b.spec))), Missing) in trail ||
       Entry(k, OnIam(DropRole(RoleName(b.spec))), Done) in trail)
  }

  /** The successes that make up creation or update, and then configuration. */
  datatype Milestone =
    | Present
    | LifecycleSet
    | PolicySet
    | TagsSet
    | SettingsRead(isPrivate: bool)
    | AccountUp(isPrivate: bool)
    | ContainerUp
    | EndpointUp(dns: Dns)
    | RecordsUp(dns: Dns)
    | KeysListed(accessKeys: seq<Tag>)
    | SecretUp(accessKeys: seq<Tag>)
    | ManagementPolicySet

  /** The answer `e` is this success for the copy `b`. */
  predicate Achieves(k: Key, b: Bucket, m: Milestone, e: Entry) {
    var n, a, days, x := b.spec.name, AccountName(b.spec.name), b.spec.expiration, SecretKey(k, b);
    match m
    case Present => (e.r == OnS3(Head(n)) || e.r == OnS3(Create(n))) && e.resp == Done
    case LifecycleSet => e.r == OnS3(if days.Some? then PutLifecycle(n, days.value) else DeleteLifecycle(n)) && e.resp == Done
    case PolicySet => e.r.OnS3? && e.r.s3.PutPolicy? && e.r.s3.n == n && e.resp == Done
    case TagsSet => e.r.OnS3? && e.r.s3.PutTagging? && e.r.s3.n == n && e.resp == Done
    case SettingsRead(isPrivate) => e.r == GetUserValues && e.resp == Flag(isPrivate)
    case AccountUp(isPrivate) =>
      e.r.OnAz? && e.r.az.PutAccount? && e.r.az.a == a && e.r.az.publicAccess == !isPrivate && e.resp == Done
    case ContainerUp =>
      e.r.OnAz? && (e.r.az.CreateContainer? || e.r.az.UpdateContainer?) && e.r.az.a == a && e.r.az.n == n && e.resp == Done
    case EndpointUp(dns) => e.r.OnAz? && e.r.az.PutEndpoint? && e.r.az.a == a && e.r.az.n == n && e.resp == GotEndpoint(dns)
    case RecordsUp(dns) => e.r.OnAz? && e.r.az.PutRecords? && e.r.az.a == a && e.r.az.ips == Addresses(dns) && e.resp == Done
    case KeysListed(accessKeys) => e.r == OnAz(ListKeys(a)) && e.resp == GotKeys(accessKeys)
    case SecretUp(accessKeys) =>
      && FirstKey(accessKeys).Some?
      && var data := Credentials(a, FirstKey(accessKeys).value);
      && e.r.OnSecret? && e.r.secret.s == x
      && (|| ((e.r.secret.CreateSecret? || e.r.secret.UpdateSecret?) && e.r.secret.data == data && e.resp == Done)
          || (e.r.secret.GetSecret? && e.resp.GotSecret? && e.resp.secret.data == data))
    case ManagementPolicySet =>
      if days.Some? then e.r == OnAz(PutManagementPolicy(a, DEFAULT_POLICY, days.value)) && e.resp == Done
      else e.r == OnAz(DeleteManagementPolicy(a, LIFECYCLE_RULE)) && (e.resp == Done || e.resp == Missing)
  }

  /** The trail shows these successes, one after the other. */
  predicate Reached(k: Key, b: Bucket, ms: seq<Milestone>, trail: seq<Entry>)
    decreases |ms|
  {
    ms == [] ||
    exists i :: 0 <= i < |trail| && ReachedAt(k, b, ms, trail, i)
  }

  predicate ReachedAt(k: Key, b: Bucket, ms: seq<Milestone>, trail: seq<Entry>, i: nat)
    requires ms != [] && i < |trail|
    decreases |ms|, 0
  {
    Achieves(k, b, ms[|ms| - 1], trail[i]) && Reached(k, b, ms[..|ms| - 1], trail[..i])
  }

  /** The account with its container and, in a private cluster, endpoint and records. */
  function StorageUp(isPrivate: bool, dns: Dns): seq<Milestone> {
    [SettingsRead(isPrivate), AccountUp(isPrivate), ContainerUp] + if isPrivate then [EndpointUp(dns), RecordsUp(dns)] else []
  }

  /** Everything creation or update and then configuration consist of, in order. */
  function Everything(p: Provider, isPrivate: bool, dns: Dns, accessKeys: seq<Tag>): seq<Milestone> {
    if p.Aws? then [Present, LifecycleSet, PolicySet, TagsSet]
    else StorageUp(isPrivate, dns) + [KeysListed(accessKeys)] + [SecretUp(accessKeys)] + [ManagementPolicySet]
  }

  /** The part of it that lies before stage `at`. */
  function Before(at: Stage, dns: Dns, accessKeys: seq<Tag>): seq<Milestone> {
    match at
    case AtCreate => []
    case AtSettings => []
    case AtNameCheck(isPrivate) => [SettingsRead(isPrivate)]
    case AtAccount(isPrivate) => [SettingsRead(isPrivate)]
    case AtContainerCheck(isPrivate) => [SettingsRead(isPrivate), AccountUp(isPrivate)]
    case AtContainer(isPrivate, _) => [SettingsRead(isPrivate), AccountUp(isPrivate)]
    case AtEndpoint => [SettingsRead(true), AccountUp(true), ContainerUp]
    case AtRecords(_) => [SettingsRead(true), AccountUp(true), ContainerUp, EndpointUp(dns)]
    case AtKeys(isPrivate) => StorageUp(isPrivate, dns)
    case AtSecretCheck(isPrivate, _) => StorageUp(isPrivate, dns) + [KeysListed(accessKeys)]
    case AtSecret(isPrivate, _, _) => StorageUp(isPrivate, dns) + [KeysListed(accessKeys)]
    case AtManagementPolicy(isPrivate) => StorageUp(isPrivate, dns) + [KeysListed(accessKeys)] + [SecretUp(accessKeys)]
    case AtLifecycle => [Present]
    case AtPolicy => [Present, LifecycleSet]
    case AtTagging => [Present, LifecycleSet, PolicySet]
  }

  /** What the stage remembers of the answers. */
  predicate Remembers(b: Bucket, at: Stage, dns: Dns, accessKeys: seq<Tag>) {
    && (at.AtRecords? ==> at.dns == dns)
    && (at.AtSecretCheck? ==> at.accessKeys == accessKeys)
    && (at.AtSecret? ==>
          FirstKey(accessKeys).Some? && at.data == Credentials(AccountName(b.spec.name), FirstKey(accessKeys).value))
  }

  ghost predicate StageReached(k: Key, b: Bucket, at: Stage, trail: seq<Entry>) {
    exists dns, accessKeys :: Remembers(b, at, dns, accessKeys) && Reached(k, b, Before(at, dns, accessKeys), trail)
  }

  /** This reconciliation was given the copy `b`, by its read or by a patch. */
  predicate Obtained(b: Bucket, trail: seq<Entry>) {
    exists i :: 0 <= i < |trail| && trail[i].r.Kube? && trail[i].resp == GotBucket(b)
  }

  /** Creation or update of the storage of `b`, and then its configuration, succeeded call by call. */
  ghost predicate Built(p: Provider, k: Key, b: Bucket, trail: seq<Entry>) {
    Obtained(b, trail) &&
    exists isPrivate, dns, accessKeys :: Reached(k, b, Everything(p, isPrivate, dns, accessKeys), trail)
  }

  /** A status patch for `n` that came after all of this succeeded for a copy named `n`. */
  ghost predicate EarnedAt(p: Provider, log: seq<Entry>, k: Key, n: string, m: nat) {
    m < |log| && log[m].k == k && log[m].r == Kube(PatchStatus(k, Some(Status(true, n)))) &&
    exists b: Bucket :: b.spec.name == n && Built(p, k, b, Trail(log[..m], k))
  }

  ghost predicate Earned(p: Provider, log: seq<Entry>, k: Key, n: string) {
    exists m: nat :: EarnedAt(p, log, k, n, m)
  }

  predicate Destructive(r: Req) {
    match r
    case OnS3(q) => q.DeleteObjects? || q.Drop?
    case OnIam(q) =>
      q.Detach? || q.DeleteInline? || q.RemoveFromProfile? || q.DeleteProfile? || q.DropRole?
    case OnAz(q) => q.DropAccount?
    case OnSecret(q) => q.PatchSecret? || q.DeleteSecret?
    case _ => false
  }

  /** `r` deletes something named after `b`. */
  predicate Targets(k: Key, b: Bucket, r: Req) {
    match r
    case OnS3(q) => q.n == b.spec.name
    case OnIam(q) => q.r == RoleName(b.spec) && (q.RemoveFromProfile? || q.DeleteProfile? ==> q.profile == q.r)
    case OnAz(q) => q.a == AccountName(b.spec.name)
    case OnSecret(q) => q.s == SecretKey(k, b)
    case _ => false
  }

  ghost predicate Authorised(p: Provider, log: seq<Entry>, i: nat)
    requires i < |log|
  {
    exists b :: Targets(log[i].k, b, log[i].r) && Confirmed(p, log[i].k, b, Trail(log[..i], log[i].k))
  }

  // ------------------------------------------------------------- the invariant

  ghost predicate TrailOk(p: Provider, k: Key, pc: Pc, trail: seq<Entry>) {
    match pc
    case Preparing(b) => ReadIt(k, b, trail)
    case Finalizing(b) => ReadIt(k, b, trail)
    case Probing(b, del) => if del then ReadIt(k, b, trail) && b.deleting else Obtained(b, trail)
    case ProbingContainer(b, del) => p.Azure? && if del then ReadIt(k, b, trail) && b.deleting else Obtained(b, trail)
    case Provisioning(b, at) => Obtained(b, trail) && StageReached(k, b, at, trail)
    case Reporting(b) => Built(p, k, b, trail)
    case Destroying(b) => Confirmed(p, k, b, trail)
    case DestroyingSecret(b) => p.Azure? && AccountDropped(p, k, b, trail)
    case UnguardingSecret(b, _) => p.Azure? && AccountDropped(p, k, b, trail)
    case DeletingSecret(b) => p.Azure? && AccountDropped(p, k, b, trail)
    case Revoking(b) => AllStorageDropped(p, k, b, trail)
    case Releasing(b) => AllDropped(p, k, b, trail)
    case _ => true
  }

  /** What was reached stays reached, and the next success is reached with its answer. */
  lemma {:induction false} ReachedGrows(k: Key, b: Bucket, ms: seq<Milestone>, trail: seq<Entry>, e: Entry)
    requires Reached(k, b, ms, trail)
    ensures Reached(k, b, ms, trail + [e])
    ensures forall m :: Achieves(k, b, m, e) ==> Reached(k, b, ms + [m], trail + [e])
  {
    hide Achieves;
    var t := trail + [e];
    if ms != [] {
      var i :| 0 <= i < |trail| && ReachedAt(k, b, ms, trail, i);
      assert t[i] == trail[i] && t[..i] == trail[..i];
      assert ReachedAt(k, b, ms, t, i);
    }
    forall m | Achieves(k, b, m, e)
      ensures Reached(k, b, ms + [m], t)
    {
      var ms' := ms + [m];
      assert ms'[..|ms'| - 1] == ms && t[..|trail|] == trail && t[|trail|] == e;
      assert ReachedAt(k, b, ms', t, |trail|);
    }
  }

  /** Positions in the trail at which the successes are found, each after the one before. */
  predicate InOrder(k: Key, b: Bucket, ms: seq<Milestone>, trail: seq<Entry>, at: seq<nat>) {
    && |at| == |ms|
    && (forall i, j :: 0 <= i < j < |at| ==> at[i] < at[j])
    && (forall i :: 0 <= i < |at| ==> at[i] < |trail| && Achieves(k, b, ms[i], trail[at[i]]))
  }

  lemma {:induction false} ReachedInOrder(k: Key, b: Bucket, ms: seq<Milestone>, trail: seq<Entry>) returns (at: seq<nat>)
    requires Reached(k, b, ms, trail)
    ensures InOrder(k, b, ms, trail, at)
    decreases |ms|
  {
    hide Achieves;
    at := [];
    if ms != [] {
      var m := |ms| - 1;
      var i :| 0 <= i < |trail| && ReachedAt(k, b, ms, trail, i);
      at := ReachedInOrder(k, b, ms[..m], trail[..i]);
      assert forall j :: 0 <= j < m ==> trail[..i][at[j]] == trail[at[j]] && ms[..m][j] == ms[j];
      at := at + [i];
    }
  }

  lemma {:induction false} InOrderReached(k: Key, b: Bucket, ms: seq<Milestone>, trail: seq<Entry>, at: seq<nat>)
    requires InOrder(k, b, ms, trail, at)
    ensures Reached(k, b, ms, trail)
    decreases |ms|
  {
    hide Achieves;
    if ms != [] {
      var m := |ms| - 1;
      var i := at[m];
      assert forall j :: 0 <= j < m ==> trail[..i][at[j]] == trail[at[j]] && ms[..m][j] == ms[j];
      InOrderReached(k, b, ms[..m], trail[..i], at[..m]);
      assert ReachedAt(k, b, ms, trail, i);
    }
  }

  /** Creation or update and then configuration mean exactly that all their successes are found one after the other. */
  lemma BuiltInOrder(p: Provider, k: Key, b: Bucket, trail: seq<Entry>)
    ensures Built(p, k, b, trail) <==>
            Obtained(b, trail) &&
            exists isPrivate, dns, accessKeys, at :: InOrder(k, b, Everything(p, isPrivate, dns, accessKeys), trail, at)
  {
    hide Everything, Obtained, InOrder, Reached;
    if isPrivate, dns, accessKeys, at :| InOrder(k, b, Everything(p, isPrivate, dns, accessKeys), trail, at) {
      InOrderReached(k, b, Everything(p, isPrivate, dns, accessKeys), trail, at);
    }
    if isPrivate, dns, accessKeys :| Reached(k, b, Everything(p, isPrivate, dns, accessKeys), trail) {
      var at := ReachedInOrder(k, b, Everything(p, isPrivate, dns, accessKeys), trail);
    }
  }

  lemma ObtainedGrows(b: Bucket, trail: seq<Entry>, e: Entry)
    ensures Obtained(b, trail) ==> Obtained(b, trail + [e])
    ensures e.r.Kube? && e.resp == GotBucket(b) ==> Obtained(b, trail + [e])
  {
    var t := trail + [e];
    assert t[|trail|] == e;
    if i :| 0 <= i < |trail| && trail[i].r.Kube? && trail[i].resp == GotBucket(b) {
      assert t[i] == trail[i];
    }
  }

  lemma StageRemembers(p: Provider, b: Bucket, at: Stage, resp: Resp, dns: Dns, accessKeys: seq<Tag>)
    requires Remembers(b, at, dns, accessKeys) && Provided(b, at, resp).Provisioning?
    requires at.AtEndpoint? ==> resp == GotEndpoint(dns)
    requires at.AtKeys? ==> resp == GotKeys(accessKeys)
    requires p.Aws? <==> AwsStage(at)
    ensures var at' := Provided(b, at, resp).at;
            Remembers(b, at', dns, accessKeys) && (p.Aws? <==> AwsStage(at'))
  {
    hide AccountName, FirstKey, Credentials;
  }

  /** What comes next: the same successes, or one more, which the accepted answer is. */
  lemma StageAchieves(k: Key, b: Bucket, at: Stage, r: Req, resp: Resp, dns: Dns, accessKeys: seq<Tag>)
    requires Remembers(b, at, dns, accessKeys) && Provides(k, b, at, r) && Provided(b, at, resp).Provisioning?
    requires at.AtEndpoint? ==> resp == GotEndpoint(dns)
    requires at.AtKeys? ==> resp == GotKeys(accessKeys)
    ensures var pc := Provided(b, at, resp);
            pc.b == b && Follows(k, b, Before(at, dns, accessKeys), Before(pc.at, dns, accessKeys), Entry(k, r, resp))
  {
    if at.AtSecretCheck? || at.AtSecret? {
      hide Addresses, AccountName, FirstKey, Credentials, StorageUp;
    } else {
      hide Provides, Provided, Before;
      EarlierAchieves(k, b, at, r, resp, dns, accessKeys);
    }
  }

  lemma EarlierAchieves(k: Key, b: Bucket, at: Stage, r: Req, resp: Resp, dns: Dns, accessKeys: seq<Tag>)
    requires Remembers(b, at, dns, accessKeys) && Provides(k, b, at, r) && Provided(b, at, resp).Provisioning?
    requires !at.AtSecretCheck? && !at.AtSecret?
    requires at.AtEndpoint? ==> resp == GotEndpoint(dns)
    requires at.AtKeys? ==> resp == GotKeys(accessKeys)
    ensures var pc := Provided(b, at, resp);
            pc.b == b && Follows(k, b, Before(at, dns, accessKeys), Before(pc.at, dns, accessKeys), Entry(k, r, resp))
  {
    hide AccountName, Addresses, FirstKey, Credentials;
  }

  /** And at the last stage everything is there. */
  lemma LastAchieves(p: Provider, k: Key, b: Bucket, at: Stage, r: Req, resp: Resp, dns: Dns, accessKeys: seq<Tag>) returns (isPrivate: bool)
    requires Provides(k, b, at, r) && Provided(b, at, resp).Reporting? && (p.Aws? <==> AwsStage(at))
    ensures Provided(b, at, resp).b == b
    ensures Follows(k, b, Before(at, dns, accessKeys), Everything(p, isPrivate, dns, accessKeys), Entry(k, r, resp))
  {
    hide AccountName, Addresses, FirstKey, Credentials, DEFAULT_POLICY, LIFECYCLE_RULE;
    isPrivate := at.AtManagementPolicy? && at.isPrivate;
    assert at.AtTagging? ==> Everything(p, isPrivate, dns, accessKeys) == Before(at, dns, accessKeys) + [TagsSet];
  }

  /** The milestones `ms'` are `ms`, or `ms` and the one that `e` achieves. */
  predicate Follows(k: Key, b: Bucket, ms: seq<Milestone>, ms': seq<Milestone>, e: Entry) {
    ms' == ms || (|ms'| == |ms| + 1 && ms' == ms + [ms'[|ms|]] && Achieves(k, b, ms'[|ms|], e))
  }

  lemma ReachedFollows(k: Key, b: Bucket, ms: seq<Milestone>, ms': seq<Milestone>, trail: seq<Entry>, e: Entry)
    requires Reached(k, b, ms, trail) && Follows(k, b, ms, ms', e)
    ensures Reached(k, b, ms', trail + [e])
  {
    hide Achieves, Reached;
    ReachedGrows(k, b, ms, trail, e);
  }

  /** Every accepted answer leads to a stage whose milestones the trail then shows. */
  lemma StageAdvances(p: Provider, k: Key, b: Bucket, at: Stage, r: Req, resp: Resp, trail: seq<Entry>)
    requires StageReached(k, b, at, trail) && Obtained(b, trail)
    requires Allowed(p, k, Provisioning(b, at), r)
    ensures TrailOk(p, k, Next(p, Provisioning(b, at), r, resp), trail + [Entry(k, r, resp)])
  {
    hide Reached, Obtained, Remembers, Before, Follows, Everything, Provides;
    var e, pc := Entry(k, r, resp), Provided(b, at, resp);
    if !resp.Failed? && !pc.Idle? {
      ObtainedGrows(b, trail, e);
      var dns0, keys0 :| Remembers(b, at, dns0, keys0) && Reached(k, b, Before(at, dns0, keys0), trail);
      var dns := if at.AtEndpoint? then resp.dns else dns0;
      var accessKeys := if at.AtKeys? then resp.accessKeys else keys0;
      ForgetsNothing(b, at, dns0, keys0, dns, accessKeys);
      if pc.Provisioning? {
        StageRemembers(p, b, at, resp, dns, accessKeys);
        StageAchieves(k, b, at, r, resp, dns, accessKeys);
        ReachedFollows(k, b, Before(at, dns, accessKeys), Before(pc.at, dns, accessKeys), trail, e);
      } else {
        var isPrivate := LastAchieves(p, k, b, at, r, resp, dns, accessKeys);
        ReachedFollows(k, b, Before(at, dns, accessKeys), Everything(p, isPrivate, dns, accessKeys), trail, e);
      }
    }
  }

  /** The answers to come are not part of what lies before a stage. */
  lemma ForgetsNothing(b: Bucket, at: Stage, dns: Dns, accessKeys: seq<Tag>, dns': Dns, accessKeys': seq<Tag>)
    requires Remembers(b, at, dns, accessKeys)
    requires (at.AtEndpoint? || dns' == dns) && (at.AtKeys? || accessKeys' == accessKeys)
    ensures Remembers(b, at, dns', accessKeys') && Before(at, dns', accessKeys') == Before(at, dns, accessKeys)
  {
  }

  /** On the way to the first stage: the copy was obtained and, on AWS, the bucket found if it is not to be created. */
  lemma ProbingTrail(p: Provider, k: Key, pc: Pc, r: Req, resp: Resp, trail: seq<Entry>)
    requires TrailOk(p, k, pc, trail) && Allowed(p, k, pc, r) && (pc.Probing? || pc.ProbingContainer?) && !pc.del
    ensures TrailOk(p, k, Next(p, pc, r, resp), trail + [Entry(k, r, resp)])
  {
    hide AccountName, Obtained;
    var e := Entry(k, r, resp);
    ObtainedGrows(pc.b, trail, e);
    assert Remembers(pc.b, AtCreate, [], []) && Remembers(pc.b, AtSettings, [], []) && Remembers(pc.b, AtLifecycle, [], []);
    assert Before(AtCreate, [], []) == [] && Before(AtSettings, [], []) == [] && Before(AtLifecycle, [], []) == [] + [Present];
    ReachedGrows(k, pc.b, [], trail, e);
  }

  lemma BuildingTrail(p: Provider, k: Key, pc: Pc, r: Req, resp: Resp, trail: seq<Entry>)
    requires TrailOk(p, k, pc, trail) && Allowed(p, k, pc, r) && Building(pc)
    ensures TrailOk(p, k, Next(p, pc, r, resp), trail + [Entry(k, r, resp)])
  {
    hide AccountName, Obtained, StageReached, Built;
    if pc.Provisioning? {
      StageAdvances(p, k, pc.b, pc.at, r, resp, trail);
    } else if pc.Probing? || pc.ProbingContainer? {
      ProbingTrail(p, k, pc, r, resp, trail);
    }
  }

  lemma DestroyingTrail(p: Provider, k: Key, pc: Pc, r: Req, resp: Resp, trail: seq<Entry>)
    requires TrailOk(p, k, pc, trail) && Allowed(p, k, pc, r) && Unwinding(pc)
    ensures TrailOk(p, k, Next(p, pc, r, resp), trail + [Entry(k, r, resp)])
  {
    DestructionStages(p, k, pc, r, resp);
    hide AccountName, Allowed, Next;
    assert forall x :: x in trail ==> x in trail + [Entry(k, r, resp)];
    assert Entry(k, r, resp) in trail + [Entry(k, r, resp)];
  }

  /** Read, cluster lookup, registration of the finalizer, and the existence check of a deletion. */
  lemma StartingTrail(p: Provider, k: Key, pc: Pc, r: Req, resp: Resp, trail: seq<Entry>)
    requires TrailOk(p, k, pc, trail) && Allowed(p, k, pc, r) && !Building(pc) && !Unwinding(pc)
    ensures TrailOk(p, k, Next(p, pc, r, resp), if r == Kube(GetCr(k)) then [Entry(k, r, resp)] else trail + [Entry(k, r, resp)])
  {
    hide AccountName, Obtained;
    var e := Entry(k, r, resp);
    assert e in trail + [e];
    if pc.Preparing? {
      ReadObtains(k, pc.b, trail);
      ObtainedGrows(pc.b, trail, e);
    } else if pc.Finalizing? && resp.GotBucket? {
      ObtainedGrows(resp.b, trail, e);
    }
  }

  lemma ReadObtains(k: Key, b: Bucket, trail: seq<Entry>)
    requires ReadIt(k, b, trail)
    ensures Obtained(b, trail)
  {
  }

  /** Every answer adds to the trail what the next program counter relies on. */
  lemma TrailAdvances(p: Provider, k: Key, pc: Pc, r: Req, resp: Resp, trail: seq<Entry>)
    requires TrailOk(p, k, pc, trail) && Allowed(p, k, pc, r)
    ensures TrailOk(p, k, Next(p, pc, r, resp), if r == Kube(GetCr(k)) then [Entry(k, r, resp)] else trail + [Entry(k, r, resp)])
  {
    hide AccountName;
    if Building(pc) {
      BuildingTrail(p, k, pc, r, resp, trail);
    } else if Unwinding(pc) {
      DestroyingTrail(p, k, pc, r, resp, trail);
    } else {
      StartingTrail(p, k, pc, r, resp, trail);
    }
  }

  /** Destructive calls are issued only with the authority the trail shows. */
  lemma DestructiveIsConfirmed(p: Provider, k: Key, pc: Pc, r: Req, trail: seq<Entry>)
    requires TrailOk(p, k, pc, trail) && Allowed(p, k, pc, r) && Destructive(r)
    ensures Unwinding(pc) && Confirmed(p, k, pc.b, trail) && Targets(k, pc.b, r)
  {
  }

  ghost predicate StatusesEarned(s: Sys) {
    forall k, v :: v in FeedOf(s.w.feeds, k) && v.Some? && v.value.status.ready ==>
      Earned(s.w.provider, s.log, k, v.value.status.id)
  }

  ghost predicate LogOk(s: Sys) {
    && (forall k :: TrailOk(s.w.provider, k, PcOf(s, k), Trail(s.log, k)))
    && (forall i :: 0 <= i < |s.log| && Destructive(s.log[i].r) ==> Authorised(s.w.provider, s.log, i))
    && StatusesEarned(s)
  }

  lemma EarnedGrows(p: Provider, log: seq<Entry>, e: Entry, k: Key, n: string)
    requires Earned(p, log, k, n)
    ensures Earned(p, log + [e], k, n)
  {
    var m: nat :| EarnedAt(p, log, k, n, m);
    assert (log + [e])[..m] == log[..m];
    assert EarnedAt(p, log + [e], k, n, m);
  }

  /** A version in the feed after a call was there before, or is what the patch stored. */
  lemma CallWrites(w: World, k: Key, pc: Pc, r: Req, resp: Resp, w': World, k': Key, v: Version)
    requires Allowed(w.provider, k, pc, r) && Serves(w, k, r, resp, w')
    requires v in FeedOf(w'.feeds, k') && v.Some? && v.value.status.ready
    ensures (exists u :: u in FeedOf(w.feeds, k') && u.Some? && u.value.status == v.value.status) ||
            (k' == k && pc.Reporting? && r == Kube(PatchStatus(k, Some(Status(true, pc.b.spec.name)))) &&
             v.value.status == Status(true, pc.b.spec.name))
  {
    hide KubeServes, AccountName;
    var f := FeedOf(w.feeds, k);
    if r.Kube? {
      KubeCallShape(w, k, pc, r, resp, w');
      if r.kube.GetCr? {
        var j := ReadMovesOn(w.feeds, k, resp, w'.feeds);
        assert v in FeedOf(w.feeds, k');
      } else {
        PatchAppends(w.feeds, r.kube, resp, w'.feeds);
        assert Latest(f) in f;
      }
    }
  }

  lemma CallEarns(s: Sys, k: Key, r: Req, resp: Resp, s': Sys)
    requires LogOk(s) && CallStep(s, k, r, resp, s')
    ensures StatusesEarned(s')
  {
    hide Serves, Allowed, Next;
    var p, pc, e := s.w.provider, PcOf(s, k), Entry(k, r, resp);
    forall k', v | v in FeedOf(s'.w.feeds, k') && v.Some? && v.value.status.ready
      ensures Earned(p, s'.log, k', v.value.status.id)
    {
      CallWrites(s.w, k, pc, r, resp, s'.w, k', v);
      if u :| u in FeedOf(s.w.feeds, k') && u.Some? && u.value.status == v.value.status {
        EarnedGrows(p, s.log, e, k', v.value.status.id);
      } else {
        assert TrailOk(p, k, pc, Trail(s.log, k));
        assert s'.log[..|s.log|] == s.log;
        assert EarnedAt(p, s'.log, k, pc.b.spec.name, |s.log|);
      }
    }
  }

  lemma CallAuthorised(s: Sys, k: Key, r: Req, resp: Resp, s': Sys, i: nat)
    requires LogOk(s) && CallStep(s, k, r, resp, s')
    requires i < |s'.log| && Destructive(s'.log[i].r)
    ensures Authorised(s'.w.provider, s'.log, i)
  {
    hide Serves, Next, Allowed;
    var p := s.w.provider;
    if i < |s.log| {
      assert s'.log[i] == s.log[i] && s'.log[..i] == s.log[..i];
      var b :| Targets(s.log[i].k, b, s.log[i].r) && Confirmed(p, s.log[i].k, b, Trail(s.log[..i], s.log[i].k));
      assert Targets(s'.log[i].k, b, s'.log[i].r);
    } else {
      assert s'.log[i] == Entry(k, r, resp) && s'.log[..i] == s.log;
      DestructiveIsConfirmed(p, k, PcOf(s, k), r, Trail(s.log, k));
      assert Targets(s'.log[i].k, PcOf(s, k).b, s'.log[i].r);
    }
  }

  lemma CallKeepsLog(s: Sys, k: Key, r: Req, resp: Resp, s': Sys)
    requires LogOk(s) && CallStep(s, k, r, resp, s')
    ensures LogOk(s')
  {
    hide Serves, Allowed, Next, TrailOk, Destructive;
    var p := s.w.provider;
    forall k'
      ensures TrailOk(p, k', PcOf(s', k'), Trail(s'.log, k'))
    {
      TrailGrows(s.log, Entry(k, r, resp), k');
      assert TrailOk(p, k', PcOf(s, k'), Trail(s.log, k'));
      if k' == k {
        TrailAdvances(p, k, PcOf(s, k), r, resp, Trail(s.log, k));
      }
    }
    forall i | 0 <= i < |s'.log| && Destructive(s'.log[i].r)
      ensures Authorised(p, s'.log, i)
    {
      CallAuthorised(s, k, r, resp, s', i);
    }
    CallEarns(s, k, r, resp, s');
  }

  lemma EnvKeepsLog(s: Sys, s': Sys)
    requires LogOk(s) && EnvStep(s, s')
    ensures LogOk(s')
  {
    assert forall k :: PcOf(s', k) == PcOf(s, k);
    forall k, v | v in FeedOf(s'.w.feeds, k) && v.Some? && v.value.status.ready
      ensures Earned(s.w.provider, s.log, k, v.value.status.id)
    {
      var f, f' := FeedOf(s.w.feeds, k), FeedOf(s'.w.feeds, k);
      assert UserFeed(f, f');
      if v !in f {
        assert f' == f + [Latest(f')] && v == Latest(f');
        assert Latest(f) in f;
      }
    }
  }

  lemma {:induction false} RunKeepsLog(run: seq<Sys>, i: nat)
    requires IsRun(run) && Init(run[0]) && i < |run|
    ensures LogOk(run[i])
  {
    if i > 0 {
      RunKeepsLog(run, i - 1);
      var s, s' := run[i - 1], run[i];
      assert Step(run[i - 1], run[i - 1 + 1]);
      if k, r, resp :| CallStep(s, k, r, resp, s') {
        CallKeepsLog(s, k, r, resp, s');
      } else if k :| EndStep(s, k, s') {
        assert forall k' :: k' != k ==> PcOf(s', k') == PcOf(s, k');
      } else {
        EnvKeepsLog(s, s');
      }
    }
  }

  // ---------------------------------------------------------------- theorems

  /**
   In every run, each call that deletes anything comes after, in the same
   reconciliation, a read of a deletion mark with reclaim policy "Delete" and an
   error-free answer that the storage exists, and deletes only what is named after
   the resource read.
   */
  lemma DeletesAreAuthorised(run: seq<Sys>, i: nat, n: nat)
    requires IsRun(run) && Init(run[0]) && i < |run|
    requires n < |run[i].log| && Destructive(run[i].log[n].r)
    ensures Authorised(run[i].w.provider, run[i].log, n)
  {
    RunKeepsLog(run, i);
  }

  /**
   The finalizer leaves a resource only by a call of its own reconciliation in which
   the existence check, the deletion of the storage and, when a role is named, the
   deletion of the role (or the answer that there is none) all succeeded before.
   */
  lemma ReleaseIsEarned(run: seq<Sys>, i: nat, k: Key)
    requires IsRun(run) && Init(run[0]) && i + 1 < |run|
    requires Live(Current(run[i].w.feeds, k)) && !Live(Current(run[i + 1].w.feeds, k))
    ensures exists b :: AllDropped(run[i].w.provider, k, b, Trail(run[i].log, k)) && Live(Some(b))
    ensures Nothing(run[i + 1].w, k)
  {
    RunKeeps(run, i);
    RunKeepsLog(run, i);
    NoOrphansInRuns(run, i + 1, k);
    var s, s' := run[i], run[i + 1];
    assert Step(s, s');
    UsersNeverRelease(s, s', k);
    var k', r, resp :| CallStep(s, k', r, resp, s');
    OnlyReleasingReleases(s, k', r, resp, s', k);
    assert TrailOk(s.w.provider, k, PcOf(s, k), Trail(s.log, k));
    assert AllDropped(s.w.provider, k, PcOf(s, k).b, Trail(s.log, k));
  }

  lemma UsersNeverRelease(s: Sys, s': Sys, k: Key)
    ensures EnvStep(s, s') && Live(Current(s.w.feeds, k)) ==> Live(Current(s'.w.feeds, k))
  {
    if EnvStep(s, s') {
      assert UserFeed(FeedOf(s.w.feeds, k), FeedOf(s'.w.feeds, k));
    }
  }

  /** No other call takes the finalizer off. */
  lemma OnlyReleasingReleases(s: Sys, k': Key, r: Req, resp: Resp, s': Sys, k: Key)
    requires CallStep(s, k', r, resp, s') && Live(Current(s.w.feeds, k))
    ensures Live(Current(s'.w.feeds, k)) || (k' == k && PcOf(s, k).Releasing? && Live(Some(PcOf(s, k).b)))
  {
    hide Next, KubeServes, AccountName;
    if r.Kube? {
      KubeCallShape(s.w, k', PcOf(s, k'), r, resp, s'.w);
      if r.kube.GetCr? {
        var j := ReadMovesOn(s.w.feeds, k', resp, s'.w.feeds);
      } else {
        PatchAppends(s.w.feeds, r.kube, resp, s'.w.feeds);
      }
    }
  }

  predicate Guarded(w: World, x: Key) {
    x in w.secrets && "objectstorage.giantswarm.io/secret" in w.secrets[x].finalizers
  }

  lemma UsersKeepGuards(s: Sys, s': Sys, x: Key)
    requires Guarded(s.w, x)
    ensures EnvStep(s, s') || (exists k :: EndStep(s, k, s')) ==> Guarded(s'.w, x)
  {
  }

  lemma OnlyUnguardingPatches(p: Provider, k: Key, pc: Pc, r: Req, trail: seq<Entry>)
    requires Allowed(p, k, pc, r) && r.OnSecret? && r.secret.PatchSecret? && TrailOk(p, k, pc, trail)
    ensures pc.UnguardingSecret? && r.secret.s == SecretKey(k, pc.b) && AccountDropped(p, k, pc.b, trail)
  {
    hide AccountName, Obtained, StageReached, Built, AccountDropped;
  }

  lemma OnlyPatchesUnguard(w: World, k: Key, r: Req, resp: Resp, w': World, x: Key)
    requires Serves(w, k, r, resp, w') && Guarded(w, x)
    ensures Guarded(w', x) || (r.OnSecret? && r.secret.PatchSecret? && r.secret.s == x)
  {
  }

  /**
   A secret that carries the operator's finalizer loses it, or disappears, only by
   a call of a reconciliation that has already been told that the storage account of
   the same name is deleted, whatever users do to the secret.
   */
  lemma SecretOutlivesAccount(run: seq<Sys>, i: nat, x: Key)
    requires IsRun(run) && Init(run[0]) && i + 1 < |run|
    requires Guarded(run[i].w, x) && !Guarded(run[i + 1].w, x)
    ensures exists k, b :: x == SecretKey(k, b) && AccountDropped(run[i].w.provider, k, b, Trail(run[i].log, k))
  {
    hide Serves, Next, Allowed, AccountDropped, TrailOk, Guarded;
    RunKeepsLog(run, i);
    var s, s' := run[i], run[i + 1];
    assert Step(s, s');
    UsersKeepGuards(s, s', x);
    var k, r, resp :| CallStep(s, k, r, resp, s');
    OnlyPatchesUnguard(s.w, k, r, resp, s'.w, x);
    var pc := PcOf(s, k);
    assert TrailOk(s.w.provider, k, pc, Trail(s.log, k));
    OnlyUnguardingPatches(s.w.provider, k, pc, r, Trail(s.log, k));
    assert x == SecretKey(k, pc.b) && AccountDropped(s.w.provider, k, pc.b, Trail(s.log, k));
  }

  /**
   In every reachable state, a ready status with identifier `n` was preceded by a
   reconciliation in which creation or update of `n`, then its configuration,
   succeeded, and which then patched the status.
   */
  lemma ReadyIsEarned(run: seq<Sys>, i: nat, k: Key)
    requires IsRun(run) && Init(run[0]) && i < |run|
    requires Current(run[i].w.feeds, k).Some? && Current(run[i].w.feeds, k).value.status.ready
    ensures Earned(run[i].w.provider, run[i].log, k, Current(run[i].w.feeds, k).value.status.id)
  {
    RunKeepsLog(run, i);
    assert Current(run[i].w.feeds, k) in FeedOf(run[i].w.feeds, k);
  }

  /** No call of the operator takes a ready status back. */
  lemma ReadyIsNeverCleared(s: Sys, k: Key, r: Req, resp: Resp, s': Sys, k': Key)
    requires CallStep(s, k, r, resp, s')
    requires Current(s.w.feeds, k').Some? && Current(s.w.feeds, k').value.status.ready
    requires Current(s'.w.feeds, k').Some?
    ensures Current(s'.w.feeds, k').value.status.ready
  {
    hide Next, KubeServes, AccountName;
    if r.Kube? {
      KubeCallShape(s.w, k, PcOf(s, k), r, resp, s'.w);
      if r.kube.GetCr? {
        var j := ReadMovesOn(s.w.feeds, k, resp, s'.w.feeds);
      } else {
        PatchAppends(s.w.feeds, r.kube, resp, s'.w.feeds);
      }
    }
  }

  // ------------------------------------------------------------- conservation

  /** Everything stored in `w` is still there in `w'`. */
  ghost predicate Conserved(w: World, w': World) {
    && (forall n :: n in w.s3 ==> n in w'.s3 && w.s3[n].objects <= w'.s3[n].objects)
    && IamConserved(w.iam, w'.iam)
    && (forall a :: a in w.az.accounts ==>
          a in w'.az.accounts && w.az.accounts[a].containers.Keys <= w'.az.accounts[a].containers.Keys)
    && w.secrets.Keys <= w'.secrets.Keys
  }

  predicate IamConserved(x: Iam, x': Iam) {
    && (forall r :: r in x.roles ==>
          r in x'.roles && x.roles[r].attached <= x'.roles[r].attached && x.roles[r].inline.Keys <= x'.roles[r].inline.Keys)
    && (forall p :: p in x.profiles ==> p in x'.profiles && x.profiles[p] <= x'.profiles[p])
  }

  lemma IamConserves(x: Iam, k: Key, q: IamReq)
    requires !Destructive(OnIam(q))
    ensures IamConserved(x, IamEffect(x, k, q))
  {
    hide TagMap, DistinctKeys;
  }

  lemma AccountConserves(account: Account, k: Key, q: AzReq)
    ensures account.containers.Keys <= AccountEffect(account, k, q).containers.Keys
  {
  }

  lemma AzConserves(x: Az, k: Key, q: AzReq)
    requires !Destructive(OnAz(q))
    ensures forall a :: a in x.accounts ==>
              a in AzEffect(x, k, q).accounts && x.accounts[a].containers.Keys <= AzEffect(x, k, q).accounts[a].containers.Keys
  {
    if q.a in x.accounts {
      AccountConserves(x.accounts[q.a], k, q);
    }
  }

  lemma S3Conserves(w: World, k: Key, q: S3Req, resp: Resp, w': World)
    requires Serves(w, k, OnS3(q), resp, w') && !Destructive(OnS3(q))
    ensures Conserved(w, w')
  {
  }

  lemma OnlyDestructiveCallsDestroy(w: World, k: Key, r: Req, resp: Resp, w': World)
    requires Serves(w, k, r, resp, w') && !Destructive(r)
    ensures Conserved(w, w')
  {
    hide KubeServes, S3Serves, SecretServes, AzEffect, AzReply;
    match r
    case OnS3(q) => S3Conserves(w, k, q, resp, w');
    case OnAz(q) => AzConserves(w.az, k, q);
    case OnIam(q) =>
      IamConserves(w.iam, k, q);
      hide IamEffect, IamReply;
    case OnSecret(q) => SecretsConserve(w, k, q, resp, w');
    case _ =>
  }

  lemma SecretsConserve(w: World, k: Key, q: SecretReq, resp: Resp, w': World)
    requires Serves(w, k, OnSecret(q), resp, w') && !Destructive(OnSecret(q))
    ensures Conserved(w, w')
  {
  }

  lemma UnwindingRead(w: World, k: Key, pc: Pc)
    requires WorkerOk(w, k, pc) && Unwinding(pc)
    ensures LastRead(w.feeds, k, pc.b)
  {
    hide NoAccounts, NoGuard, NoStorage, Nothing;
  }

  /** Whoever deletes works on a copy that asks for it and is still in the feed. */
  lemma DestructionFollowsPolicy(s: Sys, k: Key, r: Req)
    requires WorkerOk(s.w, k, PcOf(s, k)) && TrailOk(s.w.provider, k, PcOf(s, k), Trail(s.log, k))
    requires Allowed(s.w.provider, k, PcOf(s, k), r) && Destructive(r)
    ensures exists v :: v in FeedOf(s.w.feeds, k) && v.Some? && v.value.spec.reclaimPolicy == "Delete"
  {
    hide WorkerOk, TrailOk, Allowed, Destructive;
    DestructiveIsConfirmed(s.w.provider, k, PcOf(s, k), r, Trail(s.log, k));
    UnwindingRead(s.w, k, PcOf(s, k));
    assert FeedOf(s.w.feeds, k)[0] in FeedOf(s.w.feeds, k);
  }

  /**
   While a Bucket resource asks for "Retain", nothing, or anything but "Delete", no call
   of its reconciliation removes an object, bucket, container, account, secret, role,
   policy or profile, whatever other resources ask for.
   */
  lemma RetainConserves(run: seq<Sys>, i: nat, k: Key, r: Req, resp: Resp)
    requires IsRun(run) && Init(run[0]) && i + 1 < |run|
    requires forall v :: v in FeedOf(run[i].w.feeds, k) && v.Some? ==> v.value.spec.reclaimPolicy != "Delete"
    requires CallStep(run[i], k, r, resp, run[i + 1])
    ensures Conserved(run[i].w, run[i + 1].w)
  {
    RunKeeps(run, i);
    RunKeepsLog(run, i);
    assert WorkerOk(run[i].w, k, PcOf(run[i], k)) && TrailOk(run[i].w.provider, k, PcOf(run[i], k), Trail(run[i].log, k));
    if !Destructive(r) {
      OnlyDestructiveCallsDestroy(run[i].w, k, r, resp, run[i + 1].w);
    } else {
      DestructionFollowsPolicy(run[i], k, r);
      assert false;
    }
  }
}
