/**
 No run leaves a cloud resource behind: whatever the operator created and has not
 deleted, the Bucket resource it was created for still carries the finalizer.
 */
module NoOrphans {
  import opened Base
  import opened Cloud
  import opened Names
  import opened Protocol

  // ------------------------------------------------------------ cached reads

  predicate Marked(v: Version) {
    v.Some? && v.value.deleting
  }

  predicate SameBucket(v: Version, v': Version) {
    v.Some? && v'.Some? && SameIdentity(v.value.spec, v'.value.spec)
  }

  /**
   What a feed can look like. Once the operator has read a deletion mark it may
   release the resource: the finalizer disappears for good and no unmarked version
   carries it. Until then, a version with the finalizer is followed only by such
   versions of the same resource.
   */
  ghost predicate FeedOk(f: Feed) {
    if Live(f[0]) && Marked(f[0]) then
      forall i, j :: 0 <= i < j < |f| && Live(f[j]) ==> Live(f[i]) && Marked(f[j]) && SameBucket(f[i], f[j])
    else
      forall i, j :: 0 <= i < j < |f| && Live(f[i]) ==>
        Live(f[j]) && (Marked(f[i]) ==> Marked(f[j])) && SameBucket(f[i], f[j])
  }

  /** A cached read moves on to some later point of the feed and changes nothing else. */
  lemma ReadMovesOn(feeds: Feeds, k: Key, resp: Resp, feeds': Feeds) returns (j: nat)
    requires KubeServes(feeds, GetCr(k), resp, feeds')
    ensures j < |FeedOf(feeds, k)| && FeedOf(feeds', k) == FeedOf(feeds, k)[j..]
    ensures Current(feeds', k) == Current(feeds, k)
    ensures resp.GotBucket? ==> FeedOf(feeds, k)[j] == Some(resp.b)
    ensures forall k' :: k' != k ==> FeedOf(feeds', k') == FeedOf(feeds, k')
  {
    if feeds' == feeds && resp.Failed? {
      j := 0;
    } else {
      j :| ReadsAt(feeds, k, j, resp, feeds');
    }
  }

  lemma FeedSuffix(f: Feed, j: nat)
    requires FeedOk(f) && j < |f|
    ensures FeedOk(f[j..])
  {
    var g: Feed := f[j..];
    assert forall i :: 0 <= i < |g| ==> g[i] == f[i + j];
    assert g[0] == f[j];
    assert Live(f[0]) && Marked(f[0]) && !Live(f[j]) ==> forall i :: j < i < |f| ==> !Live(f[i]);
  }

  /** A version may be appended when it stands to the latest one as `FeedOk` asks. */
  lemma FeedAppend(f: Feed, v: Version)
    requires FeedOk(f)
    requires Live(f[0]) && Marked(f[0]) && Live(v) ==> Live(Latest(f)) && Marked(v) && SameBucket(Latest(f), v)
    requires !(Live(f[0]) && Marked(f[0])) && Live(Latest(f)) ==>
               Live(v) && (Marked(Latest(f)) ==> Marked(v)) && SameBucket(Latest(f), v)
    ensures FeedOk(f + [v])
  {
    var g: Feed := f + [v];
    var m := |f| - 1;
    forall i, j | 0 <= i < j < |g| && (if Live(f[0]) && Marked(f[0]) then Live(g[j]) else Live(g[i]))
      ensures Live(g[i]) && Live(g[j]) && (Marked(g[i]) ==> Marked(g[j])) && SameBucket(g[i], g[j])
      ensures Live(f[0]) && Marked(f[0]) ==> Marked(g[j])
    {
      if j < |f| {
        assert g[i] == f[i] && g[j] == f[j];
      } else {
        assert g[j] == v && g[i] == f[i];
        if i < m {
          assert f[m] == Latest(f);
        }
      }
    }
  }

  lemma FeedUser(f: Feed, f': Feed)
    requires FeedOk(f) && UserFeed(f, f')
    ensures FeedOk(f') && f'[0] == f[0]
    ensures Live(Latest(f)) ==> Live(Latest(f')) && SameBucket(Latest(f), Latest(f'))
  {
    if f' != f {
      assert f' == f + [Latest(f')];
      assert Live(f[0]) && Marked(f[0]) && Live(Latest(f)) ==> Marked(Latest(f));
      FeedAppend(f, Latest(f'));
    }
  }

  // ------------------------------------------------------------- the invariant

  /** The kinds of resources the operator creates. */
  datatype Thing =
    | ABucket(n: string)
    | ARole(r: string)
    | AnAccount(a: string)
    | AContainer(a: string, n: string)
    | ASecret(s: Key)
    | AGuard(s: Key)  // the operator's finalizer on a secret

  predicate Held(secret: Secret) {
    SECRET_FINALIZER in secret.finalizers
  }

  /**
   The Bucket resource a cloud resource was made for; `None` when it is absent or
   not the operator's. A secret counts until it is marked for deletion and no longer
   carries the operator's finalizer.
   */
  function Maker(w: World, t: Thing): Option<Key> {
    match t
    case ABucket(n) => if n in w.s3 then w.s3[n].creator else None
    case ARole(r) => if r in w.iam.roles then w.iam.roles[r].creator else None
    case AnAccount(a) => if a in w.az.accounts then w.az.accounts[a].creator else None
    case AContainer(a, n) => if HasContainer(w.az, a, n) then w.az.accounts[a].containers[n].creator else None
    case ASecret(s) => if s in w.secrets && (!w.secrets[s].deleting || Held(w.secrets[s])) then w.secrets[s].creator else None
    case AGuard(s) => if s in w.secrets && Held(w.secrets[s]) then w.secrets[s].creator else None
  }

  /** The resources the reconciliation of `k` with this spec creates. */
  predicate NamedAfter(p: Provider, k: Key, spec: Spec, t: Thing) {
    match t
    case ABucket(n) => p.Aws? && n == spec.name
    case ARole(r) => p.Aws? && r == RoleName(spec) && r != ""
    case AnAccount(a) => p.Azure? && a == AccountName(spec.name)
    case AContainer(a, n) => p.Azure? && a == AccountName(n) && n == spec.name
    case ASecret(s) => p.Azure? && s == Key(k.namespace, spec.name)
    case AGuard(s) => p.Azure? && s == Key(k.namespace, spec.name)
  }

  /** The copy `spec` is named like the stored resource, which carries the finalizer. */
  predicate Anchored(feeds: Feeds, k: Key, spec: Spec) {
    Live(Current(feeds, k)) && SameIdentity(spec, Current(feeds, k).value.spec)
  }

  /** `t` is named after the stored resource `k`, which carries the finalizer. */
  predicate Belongs(w: World, k: Key, t: Thing) {
    Live(Current(w.feeds, k)) && NamedAfter(w.provider, k, Current(w.feeds, k).value.spec, t)
  }

  ghost predicate Owned(w: World) {
    forall t :: Maker(w, t).Some? ==> Belongs(w, Maker(w, t).value, t)
  }

  ghost predicate NoAccounts(w: World, k: Key) {
    forall t: Thing :: t.AnAccount? || t.AContainer? ==> Maker(w, t) != Some(k)
  }

  /** The operator's finalizer is off the secret, unless the secret is another resource's. */
  predicate NoGuard(w: World, k: Key, b: Bucket) {
    Maker(w, AGuard(SecretKey(k, b))) != Some(k)
  }

  ghost predicate NoStorage(w: World, k: Key) {
    forall t: Thing :: !t.ARole? ==> Maker(w, t) != Some(k)
  }

  ghost predicate Nothing(w: World, k: Key) {
    forall t :: Maker(w, t) != Some(k)
  }

  predicate LastRead(feeds: Feeds, k: Key, b: Bucket) {
    FeedOf(feeds, k)[0] == Some(b)
  }

  ghost predicate WorkerOk(w: World, k: Key, pc: Pc) {
    match pc
    case Idle => true
    case Preparing(b) => LastRead(w.feeds, k, b)
    case Finalizing(b) => LastRead(w.feeds, k, b) && !Live(Some(b)) && !b.deleting
    case Probing(b, del) => if del then LastRead(w.feeds, k, b) && b.deleting else Anchored(w.feeds, k, b.spec)
    case ProbingContainer(b, del) =>
      w.provider.Azure? && if del then LastRead(w.feeds, k, b) && b.deleting else Anchored(w.feeds, k, b.spec)
    case Granting(b) => Anchored(w.feeds, k, b.spec) && HasRole(b.spec) && w.provider.Aws?
    case Destroying(b) => LastRead(w.feeds, k, b) && b.deleting
    case DestroyingSecret(b) => LastRead(w.feeds, k, b) && b.deleting && w.provider.Azure? && (Live(Some(b)) ==> NoAccounts(w, k))
    case UnguardingSecret(b, held) =>
      LastRead(w.feeds, k, b) && b.deleting && w.provider.Azure? && (Live(Some(b)) ==> NoAccounts(w, k)) &&
      (!Held(held) ==> NoGuard(w, k, b))
    case DeletingSecret(b) =>
      LastRead(w.feeds, k, b) && b.deleting && w.provider.Azure? && (Live(Some(b)) ==> NoAccounts(w, k)) && NoGuard(w, k, b)
    case Revoking(b) => LastRead(w.feeds, k, b) && b.deleting && (Live(Some(b)) ==> NoStorage(w, k))
    case Releasing(b) => LastRead(w.feeds, k, b) && b.deleting && (Live(Some(b)) ==> Nothing(w, k))
    case _ => Anchored(w.feeds, k, pc.b.spec)
  }

  ghost predicate Inv(s: Sys) {
    && (forall k :: FeedOk(FeedOf(s.w.feeds, k)))
    && Owned(s.w)
    && (forall k :: WorkerOk(s.w, k, PcOf(s, k)))
  }

  lemma InitInv(s: Sys)
    requires Init(s)
    ensures Inv(s)
  {
    forall k
      ensures FeedOk(FeedOf(s.w.feeds, k))
    {
      var f := FeedOf(s.w.feeds, k);
      assert forall i :: 0 <= i < |f| ==> f[i] in f;
    }
    forall t
      ensures Maker(s.w, t).None?
    {
      assert t.AContainer? ==> HasContainer(s.w.az, t.a, t.n) ==> s.w.az.accounts[t.a].containers[t.n].creator.None?;
    }
  }

  // ------------------------------------------------------- what a step can make

  /** What a creating call creates. */
  predicate Makes(r: Req, t: Thing) {
    match r
    case OnS3(q) => q.Create? && t == ABucket(q.n)
    case OnIam(q) => q.CreateRole? && t == ARole(q.r)
    case OnAz(q) =>
      (match q
       case PutAccount(a, _, _) => t == AnAccount(a)
       case CreateContainer(a, n, _) => t == AContainer(a, n)
       case _ => false)
    case OnSecret(q) => q.CreateSecret? && (t == ASecret(q.s) || t == AGuard(q.s))
    case _ => false
  }

  /** Patches of secrets never set the operator's finalizer. */
  predicate Tame(r: Req) {
    r.OnSecret? && r.secret.PatchSecret? && r.secret.list.Some? ==> SECRET_FINALIZER !in r.secret.list.value
  }

  lemma AllowedIsTame(p: Provider, k: Key, pc: Pc, r: Req)
    requires Allowed(p, k, pc, r)
    ensures Tame(r)
  {
    hide AccountName;
  }

  /** `t` is nobody's new resource. */
  predicate NotNew(w: World, w': World, t: Thing) {
    Maker(w', t) == Maker(w, t) || Maker(w', t).None?
  }

  lemma IamMakes(x: Iam, k: Key, q: IamReq, r: string)
    ensures var x' := IamEffect(x, k, q);
            r in x'.roles ==> (r in x.roles && x'.roles[r].creator == x.roles[r].creator) ||
                              (q.CreateRole? && r == q.r && x'.roles[r].creator == Some(k))
  {
    hide TagMap;
  }

  lemma AccountMakes(x: Account, k: Key, q: AzReq, n: string)
    ensures var x' := AccountEffect(x, k, q);
            x'.creator == x.creator &&
            (n in x'.containers ==> (n in x.containers && x'.containers[n].creator == x.containers[n].creator) ||
                                    (q.CreateContainer? && n == q.n && x'.containers[n].creator == Some(k)))
  {
  }

  lemma AzMakes(x: Az, k: Key, q: AzReq, a: string, n: string)
    ensures var x' := AzEffect(x, k, q);
            a in x'.accounts ==> (a in x.accounts && x'.accounts[a].creator == x.accounts[a].creator) ||
                                 (q.PutAccount? && a == q.a && x'.accounts[a].creator == Some(k))
    ensures var x' := AzEffect(x, k, q);
            HasContainer(x', a, n) ==>
              (HasContainer(x, a, n) && x'.accounts[a].containers[n].creator == x.accounts[a].containers[n].creator) ||
              (q.CreateContainer? && a == q.a && n == q.n && x'.accounts[a].containers[n].creator == Some(k))
  {
    if q.a in x.accounts {
      AccountMakes(x.accounts[q.a], k, q, n);
    }
    hide AccountEffect;
  }

  /** A call makes at most the resource it names, with its guard, in the name of its caller. */
  lemma CallMakes(w: World, k: Key, r: Req, resp: Resp, w': World, t: Thing)
    requires Serves(w, k, r, resp, w') && Tame(r)
    ensures NotNew(w, w', t) || (Makes(r, t) && Maker(w', t) == Some(k))
  {
    hide S3Reply, IamReply, AzReply, SecretReply, TagMap;
    match r
    case OnIam(q) =>
      hide IamEffect;
      if t.ARole? {
        IamMakes(w.iam, k, q, t.r);
      }
    case OnAz(q) =>
      hide AzEffect;
      if t.AnAccount? {
        AzMakes(w.az, k, q, t.a, "");
      } else if t.AContainer? {
        AzMakes(w.az, k, q, t.a, t.n);
      }
    case _ =>
  }

  lemma UserMakesNothing(w: World, w': World, t: Thing)
    requires UserStep(w, w')
    ensures NotNew(w, w', t)
  {
  }

  // ---------------------------------------------------------- preservation

  /** A resource that carries the finalizer still does, under the same name. */
  predicate StillLive(feeds: Feeds, feeds': Feeds, k: Key) {
    Live(Current(feeds, k)) ==> Live(Current(feeds', k)) && SameBucket(Current(feeds, k), Current(feeds', k))
  }

  /** Nothing is made in the name of `k`. */
  ghost predicate NoneNew(w: World, w': World, k: Key) {
    forall t :: Maker(w', t) == Some(k) ==> Maker(w, t) == Some(k)
  }

  lemma WorkerKept(w: World, w': World, k: Key, pc: Pc)
    requires WorkerOk(w, k, pc) && NoneNew(w, w', k) && w'.provider == w.provider
    requires FeedOf(w'.feeds, k)[0] == FeedOf(w.feeds, k)[0] && StillLive(w.feeds, w'.feeds, k)
    ensures WorkerOk(w', k, pc)
  {
  }

  lemma EnvKeeps(s: Sys, s': Sys)
    requires Inv(s) && EnvStep(s, s')
    ensures Inv(s')
  {
    var w, w' := s.w, s'.w;
    forall t
      ensures NotNew(w, w', t)
    {
      UserMakesNothing(w, w', t);
    }
    forall k
      ensures FeedOk(FeedOf(w'.feeds, k)) && StillLive(w.feeds, w'.feeds, k)
      ensures WorkerOk(w', k, PcOf(s', k))
    {
      assert UserFeed(FeedOf(w.feeds, k), FeedOf(w'.feeds, k));
      FeedUser(FeedOf(w.feeds, k), FeedOf(w'.feeds, k));
      WorkerKept(w, w', k, PcOf(s, k));
    }
    OwnedKept(w, w');
  }

  lemma OwnedKept(w: World, w': World)
    requires Owned(w) && w'.provider == w.provider
    requires forall t :: NotNew(w, w', t) || (Maker(w', t).Some? && Belongs(w', Maker(w', t).value, t))
    requires forall k :: StillLive(w.feeds, w'.feeds, k) || Nothing(w, k)
    ensures Owned(w')
  {
    forall t | Maker(w', t).Some?
      ensures Belongs(w', Maker(w', t).value, t)
    {
      if NotNew(w, w', t) {
        var k := Maker(w, t).value;
        assert Belongs(w, k, t);
        assert StillLive(w.feeds, w'.feeds, k);
      }
    }
  }

  /** Calls to the clouds leave every Bucket resource alone. */
  lemma CloudCallKeeps(s: Sys, k: Key, r: Req, resp: Resp, s': Sys)
    requires Inv(s) && CallStep(s, k, r, resp, s') && !r.Kube?
    ensures Inv(s')
  {
    var w, w', pc := s.w, s'.w, PcOf(s, k);
    assert w'.feeds == w.feeds && w'.provider == w.provider;
    assert WorkerOk(w, k, pc);
    AllowedIsTame(w.provider, k, pc, r);
    forall t
      ensures NotNew(w, w', t) || (Maker(w', t) == Some(k) && Makes(r, t) && Belongs(w', k, t))
    {
      CallMakes(w, k, r, resp, w', t);
      if Makes(r, t) {
        MakesOwn(w, k, pc, r, t);
      }
    }
    OwnedKept(w, w');
    forall k' | k' != k
      ensures WorkerOk(w', k', PcOf(s', k'))
    {
      WorkerKept(w, w', k', PcOf(s, k'));
    }
    CloudCallAdvances(w, k, pc, r, resp, w');
  }

  /** A worker only ever creates what its own, finalized resource names. */
  lemma MakesOwn(w: World, k: Key, pc: Pc, r: Req, t: Thing)
    requires WorkerOk(w, k, pc) && Allowed(w.provider, k, pc, r) && Makes(r, t)
    ensures Belongs(w, k, t)
  {
  }

  /** In the feed of a resource whose deletion was read, the latest live version is the one read. */
  lemma ReadAnchors(w: World, k: Key, b: Bucket)
    requires FeedOk(FeedOf(w.feeds, k)) && LastRead(w.feeds, k, b) && Live(Some(b))
    ensures !b.deleting ==> Anchored(w.feeds, k, b.spec)
    ensures Live(Current(w.feeds, k)) ==> Anchored(w.feeds, k, b.spec)
  {
    var f := FeedOf(w.feeds, k);
    assert |f| > 1 ==> 0 < |f| - 1 < |f|;
  }

  /** The building half of a reconciliation keeps the copy it started with. */
  predicate Building(pc: Pc) {
    pc.Provisioning? || pc.Reporting? || pc.Granting? ||
    ((pc.Probing? || pc.ProbingContainer?) && !pc.del)
  }

  lemma BuildingContinues(p: Provider, k: Key, pc: Pc, r: Req, resp: Resp)
    requires Building(pc) && Allowed(p, k, pc, r) && !r.Kube?
    ensures var pc' := Next(p, pc, r, resp);
            pc'.Idle? || (Building(pc') && pc'.b == pc.b && (pc'.Granting? ==> pc.Granting?) && (pc'.ProbingContainer? ==> p.Azure?))
  {
  }

  /** The destroying half. */
  predicate Unwinding(pc: Pc) {
    pc.Destroying? || pc.DestroyingSecret? || pc.UnguardingSecret? || pc.DeletingSecret? || pc.Revoking?
  }

  lemma DestroyersMakeNothing(p: Provider, k: Key, pc: Pc, r: Req, t: Thing)
    requires !Building(pc) && !pc.Preparing? && !pc.Probing? && !pc.ProbingContainer? && Allowed(p, k, pc, r) && !r.Kube?
    ensures !Makes(r, t) && Unwinding(pc)
  {
  }

  /** Every step of the worker establishes what its next program counter claims. */
  lemma CloudCallAdvances(w: World, k: Key, pc: Pc, r: Req, resp: Resp, w': World)
    requires FeedOk(FeedOf(w.feeds, k)) && Owned(w)
    requires WorkerOk(w, k, pc) && w'.feeds == w.feeds && w'.provider == w.provider
    requires Allowed(w.provider, k, pc, r) && Serves(w, k, r, resp, w') && !r.Kube?
    requires forall t :: NotNew(w, w', t) || Makes(r, t)
    ensures WorkerOk(w', k, Next(w.provider, pc, r, resp))
  {
    hide FeedOk, Owned, Serves, Allowed;
    if Building(pc) {
      hide Next;
      BuildingContinues(w.provider, k, pc, r, resp);
    } else if pc.Preparing? {
      if Live(Some(pc.b)) {
        ReadAnchors(w, k, pc.b);
      }
    } else if !pc.Probing? && !pc.ProbingContainer? {
      hide Next;
      forall t
        ensures NotNew(w, w', t) && Unwinding(pc)
      {
        DestroyersMakeNothing(w.provider, k, pc, r, t);
      }
      DestroyersMakeNothing(w.provider, k, pc, r, ABucket(""));
      DestructionAdvances(w, k, pc, r, resp, w');
    }
  }

  /** What is still `k`'s after the step is named after the copy it works on. */
  lemma LeftIsNamed(w: World, k: Key, b: Bucket, w': World, t: Thing)
    requires FeedOk(FeedOf(w.feeds, k)) && Owned(w) && LastRead(w.feeds, k, b) && Live(Some(b))
    requires NotNew(w, w', t) && Maker(w', t) == Some(k)
    ensures Maker(w, t) == Some(k) && NamedAfter(w.provider, k, b.spec, t)
  {
    assert Belongs(w, k, t);
    ReadAnchors(w, k, b);
  }

  /**
   What a successful deletion guarantees about the store it was sent to: the resource is
   gone, and a secret is left only if the operator's finalizer holds it.
   */
  lemma DropsAreReal(w: World, k: Key, r: Req, resp: Resp, w': World)
    requires Serves(w, k, r, resp, w')
    ensures resp == Done && r.OnS3? && r.s3.Drop? ==> r.s3.n !in w'.s3
    ensures resp == Done && r.OnAz? && r.az.DropAccount? ==> r.az.a !in w'.az.accounts
    ensures r.OnSecret? && r.secret.GetSecret? && resp.GotSecret? && !Held(resp.secret) ==> Maker(w', AGuard(r.secret.s)).None?
    ensures resp == Done && r.OnSecret? && r.secret.PatchSecret? ==>
              if r.secret.list.None? then w' == w
              else SECRET_FINALIZER !in r.secret.list.value ==> Maker(w', AGuard(r.secret.s)).None?
    ensures resp == Done && r.OnSecret? && r.secret.DeleteSecret? ==> Maker(w', ASecret(r.secret.s)) == Maker(w', AGuard(r.secret.s))
    ensures resp == Missing && r.OnIam? && r.iam.GetRole? ==> r.iam.r !in w'.iam.roles
    ensures resp == Done && r.OnIam? && r.iam.DropRole? ==> r.iam.r !in w'.iam.roles
  {
    hide AccountEffect, RoleEffect, TagMap;
  }

  /** The destroying half of a reconciliation goes through these stages. */
  lemma DestructionStages(p: Provider, k: Key, pc: Pc, r: Req, resp: Resp)
    requires Allowed(p, k, pc, r) && Unwinding(pc)
    ensures var pc' := Next(p, pc, r, resp);
            || pc'.Idle? || pc' == pc
            || (p.Azure? && pc.Destroying? && pc' == DestroyingSecret(pc.b) && resp == Done && r == OnAz(DropAccount(AccountName(pc.b.spec.name))))
            || (p.Aws? && pc.Destroying? && pc' == Destroyed(p, pc.b) && resp == Done && r == OnS3(Drop(pc.b.spec.name)))
            || (pc.DestroyingSecret? && resp.GotSecret? && pc' == UnguardingSecret(pc.b, resp.secret) && r == OnSecret(GetSecret(SecretKey(k, pc.b))))
            || (pc.UnguardingSecret? && pc' == DeletingSecret(pc.b) && resp == Done &&
                r == OnSecret(PatchSecret(SecretKey(k, pc.b), Unguarded(pc.held.finalizers))))
            || (pc.DeletingSecret? && pc' == Destroyed(p, pc.b) && resp == Done && r == OnSecret(DeleteSecret(SecretKey(k, pc.b))))
            || (pc.Revoking? && pc' == Releasing(pc.b) && resp == Missing && r == OnIam(GetRole(RoleName(pc.b.spec))))
            || (pc.Revoking? && pc' == Releasing(pc.b) && resp == Done && r == OnIam(DropRole(RoleName(pc.b.spec))))
  {
    hide AccountName;
  }

  /** Whatever is left after the step of a resource whose deletion was read is named after the copy. */
  ghost predicate LeftNamed(w: World, w': World, k: Key, b: Bucket) {
    forall t :: Maker(w', t) == Some(k) && Live(Some(b)) ==> Maker(w, t) == Some(k) && NamedAfter(w.provider, k, b.spec, t)
  }

  /** The finalizer comes off the secret before it is deleted. */
  lemma SecretAdvances(w: World, k: Key, pc: Pc, r: Req, resp: Resp, w': World)
    requires WorkerOk(w, k, pc) && w'.feeds == w.feeds && w'.provider == w.provider
    requires pc.DestroyingSecret? || pc.UnguardingSecret? || pc.DeletingSecret?
    requires Allowed(w.provider, k, pc, r) && Serves(w, k, r, resp, w')
    requires (forall t :: NotNew(w, w', t)) && LeftNamed(w, w', k, pc.b)
    ensures WorkerOk(w', k, Next(w.provider, pc, r, resp))
  {
    hide Serves, AccountName, Allowed, Next, SECRET_FINALIZER, BUCKET_FINALIZER;
    DropsAreReal(w, k, r, resp, w');
    DestructionStages(w.provider, k, pc, r, resp);
    var s := SecretKey(k, pc.b);
    assert NotNew(w, w', AGuard(s));
  }

  lemma DestructionAdvances(w: World, k: Key, pc: Pc, r: Req, resp: Resp, w': World)
    requires FeedOk(FeedOf(w.feeds, k)) && Owned(w)
    requires WorkerOk(w, k, pc) && w'.feeds == w.feeds && w'.provider == w.provider
    requires Unwinding(pc)
    requires Allowed(w.provider, k, pc, r) && Serves(w, k, r, resp, w')
    requires forall t :: NotNew(w, w', t)
    ensures WorkerOk(w', k, Next(w.provider, pc, r, resp))
  {
    hide Serves, FeedOk, Owned, AccountName, Allowed, Next;
    forall t | Maker(w', t) == Some(k) && Live(Some(pc.b))
      ensures Maker(w, t) == Some(k) && NamedAfter(w.provider, k, pc.b.spec, t)
    {
      LeftIsNamed(w, k, pc.b, w', t);
    }
    if pc.Destroying? || pc.Revoking? {
      DropsAreReal(w, k, r, resp, w');
      DestructionStages(w.provider, k, pc, r, resp);
    } else {
      SecretAdvances(w, k, pc, r, resp, w');
    }
  }

  lemma KubeCallShape(w: World, k: Key, pc: Pc, r: Req, resp: Resp, w': World)
    requires Allowed(w.provider, k, pc, r) && Serves(w, k, r, resp, w') && r.Kube?
    ensures r.kube.k == k && (pc.Idle? <==> r == Kube(GetCr(k)))
    ensures w' == w.(feeds := w'.feeds) && KubeServes(w.feeds, r.kube, resp, w'.feeds)
  {
    hide AccountName;
  }

  /** What a read or patch does to the feed of its own resource. */
  lemma OwnFeedKeeps(w: World, k: Key, pc: Pc, r: Req, resp: Resp, w': World)
    requires FeedOk(FeedOf(w.feeds, k)) && WorkerOk(w, k, pc)
    requires Allowed(w.provider, k, pc, r) && Serves(w, k, r, resp, w') && r.Kube?
    ensures w' == w.(feeds := w'.feeds) && forall k' :: k' != k ==> FeedOf(w'.feeds, k') == FeedOf(w.feeds, k')
    ensures FeedOk(FeedOf(w'.feeds, k)) && WorkerOk(w', k, Next(w.provider, pc, r, resp))
    ensures StillLive(w.feeds, w'.feeds, k) || Nothing(w, k)
  {
    hide FeedOk, WorkerOk, Serves, KubeServes, Allowed, Next, NamedAfter, Nothing;
    KubeCallShape(w, k, pc, r, resp, w');
    if pc.Idle? {
      var j := ReadMovesOn(w.feeds, k, resp, w'.feeds);
      FeedSuffix(FeedOf(w.feeds, k), j);
      ReadAdvances(w, k, resp, w');
    } else {
      PatchKeeps(w, k, pc, r, resp, w');
      PatchAppends(w.feeds, r.kube, resp, w'.feeds);
    }
  }

  lemma SameThings(w: World, w': World)
    requires w' == w.(feeds := w'.feeds)
    ensures forall t :: Maker(w', t) == Maker(w, t)
  {
  }

  /** Reads and patches of the resource itself. */
  lemma KubeCallKeeps(s: Sys, k: Key, r: Req, resp: Resp, s': Sys)
    requires Inv(s) && CallStep(s, k, r, resp, s') && r.Kube?
    ensures Inv(s')
  {
    hide FeedOk, WorkerOk, Serves, Allowed, Next, Maker, Owned, Live;
    var w, w', pc := s.w, s'.w, PcOf(s, k);
    assert WorkerOk(w, k, pc) && FeedOk(FeedOf(w.feeds, k));
    OwnFeedKeeps(w, k, pc, r, resp, w');
    SameThings(w, w');
    forall k' | k' != k
      ensures WorkerOk(w', k', PcOf(s', k')) && StillLive(w.feeds, w'.feeds, k') && FeedOk(FeedOf(w'.feeds, k'))
    {
      assert FeedOk(FeedOf(w.feeds, k')) && WorkerOk(w, k', PcOf(s, k'));
      LiveItself(w.feeds, w'.feeds, k');
      WorkerKept(w, w', k', PcOf(s, k'));
    }
    OwnedKept(w, w');
  }

  lemma LiveItself(feeds: Feeds, feeds': Feeds, k: Key)
    requires FeedOf(feeds', k) == FeedOf(feeds, k)
    ensures StillLive(feeds, feeds', k)
  {
  }

  lemma ReadAdvances(w: World, k: Key, resp: Resp, w': World)
    requires resp.GotBucket? ==> LastRead(w'.feeds, k, resp.b)
    ensures WorkerOk(w', k, Next(w.provider, Idle, Kube(GetCr(k)), resp))
  {
  }

  /** A patch appends at most one version, the stored resource with the patch applied. */
  lemma PatchAppends(feeds: Feeds, q: KubeReq, resp: Resp, feeds': Feeds)
    requires KubeServes(feeds, q, resp, feeds') && !q.GetCr?
    ensures forall k :: k != q.k ==> FeedOf(feeds', k) == FeedOf(feeds, k)
    ensures FeedOf(feeds', q.k) == FeedOf(feeds, q.k) ||
            (Written(Current(feeds, q.k), q).Some? &&
             FeedOf(feeds', q.k) == FeedOf(feeds, q.k) + [Stored(Written(Current(feeds, q.k), q).value)])
    ensures resp.GotBucket? ==> Current(feeds, q.k).Some? && resp.b.spec == Current(feeds, q.k).value.spec
    ensures resp.GotBucket? && Written(Current(feeds, q.k), q).Some? ==>
              resp.b == Written(Current(feeds, q.k), q).value && Current(feeds', q.k) == Stored(resp.b)
  {
  }

  lemma FinalizeKeeps(feeds: Feeds, k: Key, b: Bucket, resp: Resp, feeds': Feeds)
    requires FeedOk(FeedOf(feeds, k)) && LastRead(feeds, k, b) && !Live(Some(b))
    requires KubeServes(feeds, PatchFinalizers(k, Some(b.finalizers + [BUCKET_FINALIZER])), resp, feeds')
    ensures FeedOk(FeedOf(feeds', k)) && StillLive(feeds, feeds', k)
    ensures resp.GotBucket? ==> Anchored(feeds', k, resp.b.spec)
  {
    var list := b.finalizers + [BUCKET_FINALIZER];
    assert BUCKET_FINALIZER in list;
    PatchAppends(feeds, PatchFinalizers(k, Some(list)), resp, feeds');
    if FeedOf(feeds', k) != FeedOf(feeds, k) {
      FeedAppend(FeedOf(feeds, k), Current(feeds', k));
    }
  }

  lemma ReportKeeps(feeds: Feeds, k: Key, spec: Spec, status: Option<Status>, resp: Resp, feeds': Feeds)
    requires FeedOk(FeedOf(feeds, k)) && Anchored(feeds, k, spec)
    requires KubeServes(feeds, PatchStatus(k, status), resp, feeds')
    ensures FeedOk(FeedOf(feeds', k)) && StillLive(feeds, feeds', k)
    ensures resp.GotBucket? ==> Anchored(feeds', k, resp.b.spec)
  {
    PatchAppends(feeds, PatchStatus(k, status), resp, feeds');
    var f := FeedOf(feeds, k);
    if FeedOf(feeds', k) != f {
      if Live(f[0]) && Marked(f[0]) {
        DeletionRead(f);
      }
      FeedAppend(f, Current(feeds', k));
    }
  }

  lemma ReleaseKeeps(feeds: Feeds, k: Key, b: Bucket, resp: Resp, feeds': Feeds)
    requires FeedOk(FeedOf(feeds, k)) && LastRead(feeds, k, b) && b.deleting
    requires KubeServes(feeds, ReleasePatch(k, b).kube, resp, feeds')
    ensures FeedOk(FeedOf(feeds', k))
    ensures !Live(Some(b)) ==> FeedOf(feeds', k) == FeedOf(feeds, k)
  {
    PatchAppends(feeds, ReleasePatch(k, b).kube, resp, feeds');
    if FeedOf(feeds', k) != FeedOf(feeds, k) {
      FeedAppend(FeedOf(feeds, k), Current(feeds', k));
    }
  }

  /** The patches keep the feed in order, and only a release takes the finalizer off. */
  lemma PatchKeeps(w: World, k: Key, pc: Pc, r: Req, resp: Resp, w': World)
    requires FeedOk(FeedOf(w.feeds, k)) && WorkerOk(w, k, pc) && !pc.Idle?
    requires r.Kube? && Allowed(w.provider, k, pc, r)
    requires w' == w.(feeds := w'.feeds) && KubeServes(w.feeds, r.kube, resp, w'.feeds)
    ensures FeedOk(FeedOf(w'.feeds, k)) && WorkerOk(w', k, Next(w.provider, pc, r, resp))
    ensures StillLive(w.feeds, w'.feeds, k) || Nothing(w, k)
  {
    hide FeedOk, KubeServes, AccountName;
    if pc.Finalizing? {
      FinalizeKeeps(w.feeds, k, pc.b, resp, w'.feeds);
    } else if pc.Reporting? {
      ReportKeeps(w.feeds, k, pc.b.spec, r.kube.status, resp, w'.feeds);
    } else {
      ReleaseKeeps(w.feeds, k, pc.b, resp, w'.feeds);
    }
  }

  /** Once its deletion has been read, a resource that still carries the finalizer is marked. */
  lemma DeletionRead(f: Feed)
    requires FeedOk(f) && Live(f[0]) && Marked(f[0])
    ensures Live(Latest(f)) ==> Marked(Latest(f))
  {
    assert |f| > 1 && Live(f[|f| - 1]) ==> Marked(f[|f| - 1]);
  }

  lemma EndKeeps(s: Sys, k: Key, s': Sys)
    requires Inv(s) && EndStep(s, k, s')
    ensures Inv(s')
  {
    assert forall k' :: k' != k ==> PcOf(s', k') == PcOf(s, k');
  }

  lemma StepKeeps(s: Sys, s': Sys)
    requires Inv(s) && Step(s, s')
    ensures Inv(s')
  {
    if k, r, resp :| CallStep(s, k, r, resp, s') {
      if r.Kube? {
        KubeCallKeeps(s, k, r, resp, s');
      } else {
        CloudCallKeeps(s, k, r, resp, s');
      }
    } else if k :| EndStep(s, k, s') {
      EndKeeps(s, k, s');
    } else {
      EnvKeeps(s, s');
    }
  }

  lemma {:induction false} RunKeeps(run: seq<Sys>, i: nat)
    requires IsRun(run) && Init(run[0]) && i < |run|
    ensures Inv(run[i])
  {
    if i == 0 {
      InitInv(run[0]);
    } else {
      RunKeeps(run, i - 1);
      assert Step(run[i - 1], run[i - 1 + 1]);
      StepKeeps(run[i - 1], run[i]);
    }
  }

  /** A resource made for `k` is left behind when `k` no longer carries the finalizer. */
  ghost predicate Orphans(w: World, k: Key) {
    !(Current(w.feeds, k).Some? && "objectstorage.giantswarm.io/bucket" in Current(w.feeds, k).value.finalizers) &&
    exists t :: Maker(w, t) == Some(k)
  }

  /**
   In every state of every run, a bucket, role, account, container or secret the
   operator made belongs to a Bucket resource that still carries the finalizer.
   */
  lemma NoOrphansInRuns(run: seq<Sys>, i: nat, k: Key)
    requires IsRun(run) && Init(run[0]) && i < |run|
    ensures !Orphans(run[i].w, k)
  {
    RunKeeps(run, i);
  }
}
