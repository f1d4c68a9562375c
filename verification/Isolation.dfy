/**
 Whose resources a reconciliation can touch on Azure, and what becomes of a
 deletion that fails half-way.
 */
module Isolation {
  import opened Base
  import opened Cloud
  import opened Names
  import opened Protocol
  import opened NoOrphans

  // ----------------------------------------------------------- non-interference

  function Lookup<K, V>(m: map<K, V>, k: K): Option<V> {
    if k in m then Some(m[k]) else None
  }

  /** Everything on Azure that belongs to bucket `n` of resource `k`. */
  datatype View = View(
    account: Option<Account>,
    endpoint: Option<Endpoint>,
    records: Option<RecordSet>,
    secret: Option<Secret>)

  function ViewOf(w: World, k: Key, n: string): View {
    View(
      Lookup(w.az.accounts, AccountName(n)),
      Lookup(w.az.endpoints, n),
      Lookup(w.az.records, AccountName(n)),
      Lookup(w.secrets, Key(k.namespace, n)))
  }

  predicate NameInFeed(f: Feed, n: string) {
    exists i :: 0 <= i < |f| && f[i].Some? && f[i].value.spec.name == n
  }

  /** No bucket name of one resource is sanitised like a bucket name of another. */
  ghost predicate DistinctAccounts(w: World) {
    forall k, k', n, n' :: k != k' && NameInFeed(FeedOf(w.feeds, k), n) && NameInFeed(FeedOf(w.feeds, k'), n') ==>
      AccountName(n) != AccountName(n')
  }

  /** Every account, endpoint, record set or secret a call names belongs to the caller's copy. */
  lemma CallNamesOwn(k: Key, pc: Pc, r: Req)
    requires Allowed(Azure, k, pc, r) && (r.OnAz? || r.OnSecret?)
    ensures !pc.Idle?
    ensures r.OnSecret? ==> r.secret.s == Key(k.namespace, pc.b.spec.name)
    ensures r.OnAz? ==> r.az.a == AccountName(pc.b.spec.name) && (r.az.PutEndpoint? ==> r.az.n == pc.b.spec.name)
  {
  }

  lemma LocalLookups(x: Az, x': Az, a: string, n: string, a': string, n': string)
    requires Local(x, x', a, n) && a' != a && n' != n
    ensures Lookup(x'.accounts, a') == Lookup(x.accounts, a') && Lookup(x'.records, a') == Lookup(x.records, a')
    ensures Lookup(x'.endpoints, n') == Lookup(x.endpoints, n')
  {
    SameElsewhere(x.accounts, x'.accounts, a, a');
    SameElsewhere(x.records, x'.records, a, a');
    SameElsewhere(x.endpoints, x'.endpoints, n, n');
  }

  lemma SameElsewhere<K, V>(m: map<K, V>, m': map<K, V>, k: K, k': K)
    requires m' - {k} == m - {k} && k' != k
    ensures Lookup(m', k') == Lookup(m, k')
  {
    assert k' in m' <==> k' in m' - {k};
    assert k' in m <==> k' in m - {k};
    assert k' in m ==> (m - {k})[k'] == m[k'];
  }

  /** A call changes nothing but what it names. */
  lemma CallIsLocal(w: World, k: Key, n: string, r: Req, resp: Resp, w': World, k': Key, n': string)
    requires Serves(w, k, r, resp, w')
    requires r.OnSecret? ==> r.secret.s == Key(k.namespace, n)
    requires r.OnAz? ==> r.az.a == AccountName(n) && (r.az.PutEndpoint? ==> r.az.n == n)
    requires AccountName(n') != AccountName(n)
    ensures ViewOf(w', k', n') == ViewOf(w, k', n')
  {
    hide AccountName, AzEffect, AzReply, SecretReply, KubeServes, S3Serves, IamServes, Local;
    if r.OnAz? {
      EffectIsLocal(w.az, k, r.az, n);
      LocalLookups(w.az, w'.az, AccountName(n), n, AccountName(n'), n');
    }
  }

  lemma OtherServices(w: World, k: Key, r: Req, resp: Resp, w': World)
    requires Serves(w, k, r, resp, w') && !r.OnAz? && !r.OnSecret?
    ensures w'.az == w.az && w'.secrets == w.secrets
  {
    hide KubeServes, S3Serves, IamServes;
  }

  /** The name a worker works under is one its resource has had. */
  lemma WorkerNameInFeed(w: World, k: Key, pc: Pc)
    requires WorkerOk(w, k, pc) && !pc.Idle?
    ensures NameInFeed(FeedOf(w.feeds, k), pc.b.spec.name)
  {
    var f := FeedOf(w.feeds, k);
    assert f[0] == Some(pc.b) || Anchored(w.feeds, k, pc.b.spec);
    assert f[|f| - 1] == Current(w.feeds, k);
  }

  /**
   In every run, a call made for one resource leaves the account with its containers,
   the endpoint, the records and the secret of every other resource as they are, as
   long as no two resources' bucket names are sanitised to the same account name.
   */
  lemma CallsDoNotInterfere(run: seq<Sys>, i: nat, k: Key, r: Req, resp: Resp, k': Key, n': string)
    requires IsRun(run) && Init(run[0]) && i + 1 < |run|
    requires CallStep(run[i], k, r, resp, run[i + 1]) && run[i].w.provider.Azure?
    requires DistinctAccounts(run[i].w)
    requires k' != k && NameInFeed(FeedOf(run[i].w.feeds, k'), n')
    ensures ViewOf(run[i + 1].w, k', n') == ViewOf(run[i].w, k', n')
  {
    hide Serves, Allowed, WorkerOk, Next;
    RunKeeps(run, i);
    var pc := PcOf(run[i], k);
    if r.OnAz? || r.OnSecret? {
      CallNamesOwn(k, pc, r);
      assert WorkerOk(run[i].w, k, pc);
      WorkerNameInFeed(run[i].w, k, pc);
      CallIsLocal(run[i].w, k, pc.b.spec.name, r, resp, run[i + 1].w, k', n');
    } else {
      OtherServices(run[i].w, k, r, resp, run[i + 1].w);
    }
  }

  /**
   The condition cannot be dropped: in every run, when the account of one resource is
   deleted, the container made for another resource `k'` survives exactly when the two
   bucket names are sanitised differently, and `k'` carries the finalizer either way.
   */
  lemma CollisionDestroys(run: seq<Sys>, i: nat, k: Key, k': Key, n': string)
    requires IsRun(run) && Init(run[0]) && i + 1 < |run| && PcOf(run[i], k).Destroying?
    requires var n := PcOf(run[i], k).b.spec.name;
             CallStep(run[i], k, OnAz(DropAccount(AccountName(n))), Done, run[i + 1])
    requires Maker(run[i].w, AContainer(AccountName(n'), n')) == Some(k')
    ensures HasContainer(run[i + 1].w.az, AccountName(n'), n') <==> AccountName(PcOf(run[i], k).b.spec.name) != AccountName(n')
    ensures Live(Current(run[i + 1].w.feeds, k'))
  {
    hide Allowed, Next, WorkerOk, FeedOk, AccountName;
    RunKeeps(run, i);
    var w := run[i].w;
    assert Belongs(w, k', AContainer(AccountName(n'), n'));
  }

  /** Two names a dash apart share an account. */
  lemma NamesDoCollide()
    ensures AccountName("a-b") == AccountName("ab")
  {
    assert Filter("-b") == "b";
    assert Filter("a-b") == "ab" == Filter("ab");
  }

  /** While account names are distinct, an account holds at most one container of the operator's. */
  lemma OneContainerPerAccount(run: seq<Sys>, i: nat, a: string, n: string, n': string)
    requires IsRun(run) && Init(run[0]) && i < |run|
    requires DistinctAccounts(run[i].w)
    requires Maker(run[i].w, AContainer(a, n)).Some? && Maker(run[i].w, AContainer(a, n')).Some?
    ensures n == n'
  {
    RunKeeps(run, i);
    var w := run[i].w;
    var k, k' := Maker(w, AContainer(a, n)).value, Maker(w, AContainer(a, n')).value;
    assert Belongs(w, k, AContainer(a, n)) && Belongs(w, k', AContainer(a, n'));
    var f, f' := FeedOf(w.feeds, k), FeedOf(w.feeds, k');
    assert f[|f| - 1] == Current(w.feeds, k) && f'[|f'| - 1] == Current(w.feeds, k');
    assert NameInFeed(f, n) && NameInFeed(f', n');
  }

  // ----------------------------------------------------- deletions that get stuck

  /** What the existence check looks for is not there. */
  predicate Absent(w: World, n: string) {
    if w.provider.Aws? then n !in w.s3 else !HasContainer(w.az, AccountName(n), n)
  }

  /** The deletion mark has been read, the finalizer is on, and the storage is gone. */
  predicate Stuck(s: Sys, k: Key, n: string) {
    var f, pc := FeedOf(s.w.feeds, k), PcOf(s, k);
    && Live(f[0]) && Marked(f[0]) && f[0].value.spec.name == n
    && Live(Latest(f))
    && Absent(s.w, n)
    && (pc.Idle? || pc.Preparing? || ((pc.Probing? || pc.ProbingContainer?) && pc.del))
  }

  /** In such a feed every version is the same resource, marked and finalized. */
  lemma StuckFeed(f: Feed, j: nat)
    requires FeedOk(f) && Live(f[0]) && Marked(f[0]) && Live(Latest(f)) && j < |f|
    ensures Live(f[j]) && Marked(f[j]) && SameBucket(f[0], f[j])
  {
    var m := |f| - 1;
    assert f[m] == Latest(f);
    if j < m {
      assert Live(f[j]);
    }
    if 0 < j {
      assert Live(f[j]);
    }
  }

  lemma StuckRead(s: Sys, k: Key, n: string, r: Req, resp: Resp, s': Sys)
    requires Inv(s) && Stuck(s, k, n) && CallStep(s, k, r, resp, s') && PcOf(s, k).Idle?
    ensures Stuck(s', k, n)
  {
    hide KubeServes, FeedOk, AccountName;
    KubeCallShape(s.w, k, Idle, r, resp, s'.w);
    hide Serves, Allowed;
    var f := FeedOf(s.w.feeds, k);
    assert FeedOk(f);
    var j := ReadMovesOn(s.w.feeds, k, resp, s'.w.feeds);
    StuckFeed(f, j);
  }

  /** The existence check of an absent bucket never leads to its creation or deletion. */
  lemma StuckProbe(s: Sys, k: Key, n: string, r: Req, resp: Resp, s': Sys)
    requires Inv(s) && Stuck(s, k, n) && CallStep(s, k, r, resp, s') && !PcOf(s, k).Idle?
    ensures Stuck(s', k, n)
  {
    var pc := PcOf(s, k);
    assert WorkerOk(s.w, k, pc);
    assert pc.b.spec.name == n && pc.b.deleting;
    assert r == GetCluster || r == OnS3(Head(n)) || r == OnAz(CheckName(AccountName(n))) || r == OnAz(GetContainer(AccountName(n), n));
    assert s'.w == s.w;
  }

  /** The step from `s` to `s'` is a call of `k`'s reconciliation. */
  ghost predicate CalledBy(s: Sys, k: Key, s': Sys) {
    exists r, resp :: CallStep(s, k, r, resp, s')
  }

  lemma StuckOther(s: Sys, k: Key, n: string, s': Sys)
    requires Inv(s) && Stuck(s, k, n) && Step(s, s') && Absent(s'.w, n) && !CalledBy(s, k, s')
    ensures Stuck(s', k, n)
  {
    hide Serves, Allowed, Next, FeedOk, AccountName;
    var f, f' := FeedOf(s.w.feeds, k), FeedOf(s'.w.feeds, k);
    if k', r, resp :| CallStep(s, k', r, resp, s') {
      CallLeavesOthers(s.w, k', PcOf(s, k'), r, resp, s'.w, k);
    } else if k' :| EndStep(s, k', s') {
    } else {
      assert UserFeed(f, f') && FeedOk(f);
      FeedUser(f, f');
    }
  }

  lemma CallLeavesOthers(w: World, k': Key, pc: Pc, r: Req, resp: Resp, w': World, k: Key)
    requires Allowed(w.provider, k', pc, r) && Serves(w, k', r, resp, w') && k' != k
    ensures FeedOf(w'.feeds, k) == FeedOf(w.feeds, k) && w'.provider == w.provider
  {
    hide KubeServes, AccountName;
    if r.Kube? {
      KubeCallShape(w, k', pc, r, resp, w');
      if r.kube.GetCr? {
        var j := ReadMovesOn(w.feeds, k', resp, w'.feeds);
      } else {
        PatchAppends(w.feeds, r.kube, resp, w'.feeds);
      }
    }
  }

  /**
   A deletion that has lost its storage is never completed: as long as nobody else
   recreates the storage, the operator keeps answering "absent", never recreates it
   and never takes the finalizer off.
   */
  lemma {:induction false} StuckForever(run: seq<Sys>, i: nat, k: Key, n: string)
    requires IsRun(run) && Inv(run[0]) && Stuck(run[0], k, n) && i < |run|
    requires forall j :: 0 <= j < |run| - 1 ==>
               Absent(run[j + 1].w, n) || CalledBy(run[j], k, run[j + 1])
    ensures Inv(run[i]) && Stuck(run[i], k, n)
    ensures Live(Current(run[i].w.feeds, k))
  {
    if i > 0 {
      StuckForever(run, i - 1, k, n);
      var s, s' := run[i - 1], run[i - 1 + 1];
      assert Step(s, s');
      StepKeeps(s, s');
      if r, resp :| CallStep(s, k, r, resp, s') {
        if PcOf(s, k).Idle? {
          StuckRead(s, k, n, r, resp, s');
        } else {
          StuckProbe(s, k, n, r, resp, s');
        }
      } else {
        StuckOther(s, k, n, s');
      }
    }
  }

  /** And that is where a reconciliation ends up that stops once the storage is gone but before the release. */
  lemma EndingEarlySticks(s: Sys, k: Key, s': Sys)
    requires Inv(s) && EndStep(s, k, s')
    requires Unwinding(PcOf(s, k)) || PcOf(s, k).Releasing?
    requires Live(Some(PcOf(s, k).b)) && Live(Current(s.w.feeds, k)) && Absent(s.w, PcOf(s, k).b.spec.name)
    ensures Stuck(s', k, PcOf(s, k).b.spec.name)
  {
    assert WorkerOk(s.w, k, PcOf(s, k));
  }

  /** Nor is it completed when it is a failing call that ends the reconciliation. */
  lemma FailingSticks(s: Sys, k: Key, r: Req, resp: Resp, s': Sys)
    requires Inv(s) && CallStep(s, k, r, resp, s') && PcOf(s', k).Idle?
    requires Unwinding(PcOf(s, k)) || PcOf(s, k).Releasing?
    requires Live(Some(PcOf(s, k).b)) && Live(Current(s'.w.feeds, k)) && Absent(s'.w, PcOf(s, k).b.spec.name)
    ensures Stuck(s', k, PcOf(s, k).b.spec.name)
  {
    hide KubeServes, AccountName, Next;
    var pc := PcOf(s, k);
    assert WorkerOk(s.w, k, pc);
    if r.Kube? {
      KubeCallShape(s.w, k, pc, r, resp, s'.w);
      PatchAppends(s.w.feeds, r.kube, resp, s'.w.feeds);
    }
  }

  /** The secret as it was read: marked by somebody, and held by the operator's finalizer alone. */
  predicate MarkedAndHeld(secret: Secret) {
    secret.deleting && Held(secret) && Without(secret.finalizers, SECRET_FINALIZER) == []
  }

  /** Taking the only finalizer off a marked secret removes it, and the deletion that follows finds nothing. */
  lemma MarkedSecretVanishes(x: Secrets, k: Key, s: Key, held: Secret, x': Secrets, resp: Resp, x'': Secrets)
    requires s in x && x[s] == held && MarkedAndHeld(held)
    requires SecretServes(x, k, PatchSecret(s, Unguarded(held.finalizers)), Done, x')
    requires SecretServes(x', k, DeleteSecret(s), resp, x'')
    ensures s !in x' && x'' == x' && (resp == Missing || resp.Failed?)
  {
    hide SECRET_FINALIZER;
  }

  lemma SecretCall(w: World, k: Key, q: SecretReq, resp: Resp, w': World)
    requires Serves(w, k, OnSecret(q), resp, w')
    ensures w' == w.(secrets := w'.secrets) && SecretServes(w.secrets, k, q, resp, w'.secrets)
  {
    hide SecretServes;
  }

  /**
   A user has deleted the secret; the reconciliation reads it, takes its finalizer off and
   asks for its deletion. Whatever the answers, the finalizer of the Bucket resource stays
   for good, as long as nobody else recreates the storage.
   */
  lemma UserDeletedSecretSticks(run: seq<Sys>, i: nat, k: Key, b: Bucket, held: Secret, resp: Resp)
    requires IsRun(run) && Inv(run[0]) && 2 <= i < |run| && run[0].w.provider.Azure?
    requires PcOf(run[0], k) == UnguardingSecret(b, held) && Live(Some(b)) && Live(Current(run[0].w.feeds, k))
    requires SecretKey(k, b) in run[0].w.secrets && run[0].w.secrets[SecretKey(k, b)] == held && MarkedAndHeld(held)
    requires CallStep(run[0], k, OnSecret(PatchSecret(SecretKey(k, b), Unguarded(held.finalizers))), Done, run[1])
    requires CallStep(run[1], k, OnSecret(DeleteSecret(SecretKey(k, b))), resp, run[2])
    requires Absent(run[0].w, b.spec.name)
    requires forall j :: 2 <= j < |run| - 1 ==> Absent(run[j + 1].w, b.spec.name) || CalledBy(run[j], k, run[j + 1])
    ensures Stuck(run[i], k, b.spec.name) && Live(Current(run[i].w.feeds, k))
  {
    hide Serves, SecretServes, Inv, Allowed, AccountName, MarkedAndHeld, Unguarded;
    var x, w := SecretKey(k, b), run[0].w;
    assert Step(run[0], run[0 + 1]) && Step(run[1], run[1 + 1]);
    StepKeeps(run[0], run[1]);
    StepKeeps(run[1], run[2]);
    SecretCall(w, k, PatchSecret(x, Unguarded(held.finalizers)), Done, run[1].w);
    SecretCall(run[1].w, k, DeleteSecret(x), resp, run[2].w);
    MarkedSecretVanishes(w.secrets, k, x, held, run[1].w.secrets, resp, run[2].w.secrets);
    assert PcOf(run[1], k) == DeletingSecret(b) && PcOf(run[2], k).Idle?;
    assert run[2].w.feeds == w.feeds && run[2].w.az == w.az;
    FailingSticks(run[1], k, OnSecret(DeleteSecret(x)), resp, run[2]);
    SuffixSticks(run, i, k, b.spec.name);
  }

  lemma SuffixSticks(run: seq<Sys>, i: nat, k: Key, n: string)
    requires IsRun(run) && 2 <= i < |run| && Inv(run[2]) && Stuck(run[2], k, n)
    requires forall j :: 2 <= j < |run| - 1 ==> Absent(run[j + 1].w, n) || CalledBy(run[j], k, run[j + 1])
    ensures Stuck(run[i], k, n) && Live(Current(run[i].w.feeds, k))
  {
    hide Step, Inv, Stuck, CalledBy, Absent;
    var rest := run[2..];
    forall j | 0 <= j < |rest| - 1
      ensures Step(rest[j], rest[j + 1])
      ensures Absent(rest[j + 1].w, n) || CalledBy(rest[j], k, rest[j + 1])
    {
      assert rest[j] == run[j + 2] && rest[j + 1] == run[j + 2 + 1];
    }
    StuckForever(rest, i - 2, k, n);
  }
}
