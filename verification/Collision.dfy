/**
 Two buckets on one storage account: a run in which deleting one bucket takes the
 container of the other with it, for every pair of names that are sanitised alike.
 */
module Collision {
  import opened Base
  import opened Cloud
  import opened Names
  import opened Protocol
  import opened Sessions
  import opened NoOrphans

  function LastOf(run: seq<Sys>): Sys
    requires run != []
  {
    run[|run| - 1]
  }

  /** `s` after the call `r` of `k` was answered. */
  function Called(s: Sys, k: Key, r: Req, resp: Resp, w: World): Sys {
    Sys(w, s.pcs[k := Next(s.w.provider, PcOf(s, k), r, resp)], s.log + [Entry(k, r, resp)])
  }

  /** One more call of `k`. */
  lemma Calls(run: seq<Sys>, k: Key, r: Req, resp: Resp, w: World) returns (run': seq<Sys>)
    requires run != [] && IsRun(run) && Allowed(LastOf(run).w.provider, k, PcOf(LastOf(run), k), r)
    requires Serves(LastOf(run).w, k, r, resp, w)
    ensures run' != [] && IsRun(run') && run'[0] == run[0] && |run'| == |run| + 1 && run'[|run| - 1] == LastOf(run)
    ensures LastOf(run') == Called(LastOf(run), k, r, resp, w)
    ensures CallStep(run'[|run| - 1], k, r, resp, run'[|run|])
  {
    hide Serves, Allowed, Next, Step;
    var s := LastOf(run);
    var s' := Called(s, k, r, resp, w);
    ServesProvider(s.w, k, r, resp, w);
    CallIsStep(s, k, r, resp, s');
    RunAppends(run, s');
    run' := run + [s'];
  }

  /** A call on the Azure services, answered without fault. */
  lemma CallsAz(run: seq<Sys>, k: Key, q: AzReq, resp: Resp) returns (run': seq<Sys>)
    requires run != [] && IsRun(run) && Allowed(LastOf(run).w.provider, k, PcOf(LastOf(run), k), OnAz(q)) && AzReply(LastOf(run).w.az, q, resp)
    ensures run' != [] && IsRun(run') && run'[0] == run[0] && |run'| == |run| + 1 && run'[|run| - 1] == LastOf(run)
    ensures LastOf(run').w == LastOf(run).w.(az := AzEffect(LastOf(run).w.az, k, q))
    ensures LastOf(run').pcs == LastOf(run).pcs[k := Next(LastOf(run).w.provider, PcOf(LastOf(run), k), OnAz(q), resp)]
    ensures CallStep(run'[|run| - 1], k, OnAz(q), resp, run'[|run|])
  {
    hide Allowed, Next, AzReply, AzEffect;
    var w := LastOf(run).w;
    run' := Calls(run, k, OnAz(q), resp, w.(az := AzEffect(w.az, k, q)));
  }

  /** A Bucket resource as its user wrote it. */
  function Resource(n: string, finalizers: seq<string>, deleting: bool): Bucket {
    Bucket(Spec(n, None, RECLAIM_DELETE, None, []), finalizers, deleting, Status(false, ""))
  }

  /** A read of an up-to-date cache and the lookup of the cluster. */
  lemma Reads(run: seq<Sys>, k: Key, b: Bucket) returns (run': seq<Sys>)
    requires run != [] && IsRun(run) && PcOf(LastOf(run), k) == Idle && k in LastOf(run).w.feeds && LastOf(run).w.feeds[k] == [Some(b)]
    ensures run' != [] && IsRun(run') && run'[0] == run[0] && LastOf(run').w == LastOf(run).w
    ensures LastOf(run').pcs ==
            LastOf(run).pcs[k := if b.deleting then Probing(b, true) else if BUCKET_FINALIZER in b.finalizers then Probing(b, false) else Finalizing(b)]
  {
    hide BUCKET_FINALIZER, IsRun, Allowed, Next, Serves, CallStep;
    var w := LastOf(run).w;
    ReadFacts(w, k, b);
    var run1 := Calls(run, k, Kube(GetCr(k)), GotBucket(b), w);
    run' := Calls(run1, k, GetCluster, GotCluster(w.cluster), w);
  }

  lemma ReadFacts(w: World, k: Key, b: Bucket)
    requires k in w.feeds && w.feeds[k] == [Some(b)]
    ensures Serves(w, k, Kube(GetCr(k)), GotBucket(b), w) && Serves(w, k, GetCluster, GotCluster(w.cluster), w)
    ensures Allowed(w.provider, k, Idle, Kube(GetCr(k))) && Next(w.provider, Idle, Kube(GetCr(k)), GotBucket(b)) == Preparing(b)
    ensures Allowed(w.provider, k, Preparing(b), GetCluster)
    ensures Next(w.provider, Preparing(b), GetCluster, GotCluster(w.cluster)) ==
            if b.deleting then Probing(b, true) else if BUCKET_FINALIZER in b.finalizers then Probing(b, false) else Finalizing(b)
  {
    hide BUCKET_FINALIZER;
    assert ReadsAt(w.feeds, k, 0, GotBucket(b), w.feeds) by {
      assert w.feeds[k][0..] == w.feeds[k];
      assert w.feeds[k := w.feeds[k]] == w.feeds;
    }
  }

  /** Registering the finalizer and finding that there is no account yet. */
  lemma Registers(run: seq<Sys>, k: Key, n: string) returns (run': seq<Sys>)
    requires run != [] && IsRun(run) && LastOf(run).w.provider.Azure? && PcOf(LastOf(run), k) == Finalizing(Resource(n, [], false))
    requires k in LastOf(run).w.feeds && LastOf(run).w.feeds[k] == [Some(Resource(n, [], false))]
    requires AccountName(n) !in LastOf(run).w.az.accounts && AccountName(n) !in LastOf(run).w.az.taken
    ensures run' != [] && IsRun(run') && run'[0] == run[0]
    ensures var b := Resource(n, [BUCKET_FINALIZER], false);
            && LastOf(run').w == LastOf(run).w.(feeds := LastOf(run).w.feeds[k := LastOf(run).w.feeds[k] + [Some(b)]])
            && LastOf(run').pcs == LastOf(run).pcs[k := Provisioning(b, AtSettings)]
  {
    hide BUCKET_FINALIZER, AccountName, AzEffect, Provides, Provided, IsRun, CallStep;
    var w, a := LastOf(run).w, AccountName(n);
    var b := Resource(n, [BUCKET_FINALIZER], false);
    assert [] + [BUCKET_FINALIZER] == [BUCKET_FINALIZER];
    var q := PatchFinalizers(k, Some([BUCKET_FINALIZER]));
    var w1 := w.(feeds := w.feeds[k := w.feeds[k] + [Some(b)]]);
    assert KubeReplies(w.feeds, q, GotBucket(b), w1.feeds);
    run' := Calls(run, k, Kube(q), GotBucket(b), w1);
    CheckChangesNothing(w1.az, k, a);
    run' := CallsAz(run', k, CheckName(a), Flag(true));
  }

  lemma CheckChangesNothing(x: Az, k: Key, a: string)
    ensures AzEffect(x, k, CheckName(a)) == x && AzReply(x, CheckName(a), Flag(a !in x.accounts && a !in x.taken))
  {
  }

  lemma StageCallsAz(run: seq<Sys>, k: Key, b: Bucket, at: Stage, q: AzReq, resp: Resp) returns (run': seq<Sys>)
    requires run != [] && IsRun(run) && LastOf(run).w.provider.Azure? && PcOf(LastOf(run), k) == Provisioning(b, at)
    requires !AwsStage(at) && Provides(k, b, at, OnAz(q)) && AzReply(LastOf(run).w.az, q, resp) && !resp.Failed?
    ensures run' != [] && IsRun(run') && run'[0] == run[0] && |run'| == |run| + 1 && run'[|run| - 1] == LastOf(run)
    ensures LastOf(run').w == LastOf(run).w.(az := AzEffect(LastOf(run).w.az, k, q))
    ensures LastOf(run').pcs == LastOf(run).pcs[k := Provided(b, at, resp)]
  {
    hide Provides, Provided, AzReply, AzEffect, Allowed, Next;
    StageCalls(Azure, k, b, at, OnAz(q));
    run' := CallsAz(run, k, q, resp);
  }

  lemma ReadsSettings(run: seq<Sys>, k: Key, b: Bucket) returns (run': seq<Sys>)
    requires run != [] && IsRun(run) && LastOf(run).w.provider.Azure? && PcOf(LastOf(run), k) == Provisioning(b, AtSettings) && !LastOf(run).w.isPrivate
    ensures run' != [] && IsRun(run') && run'[0] == run[0]
    ensures LastOf(run').w == LastOf(run).w && LastOf(run').pcs == LastOf(run).pcs[k := Provisioning(b, AtNameCheck(false))]
  {
    run' := Calls(run, k, GetUserValues, Flag(false), LastOf(run).w);
  }

  /** The account with its only container, both new. */
  function NewAccount(k: Key, n: string): Account {
    Account(true, map[], map[n := Container(map[], Some(k))], map[], Some(k))
  }

  /** The account is created. */
  lemma BuildsAccount(run: seq<Sys>, k: Key, b: Bucket) returns (run': seq<Sys>)
    requires run != [] && IsRun(run) && LastOf(run).w.provider.Azure? && PcOf(LastOf(run), k) == Provisioning(b, AtSettings) && !LastOf(run).w.isPrivate
    requires AccountName(b.spec.name) !in LastOf(run).w.az.accounts && AccountName(b.spec.name) !in LastOf(run).w.az.taken
    ensures run' != [] && IsRun(run') && run'[0] == run[0]
    ensures LastOf(run').w == LastOf(run).w.(az := AzEffect(LastOf(run).w.az, k, PutAccount(AccountName(b.spec.name), true, map[])))
    ensures LastOf(run').pcs == LastOf(run).pcs[k := Provisioning(b, AtContainerCheck(false))]
  {
    hide AccountName, AzEffect, AzReply, IsRun, Provides, Provided;
    var x, a := LastOf(run).w.az, AccountName(b.spec.name);
    BuildStages(k, b);
    CheckChangesNothing(x, k, a);
    NewAccountMade(x, k, a, b.spec.name);
    var run1 := ReadsSettings(run, k, b);
    var run2 := StageCallsAz(run1, k, b, AtNameCheck(false), CheckName(a), Flag(true));
    run' := StageCallsAz(run2, k, b, AtAccount(false), PutAccount(a, true, map[]), Done);
  }

  /** Account and container are created. */
  lemma Builds(run: seq<Sys>, k: Key, b: Bucket) returns (run': seq<Sys>)
    requires run != [] && IsRun(run) && LastOf(run).w.provider.Azure? && PcOf(LastOf(run), k) == Provisioning(b, AtSettings) && !LastOf(run).w.isPrivate
    requires AccountName(b.spec.name) !in LastOf(run).w.az.accounts && AccountName(b.spec.name) !in LastOf(run).w.az.taken
    ensures run' != [] && IsRun(run') && run'[0] == run[0]
    ensures var x, a := LastOf(run).w.az, AccountName(b.spec.name);
            LastOf(run').w == LastOf(run).w.(az := x.(accounts := x.accounts[a := NewAccount(k, b.spec.name)]))
    ensures forall k' :: k' != k ==> PcOf(LastOf(run'), k') == PcOf(LastOf(run), k')
  {
    hide AccountName, AzEffect, AzReply, IsRun, Provides, Provided;
    var x, a, n := LastOf(run).w.az, AccountName(b.spec.name), b.spec.name;
    BuildStages(k, b);
    NewAccountMade(x, k, a, n);
    var run1 := BuildsAccount(run, k, b);
    var run2 := StageCallsAz(run1, k, b, AtContainerCheck(false), GetContainer(a, n), Missing);
    run' := StageCallsAz(run2, k, b, AtContainer(false, false), CreateContainer(a, n, map[]), Done);
  }

  lemma BuildStages(k: Key, b: Bucket)
    ensures var a, n := AccountName(b.spec.name), b.spec.name;
            && Provides(k, b, AtNameCheck(false), OnAz(CheckName(a)))
            && Provided(b, AtNameCheck(false), Flag(true)) == Provisioning(b, AtAccount(false))
            && Provides(k, b, AtAccount(false), OnAz(PutAccount(a, true, map[])))
            && Provided(b, AtAccount(false), Done) == Provisioning(b, AtContainerCheck(false))
            && Provides(k, b, AtContainerCheck(false), OnAz(GetContainer(a, n)))
            && Provided(b, AtContainerCheck(false), Missing) == Provisioning(b, AtContainer(false, false))
            && Provides(k, b, AtContainer(false, false), OnAz(CreateContainer(a, n, map[])))
  {
    hide AccountName;
  }

  lemma NewAccountMade(x: Az, k: Key, a: string, n: string)
    requires a !in x.accounts && a !in x.taken
    ensures var y := AzEffect(x, k, PutAccount(a, true, map[]));
            && AzReply(x, PutAccount(a, true, map[]), Done)
            && AzReply(y, GetContainer(a, n), Missing) && AzEffect(y, k, GetContainer(a, n)) == y
            && AzReply(y, CreateContainer(a, n, map[]), Done)
            && AzEffect(y, k, CreateContainer(a, n, map[])) == x.(accounts := x.accounts[a := NewAccount(k, n)])
  {
    var y := AzEffect(x, k, PutAccount(a, true, map[]));
    assert y.accounts[a] == Account(true, map[], map[], map[], Some(k));
    assert y.accounts[a := NewAccount(k, n)] == x.accounts[a := NewAccount(k, n)];
  }

  /** Existence check and deletion of the account. */
  lemma Drops(run: seq<Sys>, k: Key, b: Bucket) returns (run': seq<Sys>)
    requires run != [] && IsRun(run) && LastOf(run).w.provider.Azure? && PcOf(LastOf(run), k) == Probing(b, true)
    requires b.spec.reclaimPolicy == RECLAIM_DELETE && HasContainer(LastOf(run).w.az, AccountName(b.spec.name), b.spec.name)
    ensures run' != [] && IsRun(run') && run'[0] == run[0] && |run'| > |run| + 1
    ensures var x, a := LastOf(run).w.az, AccountName(b.spec.name);
            && run'[|run'| - 2].w == LastOf(run).w && PcOf(run'[|run'| - 2], k) == Destroying(b)
            && CallStep(run'[|run'| - 2], k, OnAz(DropAccount(a)), Done, LastOf(run'))
            && LastOf(run').w == LastOf(run).w.(az := x.(accounts := x.accounts - {a}))
  {
    hide AccountName, RECLAIM_DELETE, Allowed, Next, AzReply, AzEffect, IsRun, CallStep;
    var a, n := AccountName(b.spec.name), b.spec.name;
    DropStages(k, b);
    DropEffects(LastOf(run).w.az, k, a, n);
    run' := CallsAz(run, k, CheckName(a), Flag(false));
    run' := CallsAz(run', k, GetContainer(a, n), Done);
    run' := CallsAz(run', k, DropAccount(a), Done);
  }

  lemma DropStages(k: Key, b: Bucket)
    requires b.spec.reclaimPolicy == RECLAIM_DELETE
    ensures var a, n := AccountName(b.spec.name), b.spec.name;
            && Allowed(Azure, k, Probing(b, true), OnAz(CheckName(a)))
            && Next(Azure, Probing(b, true), OnAz(CheckName(a)), Flag(false)) == ProbingContainer(b, true)
            && Allowed(Azure, k, ProbingContainer(b, true), OnAz(GetContainer(a, n)))
            && Next(Azure, ProbingContainer(b, true), OnAz(GetContainer(a, n)), Done) == Destroying(b)
            && Allowed(Azure, k, Destroying(b), OnAz(DropAccount(a)))
  {
    hide AccountName, Provides, Provided, RECLAIM_DELETE;
  }

  lemma DropEffects(x: Az, k: Key, a: string, n: string)
    requires HasContainer(x, a, n)
    ensures AzReply(x, CheckName(a), Flag(false)) && AzEffect(x, k, CheckName(a)) == x
    ensures AzReply(x, GetContainer(a, n), Done) && AzEffect(x, k, GetContainer(a, n)) == x
    ensures AzReply(x, DropAccount(a), Done) && AzEffect(x, k, DropAccount(a)) == x.(accounts := x.accounts - {a})
  {
  }

  /** Somebody else adds a container to the account. */
  lemma Adds(run: seq<Sys>, a: string, n: string) returns (run': seq<Sys>)
    requires run != [] && IsRun(run) && a in LastOf(run).w.az.accounts && n !in LastOf(run).w.az.accounts[a].containers
    ensures run' != [] && IsRun(run') && run'[0] == run[0] && LastOf(run').pcs == LastOf(run).pcs
    ensures var x := LastOf(run).w.az;
            var account := x.accounts[a].(containers := x.accounts[a].containers[n := Container(map[], None)]);
            LastOf(run').w == LastOf(run).w.(az := x.(accounts := x.accounts[a := account]))
  {
    hide CallStep, EnvStep, IsRun;
    var s := LastOf(run);
    var x := s.w.az;
    var account := x.accounts[a].(containers := x.accounts[a].containers[n := Container(map[], None)]);
    var s' := s.(w := s.w.(az := x.(accounts := x.accounts[a := account])));
    AdditionIsUserStep(s, a, n);
    RunAppends(run, s');
    run' := run + [s'];
  }

  lemma AdditionIsUserStep(s: Sys, a: string, n: string)
    requires a in s.w.az.accounts && n !in s.w.az.accounts[a].containers
    ensures var x := s.w.az;
            var account := x.accounts[a].(containers := x.accounts[a].containers[n := Container(map[], None)]);
            EnvStep(s, s.(w := s.w.(az := x.(accounts := x.accounts[a := account]))))
  {
  }

  /** Two resources, one of them marked for deletion, and an empty cloud. */
  function Start(k: Key, n: string, k': Key, n': string): Sys {
    var feeds: Feeds := map[k := [Some(Resource(n, ["other"], true))], k' := [Some(Resource(n', [], false))]];
    Sys(World(Azure, Cluster("", "", "", "", map[]), false, feeds, map[], Iam(map[], map[]),
              Az(map[], map[], map[], {}, map[], map[]), map[]), map[], [])
  }

  lemma StartsRun(s: Sys)
    ensures IsRun([s])
  {
  }

  lemma StartIsInit(k: Key, n: string, k': Key, n': string)
    requires k != k'
    ensures Init(Start(k, n, k', n'))
  {
    assert ["other"][0] == "other" && "other"[1] != BUCKET_FINALIZER[1];
  }

  lemma TwoKeys(k: Key, k': Key)
    requires k.name == "second" && k'.name == "first"
    ensures k != k'
  {
    assert k.name[0] != k'.name[0];
  }

  /**
   For every two names that are sanitised alike there is a run in which the container
   made for one resource disappears by the deletion of another, while the first
   resource is not even marked.
   */
  lemma CollisionHappens(n: string, n': string) returns (run: seq<Sys>, k: Key, k': Key)
    requires n != n' && AccountName(n) == AccountName(n')
    ensures IsRun(run) && Init(run[0]) && |run| > 1 && k != k'
    ensures var s, s', a := run[|run| - 2], run[|run| - 1], AccountName(n);
            && CallStep(s, k, OnAz(DropAccount(a)), Done, s')
            && Maker(s.w, AContainer(a, n')) == Some(k') && !HasContainer(s'.w.az, a, n')
            && Live(Current(s'.w.feeds, k')) && !Current(s'.w.feeds, k').value.deleting
  {
    hide AccountName, CallStep, Init, IsRun, BUCKET_FINALIZER, RECLAIM_DELETE;
    k, k' := Key("ns", "second"), Key("ns", "first");
    TwoKeys(k, k');
    var a, b, b' := AccountName(n), Resource(n, ["other"], true), Resource(n', [BUCKET_FINALIZER], false);
    StartIsInit(k, n, k', n');
    var run0 := [Start(k, n, k', n')];
    StartsRun(run0[0]);
    var run1 := Reads(run0, k', Resource(n', [], false));
    var run2 := Registers(run1, k', n');
    var run3 := Builds(run2, k', b');
    assert PcOf(LastOf(run3), k) == Idle;
    var run4 := Adds(run3, a, n);
    var run5 := Reads(run4, k, b);
    run := Drops(run5, k, b);
  }
}
