/**
 Repeated reconciliations: failures before a success leave no trace, and a success
 after a success changes nothing.
 */
module Convergence {
  import opened Base
  import opened Cloud
  import opened Names
  import opened Protocol
  import opened Tags
  import opened IamAdapter
  import opened Reconciler
  import S3Adapter
  import AzureAdapter

  // ------------------------------------------------------------------------- failures

  /** Maps that agree everywhere but at `k` are equal once `k` is overwritten. */
  lemma OverwrittenAlike<K, V>(m: map<K, V>, m': map<K, V>, k: K, v: V)
    requires m - {k} == m' - {k}
    ensures m[k := v] == m'[k := v]
  {
    assert m[k := v] - {k} == m - {k} && m'[k := v] - {k} == m' - {k};
    AzureAdapter.SameMap(m[k := v], m'[k := v], k);
  }

  lemma BucketSettlesAlike(w: World, w': World, k: Key, spec: Spec, c: Cluster)
    requires AwsSpared(w, w', k, spec.name, RoleName(spec))
    ensures BucketSettled(w'.s3, k, spec, c) == BucketSettled(w.s3, k, spec, c)
  {
    hide Wanted, Touched, OthersKept;
    var n := spec.name;
    var y, y' := S3Adapter.WithBucket(w.s3, k, n), S3Adapter.WithBucket(w'.s3, k, n);
    assert y - {n} == w.s3 - {n} && y' - {n} == w'.s3 - {n};
    assert S3Adapter.ConfiguredBucket(y[n], spec, c) == S3Adapter.ConfiguredBucket(y'[n], spec, c);
    OverwrittenAlike(y, y', n, S3Adapter.ConfiguredBucket(y[n], spec, c));
  }

  lemma RoleSettlesAlike(x: Iam, x': Iam, k: Key, spec: Spec, c: Cluster)
    requires HasRole(spec) && Touched(x, x', k, RoleName(spec))
    ensures RoleSettled(x', k, spec, c) == RoleSettled(x, k, spec, c)
  {
    hide Wanted, TrustOf, PolicyOf;
    var r := RoleName(spec);
    var blank := Role("", map[], {}, map[], Some(k));
    var role := if r in x.roles then x.roles[r] else blank;
    var role' := if r in x'.roles then x'.roles[r] else blank;
    OverwrittenAlike(role.inline, role'.inline, r, PolicyOf(spec, c));
    assert ConfiguredRole(role', spec, c) == ConfiguredRole(role, spec, c);
    assert x.roles - {r} == x'.roles - {r};
    OverwrittenAlike(x.roles, x'.roles, r, ConfiguredRole(role, spec, c));
  }

  /**
   A reconciliation of `k`, whose stored spec is `spec`, that may have failed anywhere; it
   may have read an older version with the same spec.
   */
  ghost predicate Attempted(w: World, w': World, k: Key, spec: Spec) {
    && Current(w.feeds, k).Some? && Current(w.feeds, k).value.spec == spec
    && exists b: Bucket :: b.spec == spec && Spared(w, w', k, b)
  }

  ghost predicate Attempts(ws: seq<World>, k: Key, spec: Spec) {
    |ws| > 0 && forall i :: 0 <= i < |ws| - 1 ==> Attempted(ws[i], ws[i + 1], k, spec)
  }

  lemma AttemptSpares(w: World, w': World, k: Key, spec: Spec)
    requires Attempted(w, w', k, spec)
    ensures w'.provider == w.provider && w'.isPrivate == w.isPrivate
    ensures if w.provider.Aws? then AwsSpared(w, w', k, spec.name, RoleName(spec)) else AzureSpared(w, w', k, spec)
  {
    hide AccountName, Touched, Local, AccountSpared, AzureAdapter.HasCredentials, AzureAdapter.CredentialsStored;
    var b: Bucket :| b.spec == spec && Spared(w, w', k, b);
    assert Copy(w.feeds, k, b).spec == spec && StoredRole(w.feeds, k) == RoleName(spec);
  }

  /**
   On AWS, after any number of attempts cut short by failures, success leads to what
   success would have led to right away, bucket and role both.
   */
  lemma {:induction false} FailuresLeaveNoTrace(ws: seq<World>, k: Key, spec: Spec, c: Cluster)
    requires Attempts(ws, k, spec) && ws[0].provider.Aws?
    ensures ws[|ws| - 1].provider.Aws?
    ensures BucketSettled(ws[|ws| - 1].s3, k, spec, c) == BucketSettled(ws[0].s3, k, spec, c)
    ensures RoleSettled(ws[|ws| - 1].iam, k, spec, c) == RoleSettled(ws[0].iam, k, spec, c)
  {
    hide BucketSettled, RoleSettled, Attempted;
    if |ws| > 1 {
      var m := |ws| - 2;
      FailuresLeaveNoTrace(ws[..m + 1], k, spec, c);
      assert Attempted(ws[m], ws[m + 1], k, spec);
      AttemptSpares(ws[m], ws[m + 1], k, spec);
      BucketSettlesAlike(ws[m], ws[m + 1], k, spec, c);
      if ws[m + 1].iam != ws[m].iam {
        RoleSettlesAlike(ws[m].iam, ws[m + 1].iam, k, spec, c);
      }
    }
  }

  /**
   AWS convergence: from any state, after any number of failed attempts, one successful
   reconciliation leaves exactly what spec and cluster ask for in place of what there
   was before the first attempt.
   */
  lemma AwsConverges(ws: seq<World>, w': World, k: Key, b: Bucket, c: Cluster)
    requires Attempts(ws, k, b.spec) && ws[0].provider.Aws?
    requires AwsSettled(ws[|ws| - 1], w', k, b, c)
    requires Current(ws[|ws| - 1].feeds, k).value.spec == b.spec
    ensures w'.s3 == BucketSettled(ws[0].s3, k, b.spec, c)
    ensures w'.iam == RoleSettled(ws[0].iam, k, b.spec, c)
  {
    hide BucketSettled, RoleSettled, Attempts, Recorded, OthersKept;
    FailuresLeaveNoTrace(ws, k, b.spec, c);
  }

  /** What configuring leads to does not depend on whether it was done before. */
  lemma ConfiguredPoliciesTwice(policies: map<string, int>, expiration: Option<int>)
    ensures var once := AzureAdapter.ConfiguredPolicies(policies, expiration);
            AzureAdapter.ConfiguredPolicies(once, expiration) == once
  {
  }

  /** The account `a` of `y` with other policies on it. */
  function WithPolicies(y: Az, a: string, policies: map<string, int>): Az
    requires a in y.accounts
  {
    y.(accounts := y.accounts[a := y.accounts[a].(policies := policies)])
  }

  lemma WithPoliciesIsLocal(x: Az, y: Az, a: string, n: string, policies: map<string, int>)
    requires Local(x, y, a, n) && a in y.accounts
    ensures Local(x, WithPolicies(y, a, policies), a, n)
  {
  }

  /** What is provisioned after an attempt could have been provisioned before it. */
  lemma ProvisionsAlike(w: World, w': World, y: Az, k: Key, spec: Spec, c: Cluster)
    requires AzureSpared(w, w', k, spec) && AzureAdapter.Provisioned(w'.az, y, k, spec, c, w.isPrivate)
    requires AccountName(spec.name) in y.accounts
    ensures var a := AccountName(spec.name);
            AzureAdapter.Provisioned(w.az, WithPolicies(y, a, AzureAdapter.Found(w.az, k, a).policies), k, spec, c, w.isPrivate)
  {
    hide AccountName, IsMerge, Local, Addresses, AzureAdapter.HasCredentials, AzureAdapter.CredentialsStored, AzureAdapter.ConfiguredPolicies;
    var a, n := AccountName(spec.name), spec.name;
    LocalTwice(w.az, w'.az, y, a, n);
    WithPoliciesIsLocal(w.az, y, a, n, AzureAdapter.Found(w.az, k, a).policies);
    var was, was' := AzureAdapter.Found(w.az, k, a), AzureAdapter.Found(w'.az, k, a);
    assert AzureAdapter.Survives(was, was', k, n);
  }

  lemma AccountSettlesAlike(w: World, w': World, z: Az, k: Key, spec: Spec, c: Cluster)
    requires AzureSpared(w, w', k, spec) && AccountSettled(w'.az, z, k, spec, c, w.isPrivate)
    ensures AccountSettled(w.az, z, k, spec, c, w.isPrivate)
  {
    hide AccountName, Local, AzureAdapter.Provisioned, AzureAdapter.ConfiguredPolicies, AzureAdapter.HasCredentials, AzureAdapter.CredentialsStored;
    var a := AccountName(spec.name);
    var y' :| AzureAdapter.Provisioned(w'.az, y', k, spec, c, w.isPrivate) && a in y'.accounts &&
              z == AzureAdapter.PoliciesConfigured(y', spec);
    ProvisionsAlike(w, w', y', k, spec, c);
    var was := AzureAdapter.Found(w.az, k, a);
    var y := WithPolicies(y', a, was.policies);
    ProvisionedPolicies(w'.az, y', k, spec, c, w.isPrivate);
    ConfiguredPoliciesTwice(was.policies, spec.expiration);
    assert AzureAdapter.ConfiguredPolicies(was.policies, spec.expiration) ==
           AzureAdapter.ConfiguredPolicies(y'.accounts[a].policies, spec.expiration);
    hide AzureSpared, AzureAdapter.PoliciesConfigured;
    ConfiguresAlike(y', spec, was.policies);
  }

  lemma ConfiguresAlike(y: Az, spec: Spec, policies: map<string, int>)
    requires AccountName(spec.name) in y.accounts
    requires AzureAdapter.ConfiguredPolicies(policies, spec.expiration) ==
             AzureAdapter.ConfiguredPolicies(y.accounts[AccountName(spec.name)].policies, spec.expiration)
    ensures var y' := WithPolicies(y, AccountName(spec.name), policies);
            AccountName(spec.name) in y'.accounts &&
            AzureAdapter.PoliciesConfigured(y', spec) == AzureAdapter.PoliciesConfigured(y, spec)
  {
    hide AccountName, AzureAdapter.ConfiguredPolicies;
    var y' := WithPolicies(y, AccountName(spec.name), policies);
    assert AzureAdapter.PoliciesConfigured(y', spec).accounts == AzureAdapter.PoliciesConfigured(y, spec).accounts;
  }

  /** Provisioning leaves the policies as they are. */
  lemma ProvisionedPolicies(x: Az, y: Az, k: Key, spec: Spec, c: Cluster, isPrivate: bool)
    requires AzureAdapter.Provisioned(x, y, k, spec, c, isPrivate)
    ensures AccountName(spec.name) in y.accounts
    ensures y.accounts[AccountName(spec.name)].policies == AzureAdapter.Found(x, k, AccountName(spec.name)).policies
  {
    hide AccountName, IsMerge;
  }

  lemma SecretSettlesAlike(w: World, w': World, k: Key, spec: Spec)
    requires AzureSpared(w, w', k, spec)
    ensures AzureAdapter.HasCredentials(w'.az, spec.name) <==> AzureAdapter.HasCredentials(w.az, spec.name)
    ensures AzureAdapter.HasCredentials(w.az, spec.name) ==>
              AzureAdapter.CredentialsStored(w', k, spec.name) == AzureAdapter.CredentialsStored(w, k, spec.name)
  {
    hide AccountName, AccountSpared;
    assert w'.az.keys == w.az.keys;
    if w'.secrets == w.secrets {
      AzureAdapter.SameCredentials(w, w', k, spec.name);
    } else {
      AzureAdapter.StoredTwice(w, w', k, spec.name);
    }
  }

  /**
   On Azure, too, what success leads to after any number of failed attempts is something
   success could have led to right away.
   */
  lemma {:induction false} AzureFailuresLeaveNoTrace(ws: seq<World>, z: Az, k: Key, spec: Spec, c: Cluster)
    requires Attempts(ws, k, spec) && ws[0].provider.Azure?
    requires AccountSettled(ws[|ws| - 1].az, z, k, spec, c, ws[|ws| - 1].isPrivate)
    ensures AccountSettled(ws[0].az, z, k, spec, c, ws[0].isPrivate)
    ensures AzureAdapter.HasCredentials(ws[|ws| - 1].az, spec.name) <==> AzureAdapter.HasCredentials(ws[0].az, spec.name)
    ensures AzureAdapter.HasCredentials(ws[0].az, spec.name) ==>
              AzureAdapter.CredentialsStored(ws[|ws| - 1], k, spec.name) == AzureAdapter.CredentialsStored(ws[0], k, spec.name)
  {
    hide AccountSettled, Attempted, AzureSpared, AzureAdapter.HasCredentials, AzureAdapter.CredentialsStored;
    if |ws| > 1 {
      assert Attempted(ws[0], ws[0 + 1], k, spec);
      AttemptSpares(ws[0], ws[1], k, spec);
      var rest := ws[1..];
      forall i | 0 <= i < |rest| - 1
        ensures Attempted(rest[i], rest[i + 1], k, spec)
      {
        assert Attempted(ws[i + 1], ws[i + 1 + 1], k, spec);
      }
      AzureFailuresLeaveNoTrace(rest, z, k, spec, c);
      AccountSettlesAlike(ws[0], ws[1], z, k, spec, c);
      SecretSettlesAlike(ws[0], ws[1], k, spec);
    }
  }

  /** Azure convergence: the account, what belongs to it, and the secret with its credentials. */
  lemma AzureConverges(ws: seq<World>, w': World, k: Key, b: Bucket, c: Cluster)
    requires Attempts(ws, k, b.spec) && ws[0].provider.Azure?
    requires AzureSettled(ws[|ws| - 1], w', k, b, c)
    requires Current(ws[|ws| - 1].feeds, k).value.spec == b.spec
    ensures AccountSettled(ws[0].az, w'.az, k, b.spec, c, ws[0].isPrivate)
    ensures AzureAdapter.HasCredentials(ws[0].az, b.spec.name)
    ensures w'.secrets == AzureAdapter.CredentialsStored(ws[0], k, b.spec.name)
  {
    hide AccountSettled, Attempted, Recorded, OthersKept, AzureAdapter.HasCredentials, AzureAdapter.CredentialsStored;
    assert Copy(ws[|ws| - 1].feeds, k, b).spec == b.spec;
    AzureFailuresLeaveNoTrace(ws, w'.az, k, b.spec, c);
  }

  // ----------------------------------------------------------------------- repetitions

  /** A resource reported ready is reported ready again without a change. */
  lemma RecordedTwice(feeds: Feeds, feeds': Feeds, feeds'': Feeds, k: Key, b: Bucket)
    requires Current(feeds, k) == Some(b) && !b.deleting && Recorded(feeds, feeds', k, b)
    ensures Current(feeds', k) == Some(Ready(b, b)) && Live(Current(feeds', k)) &&
            Ready(b, b).spec == b.spec && Ready(b, b).status == Status(true, b.spec.name)
    ensures Recorded(feeds', feeds'', k, Ready(b, b)) ==> Current(feeds'', k) == Current(feeds', k)
  {
    assert BUCKET_FINALIZER in b.finalizers + [BUCKET_FINALIZER];
    hide BUCKET_FINALIZER, Current;
  }

  /** A refreshed copy asks for what is stored. */
  lemma CopyIsFresh(feeds: Feeds, k: Key, b: Bucket)
    requires Current(feeds, k) == Some(b)
    ensures Copy(feeds, k, b).spec == b.spec
  {
  }

  lemma BucketSettledTwice(x: S3, k: Key, spec: Spec, c: Cluster)
    ensures BucketSettled(BucketSettled(x, k, spec, c), k, spec, c) == BucketSettled(x, k, spec, c)
  {
    hide Wanted;
    var y := BucketSettled(x, k, spec, c);
    assert S3Adapter.ConfiguredBucket(y[spec.name], spec, c) == y[spec.name];
    assert y[spec.name := y[spec.name]] == y;
  }

  lemma RoleSettledTwice(x: Iam, k: Key, spec: Spec, c: Cluster)
    ensures RoleSettled(RoleSettled(x, k, spec, c), k, spec, c) == RoleSettled(x, k, spec, c)
  {
    hide ConfiguredIam;
    if HasRole(spec) {
      ConfiguredTwice(x, k, spec, c);
    }
  }

  /** On AWS, reconciling a settled resource again changes nothing. */
  lemma AwsSettledTwice(w: World, w': World, w'': World, k: Key, b: Bucket, c: Cluster)
    requires Current(w.feeds, k) == Some(b) && !b.deleting && AwsSettled(w, w', k, b, c)
    requires AwsSettled(w', w'', k, Ready(b, b), c)
    ensures Current(w'.feeds, k) == Some(Ready(b, b)) && Current(w''.feeds, k) == Current(w'.feeds, k)
    ensures w'' == w'.(feeds := w''.feeds) && OthersKept(w'.feeds, w''.feeds, k)
  {
    hide BucketSettled, RoleSettled, Recorded, OthersKept, Ready, Copy;
    RecordedTwice(w.feeds, w'.feeds, w''.feeds, k, b);
    CopyIsFresh(w.feeds, k, b);
    CopyIsFresh(w'.feeds, k, Ready(b, b));
    BucketSettledTwice(w.s3, k, b.spec, c);
    RoleSettledTwice(w.iam, k, b.spec, c);
  }

  /** What is provisioned and then configured is provisioned as it is. */
  lemma StaysProvisioned(x: Az, y: Az, k: Key, spec: Spec, c: Cluster, isPrivate: bool)
    requires AzureAdapter.Provisioned(x, y, k, spec, c, isPrivate) && AccountName(spec.name) in y.accounts
    ensures var y' := AzureAdapter.PoliciesConfigured(y, spec);
            AzureAdapter.Provisioned(y', y', k, spec, c, isPrivate) && AccountName(spec.name) in y'.accounts &&
            AzureAdapter.PoliciesConfigured(y', spec) == y' && y'.keys == x.keys
  {
    hide AccountName, IsMerge, Addresses;
    var y' := AzureAdapter.PoliciesConfigured(y, spec);
    var a := AccountName(spec.name);
    var policies := y'.accounts[a].policies;
    assert AzureAdapter.ConfiguredPolicies(policies, spec.expiration) == policies;
    assert y'.accounts[a := y'.accounts[a]] == y'.accounts;
  }

  lemma AccountSettledTwice(x: Az, y: Az, z: Az, k: Key, spec: Spec, c: Cluster, isPrivate: bool)
    requires NoConflict(c.tags) && AccountSettled(x, y, k, spec, c, isPrivate) && AccountSettled(y, z, k, spec, c, isPrivate)
    ensures z == y && y.keys == x.keys
  {
    hide AccountName, NoConflict, AzureAdapter.Provisioned, AzureAdapter.PoliciesConfigured;
    var p :| AzureAdapter.Provisioned(x, p, k, spec, c, isPrivate) && AccountName(spec.name) in p.accounts &&
             y == AzureAdapter.PoliciesConfigured(p, spec);
    var q :| AzureAdapter.Provisioned(y, q, k, spec, c, isPrivate) && AccountName(spec.name) in q.accounts &&
             z == AzureAdapter.PoliciesConfigured(q, spec);
    StaysProvisioned(x, p, k, spec, c, isPrivate);
    AzureAdapter.ProvisionedTwice(y, y, q, k, spec, c, isPrivate);
  }

  /**
   On Azure, reconciling a settled resource again changes nothing, provided that the
   tags do not depend on the order the cluster's are visited in.
   */
  lemma AzureSettledTwice(w: World, w': World, w'': World, k: Key, b: Bucket, c: Cluster)
    requires NoConflict(c.tags)
    requires Current(w.feeds, k) == Some(b) && !b.deleting && AzureSettled(w, w', k, b, c)
    requires AzureSettled(w', w'', k, Ready(b, b), c)
    ensures Current(w'.feeds, k) == Some(Ready(b, b)) && Current(w''.feeds, k) == Current(w'.feeds, k)
    ensures w'' == w'.(feeds := w''.feeds) && OthersKept(w'.feeds, w''.feeds, k)
  {
    hide AccountSettled, NoConflict, Recorded, OthersKept, Ready, Copy, AzureAdapter.HasCredentials, AzureAdapter.CredentialsStored;
    RecordedTwice(w.feeds, w'.feeds, w''.feeds, k, b);
    CopyIsFresh(w.feeds, k, b);
    CopyIsFresh(w'.feeds, k, Ready(b, b));
    AccountSettledTwice(w.az, w'.az, w''.az, k, b.spec, c, w.isPrivate);
    AzureAdapter.StoredTwice(w, w', k, b.spec.name);
  }
}
