/**
 What a settled resource looks like to its user, field by field.
 */
module Outcome {
  import opened Base
  import opened Cloud
  import opened Names
  import opened Tags
  import opened Reconciler
  import opened AzureAdapter
  import opened Convergence
  import IamAdapter
  import S3Adapter

  predicate Carries(tags: map<string, string>, key: string, value: string) {
    key in tags && tags[key] == value
  }

  predicate Asked(spec: Spec, c: Cluster, key: string, value: string) {
    key != "" && value != "" && (Tag(key, value) in spec.tags || (key in c.tags && c.tags[key] == value))
  }

  /** Exactly the tags of spec and cluster that have a key and a value. */
  ghost predicate TaggedAsAsked(tags: map<string, string>, spec: Spec, c: Cluster) {
    forall key, value :: Carries(tags, key, value) <==> Asked(spec, c, key, value)
  }

  lemma WantedIsAsked(spec: Spec, c: Cluster)
    requires NoDuplicates(spec.tags, c.tags)
    ensures TaggedAsAsked(Wanted(spec.tags, c.tags), spec, c)
  {
    hide Wanted, NoDuplicates;
    forall key, value
      ensures Carries(Wanted(spec.tags, c.tags), key, value) <==> Asked(spec, c, key, value)
    {
      WantedExactly(spec.tags, c.tags, key, value);
    }
  }

  /** The stored resource carries the operator's finalizer and says that its bucket is ready. */
  lemma SettledIsReported(feeds: Feeds, feeds': Feeds, k: Key, b: Bucket)
    requires Recorded(feeds, feeds', k, b) && Current(feeds, k) == Some(b) && !b.deleting
    ensures var v := Current(feeds', k);
            v.Some? && "objectstorage.giantswarm.io/bucket" in v.value.finalizers && v.value.status == Status(true, b.spec.name) &&
            v.value.spec == b.spec
  {
    RecordedTwice(feeds, feeds', feeds', k, b);
  }

  /**
   On AWS: the bucket has its old objects, the asked-for lifecycle and tags; the role, if
   one is named, has the same tags and keeps every policy but its own.
   */
  lemma AwsOutcome(w: World, w': World, k: Key, b: Bucket, c: Cluster)
    requires AwsSettled(w, w', k, b, c) && Current(w.feeds, k) == Some(b) && NoDuplicates(b.spec.tags, c.tags)
    ensures var n := b.spec.name;
            && n in w'.s3 && w'.s3[n].lifecycle == b.spec.expiration && TaggedAsAsked(w'.s3[n].tags, b.spec, c)
            && w'.s3[n].objects == (if n in w.s3 then w.s3[n].objects else {})
    ensures b.spec.accessRole.Some? && b.spec.accessRole.value.roleName != "" ==>
              var r := b.spec.accessRole.value.roleName;
              && r in w'.iam.roles && TaggedAsAsked(w'.iam.roles[r].tags, b.spec, c)
              && w'.iam.roles[r].attached == (if r in w.iam.roles then w.iam.roles[r].attached else {})
              && w'.iam.roles[r].inline - {r} == (if r in w.iam.roles then w.iam.roles[r].inline - {r} else map[])
  {
    hide Wanted, NoDuplicates, TaggedAsAsked, Recorded, OthersKept, IamAdapter.TrustOf, IamAdapter.PolicyOf;
    CopyIsFresh(w.feeds, k, b);
    WantedIsAsked(b.spec, c);
  }

  /**
   On Azure: the account is public unless the cluster is private, the container is in it,
   the secret holds the account's credentials, and in a private cluster the endpoint
   points at the account and the records hold the endpoint's addresses in order.
   */
  lemma AzureOutcome(w: World, w': World, k: Key, b: Bucket, c: Cluster)
    requires AzureSettled(w, w', k, b, c) && Current(w.feeds, k) == Some(b)
    ensures var n, a := b.spec.name, AccountName(b.spec.name);
            && HasContainer(w'.az, a, n) && w'.az.accounts[a].publicAccess == !w.isPrivate
            && IsMerge(b.spec.tags, c.tags, w'.az.accounts[a].tags)
            && IsMerge(b.spec.tags, c.tags, w'.az.accounts[a].containers[n].metadata)
            && SecretReady(w.secrets, w'.secrets, k, Key(k.namespace, n), a, KeysOf(w.az, a))
            && (b.spec.expiration.Some? ==>
                  "default" in w'.az.accounts[a].policies && w'.az.accounts[a].policies["default"] == b.spec.expiration.value)
            && (w.isPrivate ==>
                  && n in w'.az.endpoints && w'.az.endpoints[n].account == a
                  && a in w'.az.records && Flattened(DnsOf(w'.az, n), w'.az.records[a].ips))
  {
    hide AccountName, IsMerge, SecretReady, Flattened, Recorded, OthersKept, CredentialsStored, HasCredentials, Local;
    var n, a := b.spec.name, AccountName(b.spec.name);
    CopyIsFresh(w.feeds, k, b);
    StoredIsReady(w, k, n);
    AddressesFlatten(DnsOf(w'.az, n));
    var y :| Provisioned(w.az, y, k, b.spec, c, w.isPrivate) && a in y.accounts && w'.az == PoliciesConfigured(y, b.spec);
  }
}
