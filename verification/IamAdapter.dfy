/**
 The IAM side of the AWS adapter: it brings an access role to the state the spec asks
 for, and takes a role apart before deleting it.
 */
module IamAdapter {
  import opened Base
  import opened Cloud
  import opened Protocol
  import opened Sessions
  import opened Tags
  import opened Templates

  // -------------------------------------------------------------------- documents

  const GRAFANA_POSTGRESQL := "grafana-postgresql"

  function TrustOf(role: AccessRole, c: Cluster): string {
    TrustText(TrustData(
      c.accountId,
      AwsDomain(c.region),
      IrsaDomain(c),
      role.serviceAccountName,
      role.serviceAccountNamespace,
      Contains(role.serviceAccountName, GRAFANA_POSTGRESQL)))
  }

  function PolicyOf(spec: Spec, c: Cluster): string
    requires spec.accessRole.Some?
  {
    RolePolicyText(RolePolicyData(AwsDomain(c.region), spec.name, spec.accessRole.value.extraBucketNames))
  }

  // ------------------------------------------------------------------------- calls

  /** No role differs but `r`, of which at most trust, tags and its own inline policy do, or which is new. */
  predicate Touched(x: Iam, x': Iam, who: Key, r: string) {
    && x'.profiles == x.profiles
    && (forall q :: q in x.roles && q != r ==> q in x'.roles && x'.roles[q] == x.roles[q])
    && (forall q :: q in x'.roles && q != r ==> q in x.roles)
    && (r in x.roles ==>
          r in x'.roles && x'.roles[r].attached == x.roles[r].attached && x'.roles[r].creator == x.roles[r].creator &&
          x'.roles[r].inline - {r} == x.roles[r].inline - {r})
    && (r in x'.roles && r !in x.roles ==>
          x'.roles[r].attached == {} && x'.roles[r].inline - {r} == map[] && x'.roles[r].creator == Some(who))
  }

  lemma TouchedTwice(x: Iam, y: Iam, z: Iam, who: Key, r: string)
    requires Touched(x, y, who, r) && Touched(y, z, who, r)
    ensures Touched(x, z, who, r)
  {
  }

  lemma EffectTouches(x: Iam, k: Key, q: IamReq)
    requires Grants(q) && (q.PutRolePolicy? ==> q.policy == q.r)
    ensures Touched(x, IamEffect(x, k, q), k, q.r)
    ensures q.r in x.roles ==> q.r in IamEffect(x, k, q).roles
  {
    hide TagMap, DistinctKeys;
  }

  /** One configuring call: what it may touch, and what it does when it succeeds. */
  lemma GrantServed(x: Iam, k: Key, q: IamReq, resp: Resp, x': Iam)
    requires IamServes(x, k, q, resp, x') && Grants(q) && (q.PutRolePolicy? ==> q.policy == q.r)
    ensures Touched(x, x', k, q.r) && (q.r in x.roles ==> q.r in x'.roles)
    ensures !resp.Failed? ==> x' == IamEffect(x, k, q) && IamReply(x, q, resp)
    ensures resp == Done && !q.CreateRole? ==> q.r in x.roles
    ensures resp == Done && (q.TagRole? || q.CreateRole?) ==> DistinctKeys(q.tags)
  {
    hide TagMap, DistinctKeys, TagsOf, IamEffect, Touched;
    EffectTouches(x, k, q);
    TouchedItself(x, k, q.r);
  }

  /** When a fault-free service accepts a configuring call. */
  lemma GrantReplied(x: Iam, q: IamReq, resp: Resp)
    requires IamReply(x, q, resp) && Grants(q) && !q.GetRole?
    ensures resp == Done <==>
            (q.CreateRole? <==> q.r !in x.roles) && (q.TagRole? || q.CreateRole? ==> DistinctKeys(q.tags))
  {
    hide TagMap, DistinctKeys, TagsOf;
  }

  /** The role's tags, a nil list of them, or no role at all. */
  method GetRole(s: Session, b: Bucket) returns (role: Option<Option<seq<Tag>>>, err: bool)
    requires s.Valid() && s.Provider() == Aws && (s.Pc() == Granting(b) || s.Pc() == Revoking(b))
    modifies s
    ensures s.Valid() && s.Advanced()
    ensures !err ==> s.Pc() == if old(s.Pc()).Revoking? && role.None? then Releasing(b) else old(s.Pc())
    ensures s.tally.passedOver == old(s.tally.passedOver) && (!err ==> s.tally.failures == old(s.tally.failures))
    ensures s.Quiet() ==> s.sys.w == old(s.sys.w)
    ensures s.Quiet() && !err ==> (role.Some? <==> RoleName(b.spec) in s.sys.w.iam.roles)
    ensures s.Quiet() && !err && role.Some? ==> TagsOf(role.value, s.sys.w.iam.roles[RoleName(b.spec)].tags)
    ensures s.Clean() ==> !err
  {
    hide Session.Valid;
    var resp := s.CallIam(IamReq.GetRole(RoleName(b.spec)));
    if resp.GotRole? {
      role, err := Some(resp.tags), false;
    } else {
      role, err := None, resp != Missing;
    }
  }

  // ----------------------------------------------------------------- configuration

  /** The role as the spec and the cluster ask for it; everything else about it stays. */
  function ConfiguredRole(role: Role, spec: Spec, c: Cluster): Role
    requires spec.accessRole.Some?
  {
    role.(
      trust := TrustOf(spec.accessRole.value, c),
      tags := Wanted(spec.tags, c.tags),
      inline := role.inline[RoleName(spec) := PolicyOf(spec, c)])
  }

  function ConfiguredIam(x: Iam, who: Key, spec: Spec, c: Cluster): Iam
    requires spec.accessRole.Some?
  {
    var r := RoleName(spec);
    var role := if r in x.roles then x.roles[r] else Role("", map[], {}, map[], Some(who));
    x.(roles := x.roles[r := ConfiguredRole(role, spec, c)])
  }

  /** The keys in a listing of tags. */
  method TagKeys(tags: seq<Tag>) returns (keys: seq<string>)
    ensures |keys| == |tags| && forall i :: 0 <= i < |tags| ==> keys[i] == tags[i].key
  {
    keys := [];
    for i := 0 to |tags|
      invariant |keys| == i && forall j :: 0 <= j < i ==> keys[j] == tags[j].key
    {
      keys := keys + [tags[i].key];
    }
  }

  /** Removing every listed key leaves no tag. */
  lemma UntaggedIsEmpty(listed: seq<Tag>, keys: seq<string>)
    requires |keys| == |listed| && forall i :: 0 <= i < |listed| ==> keys[i] == listed[i].key
    ensures TagMap(listed) - (set k | k in keys) == map[]
  {
    forall k
      ensures k in TagMap(listed) ==> k in keys
    {
      TagMapKeys(listed, k);
      if HasKey(listed, k) {
        var i :| 0 <= i < |listed| && listed[i].key == k;
        assert keys[i] == k;
      }
    }
  }

  /** `role` with its tags replaced by those of the list. */
  function Retagged(x: Iam, r: string, tags: seq<Tag>): Iam
    requires r in x.roles
  {
    x.(roles := x.roles[r := x.roles[r].(tags := TagMap(tags))])
  }

  /**
   Replaces the role's tags, unless the list read from the role already equals the
   wanted one: first removes every key read, then sets the wanted tags.
   */
  method SyncTags(s: Session, b: Bucket, listed: Option<seq<Tag>>, tags: seq<Tag>) returns (err: bool)
    requires s.Valid() && s.Provider() == Aws && s.Pc() == Granting(b)
    modifies s
    ensures s.Valid() && s.Advanced()
    ensures !err ==> s.Pc() == Granting(b)
    ensures s.Quiet() ==> s.sys.w == old(s.sys.w).(iam := s.sys.w.iam) && Touched(old(s.sys.w.iam), s.sys.w.iam, s.me, RoleName(b.spec))
    ensures s.Quiet() && !err && RoleName(b.spec) in old(s.sys.w.iam.roles) && TagsOf(listed, old(s.sys.w.iam.roles)[RoleName(b.spec)].tags) ==>
              s.sys.w.iam == Retagged(old(s.sys.w.iam), RoleName(b.spec), tags)
    ensures s.Clean() && RoleName(b.spec) in old(s.sys.w.iam.roles) && TagsOf(listed, old(s.sys.w.iam.roles)[RoleName(b.spec)].tags) ==>
              (!err <==> DistinctKeys(tags))
  {
    hide Session.Valid, IamServes, IamReply, IamEffect, TagMap, DistinctKeys, Touched, TagsOf, Retagged;
    var r := RoleName(b.spec);
    ghost var x := s.sys.w.iam;
    err := false;
    if listed == Some(tags) {
      TouchedItself(x, s.me, r);
      AlreadyTagged(x, r, tags);
      return;
    }
    var keys := TagKeys(if listed.Some? then listed.value else []);
    var resp := s.CallIam(UntagRole(r, keys));
    err := resp != Done;
    ghost var y := s.sys.w.iam;
    if s.Quiet() {
      GrantServed(x, s.me, UntagRole(r, keys), resp, y);
    }
    if s.Clean() {
      GrantReplied(x, UntagRole(r, keys), resp);
    }
    if err {
      return;
    }
    resp := s.CallIam(TagRole(r, tags));
    err := resp != Done;
    ghost var z := s.sys.w.iam;
    if s.Quiet() {
      GrantServed(y, s.me, TagRole(r, tags), resp, z);
      TouchedTwice(x, y, z, s.me, r);
      if !err {
        UntaggedThenTagged(x, s.me, r, listed, keys, tags);
      }
    }
    if s.Clean() {
      GrantReplied(y, TagRole(r, tags), resp);
    }
  }

  lemma AlreadyTagged(x: Iam, r: string, tags: seq<Tag>)
    ensures r in x.roles && TagsOf(Some(tags), x.roles[r].tags) ==> Retagged(x, r, tags) == x && DistinctKeys(tags)
  {
    hide TagMap, DistinctKeys;
    if r in x.roles && TagsOf(Some(tags), x.roles[r].tags) {
      assert x.roles[r := x.roles[r]] == x.roles;
    }
  }

  /** Removing every key read and then tagging is plain replacement. */
  lemma UntaggedThenTagged(x: Iam, k: Key, r: string, listed: Option<seq<Tag>>, keys: seq<string>, tags: seq<Tag>)
    requires r in x.roles && DistinctKeys(tags)
    requires var read := if listed.Some? then listed.value else [];
             |keys| == |read| && forall i :: 0 <= i < |read| ==> keys[i] == read[i].key
    ensures TagsOf(listed, x.roles[r].tags) ==>
              IamEffect(IamEffect(x, k, UntagRole(r, keys)), k, TagRole(r, tags)) == Retagged(x, r, tags)
  {
    hide DistinctKeys;
    var read := if listed.Some? then listed.value else [];
    UntaggedIsEmpty(read, keys);
    if TagsOf(listed, x.roles[r].tags) {
      assert TagMap(read) == x.roles[r].tags;
      var y := IamEffect(x, k, UntagRole(r, keys));
      assert y.roles[r].tags == map[];
      assert map[] + TagMap(tags) == TagMap(tags);
      var z := IamEffect(y, k, TagRole(r, tags));
      assert z.roles == Retagged(x, r, tags).roles;
    }
  }

  lemma TouchedItself(x: Iam, who: Key, r: string)
    ensures Touched(x, x, who, r)
  {
  }

  /** What the updating calls add up to. */
  lemma Updated(x: Iam, k: Key, spec: Spec, c: Cluster, tags: seq<Tag>)
    requires spec.accessRole.Some? && RoleName(spec) in x.roles && TagMap(tags) == Wanted(spec.tags, c.tags)
    ensures var r, trust := RoleName(spec), TrustOf(spec.accessRole.value, c);
            IamEffect(Retagged(IamEffect(x, k, UpdateTrust(r, trust)), r, tags), k, PutRolePolicy(r, r, PolicyOf(spec, c))) ==
            ConfiguredIam(x, k, spec, c)
  {
    hide TrustOf, PolicyOf, Wanted, TagMap;
    var r, trust, policy := RoleName(spec), TrustOf(spec.accessRole.value, c), PolicyOf(spec, c);
    var y := IamEffect(x, k, UpdateTrust(r, trust));
    var z := IamEffect(Retagged(y, r, tags), k, PutRolePolicy(r, r, policy));
    assert z.roles == ConfiguredIam(x, k, spec, c).roles;
  }

  lemma Created(x: Iam, k: Key, spec: Spec, c: Cluster, tags: seq<Tag>)
    requires spec.accessRole.Some? && RoleName(spec) !in x.roles
    requires DistinctKeys(tags) && TagMap(tags) == Wanted(spec.tags, c.tags)
    ensures var r, trust := RoleName(spec), TrustOf(spec.accessRole.value, c);
            IamEffect(IamEffect(x, k, CreateRole(r, trust, tags)), k, PutRolePolicy(r, r, PolicyOf(spec, c))) ==
            ConfiguredIam(x, k, spec, c)
  {
    hide TrustOf, PolicyOf, Wanted, TagMap, DistinctKeys;
    var r, trust, policy := RoleName(spec), TrustOf(spec.accessRole.value, c), PolicyOf(spec, c);
    var z := IamEffect(IamEffect(x, k, CreateRole(r, trust, tags)), k, PutRolePolicy(r, r, policy));
    assert z.roles == ConfiguredIam(x, k, spec, c).roles;
  }

  /** Creates the role, or brings trust policy and tags of the existing one up to date. */
  method UpsertRole(s: Session, b: Bucket, trust: string, role: Option<Option<seq<Tag>>>, tags: seq<Tag>) returns (err: bool)
    requires s.Valid() && s.Provider() == Aws && s.Pc() == Granting(b)
    modifies s
    ensures s.Valid() && s.Advanced()
    ensures !err ==> s.Pc() == Granting(b)
    ensures s.Quiet() ==> s.sys.w == old(s.sys.w).(iam := s.sys.w.iam) && Touched(old(s.sys.w.iam), s.sys.w.iam, s.me, RoleName(b.spec))
    ensures s.Quiet() && !err && role.None? ==>
              RoleName(b.spec) !in old(s.sys.w.iam.roles) && DistinctKeys(tags) &&
              s.sys.w.iam == IamEffect(old(s.sys.w.iam), s.me, CreateRole(RoleName(b.spec), trust, tags))
    ensures s.Quiet() && !err && role.Some? && ReadFrom(old(s.sys.w.iam), RoleName(b.spec), role.value) ==>
              RoleName(b.spec) in IamEffect(old(s.sys.w.iam), s.me, UpdateTrust(RoleName(b.spec), trust)).roles &&
              s.sys.w.iam == Retagged(IamEffect(old(s.sys.w.iam), s.me, UpdateTrust(RoleName(b.spec), trust)), RoleName(b.spec), tags)
    ensures s.Clean() && Matches(old(s.sys.w.iam), RoleName(b.spec), role) ==> (!err <==> DistinctKeys(tags))
    ensures s.Quiet() && RoleName(b.spec) in old(s.sys.w.iam.roles) ==> RoleName(b.spec) in s.sys.w.iam.roles
    ensures s.Quiet() && !err ==> RoleName(b.spec) in s.sys.w.iam.roles
  {
    hide Session.Valid, IamServes, IamReply, IamEffect, TagMap, DistinctKeys, Touched, Retagged, TagsOf;
    var r := RoleName(b.spec);
    ghost var x := s.sys.w.iam;
    if role.None? {
      var resp := s.CallIam(CreateRole(r, trust, tags));
      err := resp != Done;
      if s.Quiet() {
        GrantServed(x, s.me, CreateRole(r, trust, tags), resp, s.sys.w.iam);
        CreationFollows(x, s.me, r, trust, tags, resp);
      }
      if s.Clean() {
        GrantReplied(x, CreateRole(r, trust, tags), resp);
      }
    } else {
      var resp := s.CallIam(UpdateTrust(r, trust));
      err := resp != Done;
      ghost var y := s.sys.w.iam;
      if s.Quiet() {
        GrantServed(x, s.me, UpdateTrust(r, trust), resp, y);
        TrustKeepsTags(x, s.me, r, trust);
      }
      if s.Clean() {
        GrantReplied(x, UpdateTrust(r, trust), resp);
      }
      if err {
        return;
      }
      err := SyncTags(s, b, role.value, tags);
      if s.Quiet() {
        TouchedTwice(x, y, s.sys.w.iam, s.me, r);
        TouchedKeeps(y, s.sys.w.iam, s.me, r);
      }
    }
  }

  /** The role exists and `listed` is what reading its tags returned. */
  ghost predicate ReadFrom(x: Iam, r: string, listed: Option<seq<Tag>>) {
    r in x.roles && TagsOf(listed, x.roles[r].tags)
  }

  /** `role` is what looking the role up returned. */
  ghost predicate Matches(x: Iam, r: string, role: Option<Option<seq<Tag>>>) {
    if role.None? then r !in x.roles else ReadFrom(x, r, role.value)
  }

  lemma CreationFollows(x: Iam, k: Key, r: string, trust: string, tags: seq<Tag>, resp: Resp)
    ensures IamReply(x, CreateRole(r, trust, tags), resp) && resp == Done ==>
              r !in x.roles && r in IamEffect(x, k, CreateRole(r, trust, tags)).roles
  {
    hide DistinctKeys, TagMap;
  }

  lemma TrustKeepsTags(x: Iam, k: Key, r: string, trust: string)
    ensures r in x.roles ==>
              r in IamEffect(x, k, UpdateTrust(r, trust)).roles && IamEffect(x, k, UpdateTrust(r, trust)).roles[r].tags == x.roles[r].tags
  {
  }

  lemma TouchedKeeps(x: Iam, x': Iam, who: Key, r: string)
    requires Touched(x, x', who, r)
    ensures r in x.roles ==> r in x'.roles
  {
  }

  /**
   Brings the role to what spec and cluster ask for, from whatever it was; policies
   attached to it and inline policies of other names are never touched.
   */
  method ConfigureRole(s: Session, b: Bucket, c: Cluster) returns (err: bool)
    requires s.Valid() && s.Provider() == Aws && s.Pc() == Granting(b) && b.spec.accessRole.Some?
    modifies s
    ensures s.Valid() && s.Advanced()
    ensures s.Quiet() ==> s.sys.w == old(s.sys.w).(iam := s.sys.w.iam) && Touched(old(s.sys.w.iam), s.sys.w.iam, s.me, RoleName(b.spec))
    ensures s.Quiet() && !err ==> s.sys.w.iam == ConfiguredIam(old(s.sys.w.iam), s.me, b.spec, c)
    ensures s.Clean() ==> (!err <==> NoDuplicates(b.spec.tags, c.tags))
  {
    hide Session.Valid, IamServes, IamReply, IamEffect, TagMap, DistinctKeys, Touched, Retagged, TagsOf, Wanted, NoDuplicates,
         TrustOf, PolicyOf, ConfiguredIam;
    var r := RoleName(b.spec);
    ghost var x := s.sys.w.iam;
    TouchedItself(x, s.me, r);
    var role;
    role, err := GetRole(s, b);
    if err {
      return;
    }
    var tags := TagList(b.spec.tags, c.tags);
    var trust := TrustOf(b.spec.accessRole.value, c);
    err := UpsertRole(s, b, trust, role, tags);
    if err {
      return;
    }
    ghost var y := s.sys.w.iam;
    var resp := s.CallIam(PutRolePolicy(r, r, PolicyOf(b.spec, c)));
    err := resp != Done;
    if s.Quiet() {
      GrantServed(y, s.me, PutRolePolicy(r, r, PolicyOf(b.spec, c)), resp, s.sys.w.iam);
      TouchedTwice(x, y, s.sys.w.iam, s.me, r);
      if role.None? {
        Created(x, s.me, b.spec, c, tags);
      } else {
        Updated(x, s.me, b.spec, c, tags);
      }
    }
    if s.Clean() {
      GrantReplied(y, PutRolePolicy(r, r, PolicyOf(b.spec, c)), resp);
    }
  }

  /** Configuring a configured role changes nothing. */
  lemma ConfiguredTwice(x: Iam, who: Key, spec: Spec, c: Cluster)
    requires spec.accessRole.Some?
    ensures ConfiguredIam(ConfiguredIam(x, who, spec, c), who, spec, c) == ConfiguredIam(x, who, spec, c)
  {
    hide TrustOf, PolicyOf, Wanted;
    var y := ConfiguredIam(x, who, spec, c);
    var r := RoleName(spec);
    assert y.roles[r].inline[r := PolicyOf(spec, c)] == y.roles[r].inline;
    assert y.roles[r := y.roles[r]] == y.roles;
  }

  // ---------------------------------------------------------------------- teardown

  /** The calls of the teardown and where their answers lead. */
  lemma RevokeCalls(k: Key, b: Bucket, q: IamReq)
    requires Revokes(q) && q.r == RoleName(b.spec)
    ensures Allowed(Aws, k, Revoking(b), OnIam(q))
    ensures forall resp :: Next(Aws, Revoking(b), OnIam(q), resp) ==
              if (resp == Missing && q.GetRole?) || (resp == Done && q.DropRole?) then Releasing(b) else Revoking(b)
  {
  }

  /** Role `r` with these policies left on it. */
  function Stripped(x: Iam, r: string, attached: set<string>, inline: map<string, string>): Iam
    requires r in x.roles
  {
    x.(roles := x.roles[r := x.roles[r].(attached := attached, inline := inline)])
  }

  /** Role `r` may have lost policies; nothing else differs. */
  predicate Stripping(x: Iam, x': Iam, r: string) {
    x' == x || (r in x.roles && r in x'.roles && x' == Stripped(x, r, x'.roles[r].attached, x'.roles[r].inline))
  }

  lemma StrippingTwice(x: Iam, y: Iam, z: Iam, r: string)
    requires Stripping(x, y, r) && Stripping(y, z, r)
    ensures Stripping(x, z, r)
  {
    if y != x && z != y {
      assert z.roles == Stripped(x, r, z.roles[r].attached, z.roles[r].inline).roles;
    }
  }

  predicate Strips(q: IamReq) {
    q.ListAttached? || q.Detach? || q.ListInline? || q.DeleteInline?
  }

  lemma StripServed(x: Iam, k: Key, q: IamReq, resp: Resp, x': Iam)
    requires IamServes(x, k, q, resp, x') && Strips(q)
    ensures Stripping(x, x', q.r)
    ensures resp.Listed? || resp == Done ==> q.r in x.roles && q.r in x'.roles && IamReply(x, q, resp)
    ensures resp.Listed? ==> x' == x
    ensures resp == Done && q.Detach? ==>
              x' == Stripped(x, q.r, x.roles[q.r].attached - {q.policy}, x.roles[q.r].inline)
    ensures resp == Done && q.DeleteInline? ==>
              x' == Stripped(x, q.r, x.roles[q.r].attached, x.roles[q.r].inline - {q.policy})
  {
    hide TagMap, TagsOf;
    if q.r in x.roles {
      assert x.roles[q.r := x.roles[q.r]] == x.roles;
    }
  }

  lemma StripReplied(x: Iam, q: IamReq, resp: Resp)
    requires IamReply(x, q, resp) && Strips(q)
    ensures (q.ListAttached? || q.ListInline?) && q.r in x.roles ==> resp.Listed?
    ensures q.Detach? && q.r in x.roles && q.policy in x.roles[q.r].attached ==> resp == Done
    ensures q.DeleteInline? && q.r in x.roles && q.policy in x.roles[q.r].inline ==> resp == Done
  {
    hide TagsOf;
  }

  /** Detaches every attached policy, in the order they are listed. */
  method DetachPolicies(s: Session, b: Bucket) returns (err: bool)
    requires s.Valid() && s.Provider() == Aws && s.Pc() == Revoking(b)
    modifies s
    ensures s.Valid() && s.Advanced() && s.Pc() == Revoking(b)
    ensures s.tally.passedOver == old(s.tally.passedOver) && (!err ==> s.tally.failures == old(s.tally.failures))
    ensures s.Quiet() ==> s.sys.w == old(s.sys.w).(iam := s.sys.w.iam) && Stripping(old(s.sys.w.iam), s.sys.w.iam, RoleName(b.spec))
    ensures s.Quiet() && !err ==>
              RoleName(b.spec) in old(s.sys.w.iam.roles) &&
              s.sys.w.iam == Stripped(old(s.sys.w.iam), RoleName(b.spec), {}, old(s.sys.w.iam.roles)[RoleName(b.spec)].inline)
    ensures s.Clean() && RoleName(b.spec) in old(s.sys.w.iam.roles) ==> !err
  {
    hide Session.Valid, IamServes, IamReply, Stripping, Stripped, Allowed, Next;
    var r := RoleName(b.spec);
    ghost var x := s.sys.w.iam;
    RevokeCalls(s.me, b, ListAttached(r));
    var listing := s.CallIam(ListAttached(r));
    if s.Quiet() {
      StripServed(x, s.me, ListAttached(r), listing, s.sys.w.iam);
    }
    if s.Clean() {
      StripReplied(x, ListAttached(r), listing);
    }
    err := !listing.Listed?;
    if err {
      return;
    }
    var names := listing.names;
    if s.Quiet() {
      AttachedListed(x, r, names, listing);
    }
    for i := 0 to |names|
      invariant s.Valid() && s.Advanced() && s.Pc() == Revoking(b)
      invariant s.tally.passedOver == old(s.tally.passedOver) && s.tally.failures == old(s.tally.failures)
      invariant s.Quiet() ==> s.sys.w == old(s.sys.w).(iam := s.sys.w.iam)
      invariant s.Quiet() ==> r in x.roles && Lists(names, x.roles[r].attached)
      invariant s.Quiet() ==> s.sys.w.iam == Stripped(x, r, Rest(names, i), x.roles[r].inline)
    {
      RevokeCalls(s.me, b, Detach(r, names[i]));
      var resp := s.CallIam(Detach(r, names[i]));
      if s.Quiet() {
        DetachStep(x, s.me, r, names, i, resp, s.sys.w.iam);
      }
      err := resp != Done;
      if err {
        return;
      }
    }
    if s.Quiet() {
      StrippedIs(x, r, {}, x.roles[r].inline);
      assert Rest(names, |names|) == {};
    }
  }

  /** One turn of the loop. */
  lemma DetachStep(x: Iam, k: Key, r: string, names: seq<string>, i: nat, resp: Resp, z: Iam)
    requires r in x.roles && Lists(names, x.roles[r].attached) && i < |names|
    requires IamServes(Stripped(x, r, Rest(names, i), x.roles[r].inline), k, Detach(r, names[i]), resp, z)
    ensures Stripping(x, z, r)
    ensures resp == Done ==> z == Stripped(x, r, Rest(names, i + 1), x.roles[r].inline)
    ensures IamReply(Stripped(x, r, Rest(names, i), x.roles[r].inline), Detach(r, names[i]), resp) ==> resp == Done
  {
    hide IamServes, IamReply, Stripping, Stripped;
    var y := Stripped(x, r, Rest(names, i), x.roles[r].inline);
    StrippedIs(x, r, Rest(names, i), x.roles[r].inline);
    StripServed(y, k, Detach(r, names[i]), resp, z);
    StrippingTwice(x, y, z, r);
    RestShrinks(names, i);
    StrippedAgain(x, r, Rest(names, i), x.roles[r].inline, Rest(names, i + 1), x.roles[r].inline);
    if IamReply(y, Detach(r, names[i]), resp) {
      StripReplied(y, Detach(r, names[i]), resp);
    }
  }

  /** The names from position `i` on. */
  function Rest(names: seq<string>, i: nat): set<string>
    requires i <= |names|
  {
    set n | n in names[i..]
  }

  lemma RestShrinks(names: seq<string>, i: nat)
    requires i < |names| && forall j, k :: 0 <= j < k < |names| ==> names[j] != names[k]
    ensures names[i] in Rest(names, i) && Rest(names, i) - {names[i]} == Rest(names, i + 1)
  {
    assert names[i..] == [names[i]] + names[i + 1..];
  }

  lemma AttachedListed(x: Iam, r: string, names: seq<string>, resp: Resp)
    requires IamReply(x, ListAttached(r), resp) && resp == Listed(names)
    ensures r in x.roles && Lists(names, x.roles[r].attached)
    ensures x == Stripped(x, r, Rest(names, 0), x.roles[r].inline)
  {
    assert names[0..] == names;
    assert Rest(names, 0) == x.roles[r].attached;
    assert x.roles[r := x.roles[r]] == x.roles;
  }

  lemma StrippedIs(x: Iam, r: string, attached: set<string>, inline: map<string, string>)
    requires r in x.roles
    ensures var y := Stripped(x, r, attached, inline);
            r in y.roles && y.roles[r].attached == attached && y.roles[r].inline == inline && Stripping(x, y, r)
  {
  }

  lemma StrippedAgain(x: Iam, r: string, a: set<string>, i: map<string, string>, a': set<string>, i': map<string, string>)
    requires r in x.roles
    ensures r in Stripped(x, r, a, i).roles && Stripped(Stripped(x, r, a, i), r, a', i') == Stripped(x, r, a', i')
  {
    assert Stripped(Stripped(x, r, a, i), r, a', i').roles == Stripped(x, r, a', i').roles;
  }

  /** Deletes every inline policy, in the order they are listed. */
  method DeleteInlinePolicies(s: Session, b: Bucket) returns (err: bool)
    requires s.Valid() && s.Provider() == Aws && s.Pc() == Revoking(b)
    modifies s
    ensures s.Valid() && s.Advanced() && s.Pc() == Revoking(b)
    ensures s.tally.passedOver == old(s.tally.passedOver) && (!err ==> s.tally.failures == old(s.tally.failures))
    ensures s.Quiet() ==> s.sys.w == old(s.sys.w).(iam := s.sys.w.iam) && Stripping(old(s.sys.w.iam), s.sys.w.iam, RoleName(b.spec))
    ensures s.Quiet() && !err ==>
              RoleName(b.spec) in old(s.sys.w.iam.roles) &&
              s.sys.w.iam == Stripped(old(s.sys.w.iam), RoleName(b.spec), old(s.sys.w.iam.roles)[RoleName(b.spec)].attached, map[])
    ensures s.Clean() && RoleName(b.spec) in old(s.sys.w.iam.roles) ==> !err
  {
    hide Session.Valid, IamServes, IamReply, Stripping, Stripped, Allowed, Next;
    var r := RoleName(b.spec);
    ghost var x := s.sys.w.iam;
    RevokeCalls(s.me, b, ListInline(r));
    var listing := s.CallIam(ListInline(r));
    if s.Quiet() {
      StripServed(x, s.me, ListInline(r), listing, s.sys.w.iam);
    }
    if s.Clean() {
      StripReplied(x, ListInline(r), listing);
    }
    err := !listing.Listed?;
    if err {
      return;
    }
    var names := listing.names;
    if s.Quiet() {
      InlineListed(x, r, names, listing);
    }
    for i := 0 to |names|
      invariant s.Valid() && s.Advanced() && s.Pc() == Revoking(b)
      invariant s.tally.passedOver == old(s.tally.passedOver) && s.tally.failures == old(s.tally.failures)
      invariant s.Quiet() ==> s.sys.w == old(s.sys.w).(iam := s.sys.w.iam)
      invariant s.Quiet() ==> r in x.roles && Lists(names, x.roles[r].inline.Keys)
      invariant s.Quiet() ==> s.sys.w.iam == Stripped(x, r, x.roles[r].attached, Left(x.roles[r].inline, names, i))
    {
      RevokeCalls(s.me, b, DeleteInline(r, names[i]));
      var resp := s.CallIam(DeleteInline(r, names[i]));
      if s.Quiet() {
        InlineStep(x, s.me, r, names, i, resp, s.sys.w.iam);
      }
      err := resp != Done;
      if err {
        return;
      }
    }
    if s.Quiet() {
      StrippedIs(x, r, x.roles[r].attached, map[]);
      NothingLeft(x.roles[r].inline, names);
    }
  }

  /** One turn of the loop. */
  lemma InlineStep(x: Iam, k: Key, r: string, names: seq<string>, i: nat, resp: Resp, z: Iam)
    requires r in x.roles && Lists(names, x.roles[r].inline.Keys) && i < |names|
    requires IamServes(Stripped(x, r, x.roles[r].attached, Left(x.roles[r].inline, names, i)), k, DeleteInline(r, names[i]), resp, z)
    ensures Stripping(x, z, r)
    ensures resp == Done ==> z == Stripped(x, r, x.roles[r].attached, Left(x.roles[r].inline, names, i + 1))
    ensures IamReply(Stripped(x, r, x.roles[r].attached, Left(x.roles[r].inline, names, i)), DeleteInline(r, names[i]), resp) ==> resp == Done
  {
    hide IamServes, IamReply, Stripping, Stripped, Lists, Left;
    var m, a := x.roles[r].inline, x.roles[r].attached;
    var y := Stripped(x, r, a, Left(m, names, i));
    StrippedIs(x, r, a, Left(m, names, i));
    StripServed(y, k, DeleteInline(r, names[i]), resp, z);
    StrippingTwice(x, y, z, r);
    LeftShrinks(m, names, i);
    StrippedAgain(x, r, a, Left(m, names, i), a, Left(m, names, i + 1));
    if IamReply(y, DeleteInline(r, names[i]), resp) {
      StripReplied(y, DeleteInline(r, names[i]), resp);
    }
  }

  /** What is left of `m` before the `i`-th name is removed. */
  function Left(m: map<string, string>, names: seq<string>, i: nat): map<string, string>
    requires i <= |names|
  {
    map k | k in m && k in names[i..] :: m[k]
  }

  lemma LeftShrinks(m: map<string, string>, names: seq<string>, i: nat)
    requires i < |names| && Lists(names, m.Keys)
    ensures names[i] in Left(m, names, i) && Left(m, names, i) - {names[i]} == Left(m, names, i + 1)
  {
    assert names[i..] == [names[i]] + names[i + 1..];
    assert names[i] in names;
  }

  lemma NothingLeft(m: map<string, string>, names: seq<string>)
    ensures Left(m, names, |names|) == map[]
  {
  }

  lemma InlineListed(x: Iam, r: string, names: seq<string>, resp: Resp)
    requires IamReply(x, ListInline(r), resp) && resp == Listed(names)
    ensures r in x.roles && Lists(names, x.roles[r].inline.Keys)
    ensures x == Stripped(x, r, x.roles[r].attached, Left(x.roles[r].inline, names, 0))
  {
    assert names[0..] == names;
    assert Left(x.roles[r].inline, names, 0) == x.roles[r].inline;
    assert x.roles[r := x.roles[r]] == x.roles;
  }

  /** Both loops: no policy is left on the role. */
  method CleanAttachedPolicies(s: Session, b: Bucket) returns (err: bool)
    requires s.Valid() && s.Provider() == Aws && s.Pc() == Revoking(b)
    modifies s
    ensures s.Valid() && s.Advanced() && s.Pc() == Revoking(b)
    ensures s.tally.passedOver == old(s.tally.passedOver) && (!err ==> s.tally.failures == old(s.tally.failures))
    ensures s.Quiet() ==> s.sys.w == old(s.sys.w).(iam := s.sys.w.iam) && Stripping(old(s.sys.w.iam), s.sys.w.iam, RoleName(b.spec))
    ensures s.Quiet() && !err ==>
              RoleName(b.spec) in old(s.sys.w.iam.roles) && s.sys.w.iam == Stripped(old(s.sys.w.iam), RoleName(b.spec), {}, map[])
    ensures s.Clean() && RoleName(b.spec) in old(s.sys.w.iam.roles) ==> !err
  {
    hide Session.Valid, Stripping, Stripped;
    var r := RoleName(b.spec);
    ghost var x := s.sys.w.iam;
    err := DetachPolicies(s, b);
    if err {
      return;
    }
    ghost var y := s.sys.w.iam;
    if s.Quiet() {
      StrippedIs(x, r, {}, x.roles[r].inline);
    }
    err := DeleteInlinePolicies(s, b);
    if s.Quiet() {
      StrippingTwice(x, y, s.sys.w.iam, r);
      if !err {
        StrippedAgain(x, r, {}, x.roles[r].inline, {}, map[]);
      }
    }
  }

  /**
   When IAM lets the role go: nothing but the instance profile of its own name holds
   it, and that profile holds nothing else.
   */
  predicate Removable(x: Iam, r: string) {
    r !in x.roles ||
    ((forall p :: p in x.profiles && r in x.profiles[p] ==> p == r) && (r in x.profiles ==> x.profiles[r] <= {r}))
  }

  /** At most role `r` and the instance profile of its name were taken apart or removed. */
  predicate TornDown(x: Iam, x': Iam, r: string) {
    && (forall q :: q in x.roles && q != r ==> q in x'.roles && x'.roles[q] == x.roles[q])
    && (forall q :: q in x'.roles ==> q in x.roles)
    && (forall p :: p in x.profiles && p != r ==> p in x'.profiles && x'.profiles[p] == x.profiles[p])
    && (forall p :: p in x'.profiles ==> p in x.profiles && x'.profiles[p] <= x.profiles[p])
    && (r in x.roles && r in x'.roles ==>
          x'.roles[r].trust == x.roles[r].trust && x'.roles[r].tags == x.roles[r].tags && x'.roles[r].creator == x.roles[r].creator)
  }

  lemma TornDownTwice(x: Iam, y: Iam, z: Iam, r: string)
    requires TornDown(x, y, r) && TornDown(y, z, r)
    ensures TornDown(x, z, r)
  {
  }

  lemma StrippingTearsDown(x: Iam, x': Iam, r: string)
    requires Stripping(x, x', r)
    ensures TornDown(x, x', r)
  {
  }

  predicate Removes(q: IamReq) {
    (q.RemoveFromProfile? && q.profile == q.r) || (q.DeleteProfile? && q.profile == q.r) || q.DropRole?
  }

  lemma RemovalServed(x: Iam, k: Key, q: IamReq, resp: Resp, x': Iam)
    requires IamServes(x, k, q, resp, x') && Removes(q)
    ensures TornDown(x, x', q.r)
    ensures !resp.Failed? ==> x' == IamEffect(x, k, q) && IamReply(x, q, resp)
    ensures q.DeleteProfile? && !resp.Failed? ==> q.r !in x'.profiles
    ensures q.DropRole? && resp == Done ==> q.r !in x'.roles
    ensures q.DropRole? ==> x'.profiles == x.profiles
  {
    hide InUse, IamEffect, TornDown;
    RemovalTearsDown(x, k, q);
    TornDownItself(x, q.r);
    RemovalReal(x, k, q, resp);
  }

  lemma RemovalTearsDown(x: Iam, k: Key, q: IamReq)
    requires Removes(q)
    ensures TornDown(x, IamEffect(x, k, q), q.r)
    ensures q.DropRole? ==> IamEffect(x, k, q).profiles == x.profiles
  {
    hide InUse;
  }

  lemma RemovalReal(x: Iam, k: Key, q: IamReq, resp: Resp)
    requires Removes(q)
    ensures IamReply(x, q, resp) && q.DeleteProfile? && !resp.Failed? ==> q.r !in IamEffect(x, k, q).profiles
    ensures IamReply(x, q, resp) && q.DropRole? && resp == Done ==> q.r !in IamEffect(x, k, q).roles
  {
    hide InUse;
  }

  /** A role without policies, after its own profile was dealt with. */
  lemma RemovalReplied(x: Iam, k: Key, r: string, resp: Resp, resp': Resp, resp'': Resp)
    requires r in x.roles && x.roles[r].attached == {} && x.roles[r].inline == map[]
    ensures var y := IamEffect(x, k, RemoveFromProfile(r, r));
            var z := IamEffect(y, k, DeleteProfile(r, r));
            IamReply(x, RemoveFromProfile(r, r), resp) && IamReply(y, DeleteProfile(r, r), resp') && IamReply(z, DropRole(r), resp'') ==>
            resp in {Done, Missing} && (Removable(x, r) <==> resp' in {Done, Missing} && resp'' == Done)
  {
    var y := IamEffect(x, k, RemoveFromProfile(r, r));
    var z := IamEffect(y, k, DeleteProfile(r, r));
    assert r in x.profiles ==> y.profiles[r] == x.profiles[r] - {r};
    assert r in x.profiles ==> (x.profiles[r] <= {r} <==> y.profiles[r] == {});
    assert forall p :: p in x.profiles && p != r ==> p in z.profiles && z.profiles[p] == x.profiles[p];
    assert InUse(z, r) <==> exists p :: p in z.profiles && r in z.profiles[p];
  }

  lemma StrippedRemovable(x: Iam, r: string)
    requires r in x.roles
    ensures var y := Stripped(x, r, {}, map[]);
            r in y.roles && y.roles[r].attached == {} && y.roles[r].inline == map[] && y.profiles == x.profiles &&
            (Removable(y, r) <==> Removable(x, r))
  {
  }

  /** Takes the role out of the instance profile of its own name and deletes that profile. */
  method RemoveProfile(s: Session, b: Bucket) returns (err: bool, ghost swallowed: bool)
    requires s.Valid() && s.Provider() == Aws && s.Pc() == Revoking(b)
    modifies s
    ensures s.Valid() && s.Advanced() && s.Pc() == Revoking(b)
    ensures swallowed <==> s.tally.passedOver > old(s.tally.passedOver)
    ensures !err ==> s.tally.failures - old(s.tally.failures) == s.tally.passedOver - old(s.tally.passedOver)
    ensures s.Quiet() ==> s.sys.w == old(s.sys.w).(iam := s.sys.w.iam) && TornDown(old(s.sys.w.iam), s.sys.w.iam, RoleName(b.spec))
    ensures s.Quiet() && !err && !swallowed ==> RoleName(b.spec) !in s.sys.w.iam.profiles
    ensures s.Clean() ==> ProfileRemoved(old(s.sys.w.iam), s.me, RoleName(b.spec), err, s.sys.w.iam)
    ensures s.Clean() ==> !swallowed
  {
    hide Session.Valid, IamServes, IamEffect, IamReply, TornDown, TakesProfile;
    var r := RoleName(b.spec);
    ghost var x, resp := s.sys.w.iam, Done;
    TakesOwn(r);
    err, resp := TryProfile(s, b, RemoveFromProfile(r, r));
    swallowed := resp == Failed(false);
    if err {
      return;
    }
    ghost var y, resp' := s.sys.w.iam, Done;
    err, resp' := TryProfile(s, b, DeleteProfile(r, r));
    swallowed := swallowed || resp' == Failed(false);
    if s.Quiet() {
      TornDownTwice(x, y, s.sys.w.iam, r);
    }
  }

  /** A call on the instance profile of the role's own name. */
  predicate TakesProfile(q: IamReq, r: string) {
    (q.RemoveFromProfile? || q.DeleteProfile?) && q.r == r && q.profile == r
  }

  lemma TakesOwn(r: string)
    ensures TakesProfile(RemoveFromProfile(r, r), r) && TakesProfile(DeleteProfile(r, r), r)
  {
  }

  /** An error the service reports is an error; a missing profile is not, and any other failure is passed over. */
  method TryProfile(s: Session, b: Bucket, q: IamReq) returns (err: bool, ghost resp: Resp)
    requires s.Valid() && s.Provider() == Aws && s.Pc() == Revoking(b) && TakesProfile(q, RoleName(b.spec))
    modifies s
    ensures s.Valid() && s.Advanced() && s.Pc() == Revoking(b)
    ensures err <==> resp == Failed(true)
    ensures s.tally.failures == old(s.tally.failures) + if resp.Failed? then 1 else 0
    ensures s.tally.passedOver == old(s.tally.passedOver) + if resp == Failed(false) then 1 else 0
    ensures s.Quiet() ==> s.sys.w == old(s.sys.w).(iam := s.sys.w.iam) && TornDown(old(s.sys.w.iam), s.sys.w.iam, RoleName(b.spec))
    ensures s.Quiet() && q.DeleteProfile? && !resp.Failed? ==> RoleName(b.spec) !in s.sys.w.iam.profiles
    ensures s.Clean() ==> IamReply(old(s.sys.w.iam), q, resp) && s.sys.w.iam == IamEffect(old(s.sys.w.iam), s.me, q)
    ensures s.Clean() ==> resp != Failed(false) && (q.RemoveFromProfile? ==> resp != Failed(true))
  {
    hide Session.Valid, IamServes, IamEffect, IamReply, TornDown, Allowed, Next;
    ghost var x := s.sys.w.iam;
    RevokeCalls(s.me, b, q);
    var answer := s.CallIam(q);
    resp, err := answer, answer == Failed(true);
    if s.Quiet() {
      RemovalServed(x, s.me, q, resp, s.sys.w.iam);
    }
    if s.Clean() {
      ProfileReplied(x, q, resp);
    }
  }

  lemma ProfileReplied(x: Iam, q: IamReq, resp: Resp)
    requires IamReply(x, q, resp) && OnProfile(OnIam(q))
    ensures resp != Failed(false) && (q.RemoveFromProfile? ==> resp != Failed(true))
  {
  }

  /** The outcome of removing the profile when no call is answered faultily. */
  ghost predicate ProfileRemoved(x: Iam, k: Key, r: string, err: bool, x': Iam) {
    exists resp, resp' ::
      var y := IamEffect(x, k, RemoveFromProfile(r, r));
      IamReply(x, RemoveFromProfile(r, r), resp) && IamReply(y, DeleteProfile(r, r), resp') &&
      (err <==> resp' == Failed(true)) && x' == IamEffect(y, k, DeleteProfile(r, r))
  }

  /**
   Takes the role apart and deletes it; an absent role is a success. Against a store
   that refuses to delete a role in use, success means that the role is gone, and so is
   the instance profile of its name unless an error the service did not report itself
   was passed over; `swallowed` holds exactly when the call history shows such an answer.
   */
  method DeleteRole(s: Session, b: Bucket) returns (err: bool, ghost swallowed: bool)
    requires s.Valid() && s.Provider() == Aws && s.Pc() == Revoking(b)
    modifies s
    ensures s.Valid() && s.Advanced()
    ensures !err ==> s.Pc() == Releasing(b)
    ensures swallowed <==> s.tally.passedOver > old(s.tally.passedOver)
    ensures !err ==> s.tally.failures - old(s.tally.failures) == s.tally.passedOver - old(s.tally.passedOver)
    ensures s.Quiet() ==> s.sys.w == old(s.sys.w).(iam := s.sys.w.iam) && TornDown(old(s.sys.w.iam), s.sys.w.iam, RoleName(b.spec))
    ensures s.Quiet() && !err ==> RoleName(b.spec) !in s.sys.w.iam.roles
    ensures s.Quiet() && !err && RoleName(b.spec) in old(s.sys.w.iam.roles) && !swallowed ==>
              RoleName(b.spec) !in s.sys.w.iam.profiles
    ensures s.Clean() ==> !swallowed && (!err <==> Removable(old(s.sys.w.iam), RoleName(b.spec)))
  {
    hide Session.Valid, IamServes, IamReply, IamEffect, TornDown, Removable, Stripping, Stripped, Allowed, Next, ProfileRemoved;
    var r := RoleName(b.spec);
    ghost var x := s.sys.w.iam;
    swallowed := false;
    TornDownItself(x, r);
    var role;
    role, err := GetRole(s, b);
    if err || role.None? {
      AbsentIsRemovable(x, r);
      return;
    }
    err := CleanAttachedPolicies(s, b);
    ghost var y := s.sys.w.iam;
    if s.Quiet() {
      StrippingTearsDown(x, y, r);
      StrippedRemovable(x, r);
    }
    if err {
      return;
    }
    err, swallowed := RemoveProfile(s, b);
    ghost var z := s.sys.w.iam;
    if s.Quiet() {
      TornDownTwice(x, y, z, r);
    }
    if err {
      if s.Clean() {
        RefusedProfile(y, s.me, r, z);
      }
      return;
    }
    ghost var resp;
    err, resp := DropStripped(s, b);
    if s.Quiet() {
      TornDownTwice(x, z, s.sys.w.iam, r);
    }
    if s.Clean() {
      DroppedWhenRemovable(y, s.me, r, z, resp);
    }
  }

  /** The last call of the teardown. */
  method DropStripped(s: Session, b: Bucket) returns (err: bool, ghost resp: Resp)
    requires s.Valid() && s.Provider() == Aws && s.Pc() == Revoking(b)
    modifies s
    ensures s.Valid() && s.Advanced() && s.tally.passedOver == old(s.tally.passedOver)
    ensures !err ==> s.tally.failures == old(s.tally.failures)
    ensures !err ==> s.Pc() == Releasing(b)
    ensures s.Quiet() ==> s.sys.w == old(s.sys.w).(iam := s.sys.w.iam) && TornDown(old(s.sys.w.iam), s.sys.w.iam, RoleName(b.spec))
    ensures s.Quiet() ==> s.sys.w.iam.profiles == old(s.sys.w.iam.profiles) && (!err ==> RoleName(b.spec) !in s.sys.w.iam.roles)
    ensures s.Clean() ==> IamReply(old(s.sys.w.iam), DropRole(RoleName(b.spec)), resp) && (!err <==> resp == Done)
  {
    hide Session.Valid, IamServes, IamReply, IamEffect, TornDown, Allowed, Next;
    var r := RoleName(b.spec);
    ghost var x := s.sys.w.iam;
    RevokeCalls(s.me, b, DropRole(r));
    var answer := s.CallIam(DropRole(r));
    resp, err := answer, answer != Done;
    if s.Quiet() {
      RemovalServed(x, s.me, DropRole(r), resp, s.sys.w.iam);
    }
  }

  lemma TornDownItself(x: Iam, r: string)
    ensures TornDown(x, x, r)
  {
  }

  lemma AbsentIsRemovable(x: Iam, r: string)
    ensures r !in x.roles ==> Removable(x, r)
  {
  }

  lemma RefusedProfile(x: Iam, k: Key, r: string, x': Iam)
    requires r in x.roles && x.roles[r].attached == {} && x.roles[r].inline == map[]
    requires ProfileRemoved(x, k, r, true, x')
    ensures !Removable(x, r)
  {
    var y := IamEffect(x, k, RemoveFromProfile(r, r));
    var resp, resp' :| IamReply(x, RemoveFromProfile(r, r), resp) && IamReply(y, DeleteProfile(r, r), resp') && resp' == Failed(true);
    assert r in x.profiles && y.profiles[r] == x.profiles[r] - {r} && y.profiles[r] != {};
  }

  lemma DroppedWhenRemovable(x: Iam, k: Key, r: string, z: Iam, resp'': Resp)
    requires r in x.roles && x.roles[r].attached == {} && x.roles[r].inline == map[]
    requires ProfileRemoved(x, k, r, false, z) && IamReply(z, DropRole(r), resp'')
    ensures resp'' == Done <==> Removable(x, r)
  {
    hide Removable;
    var y := IamEffect(x, k, RemoveFromProfile(r, r));
    var resp, resp' :| IamReply(x, RemoveFromProfile(r, r), resp) && IamReply(y, DeleteProfile(r, r), resp') && resp' != Failed(true);
    RemovalReplied(x, k, r, resp, resp', resp'');
  }
}
