/**
 Who may do what once a resource is settled on AWS: the documents stored with the role
 and the bucket, read back as IAM reads them.
 */
module Access {
  import opened Base
  import opened Cloud
  import opened Json
  import opened Templates
  import opened Documents
  import opened Policies
  import opened IamAdapter
  import opened Reconciler
  import S3Adapter

  /** The member `key` of an object, when it is a string. */
  function Text(v: Option<Json>, key: string): Option<string> {
    if v.None? then None
    else
      var m := Member(v.value, key);
      if m.Some? && m.value.Str? then Some(m.value.s) else None
  }

  /** Whom a trust statement admits: identity provider and subject as the provider reports it. */
  function Admitted(s: Statement, idp: string): (Option<string>, Option<string>) {
    (Text(s.principal, "Federated"),
     if s.condition.None? then None else Text(Member(s.condition.value, "StringEquals"), idp + ":sub"))
  }

  /** The trust document admits `subject` of `provider`. */
  ghost predicate Admits(text: string, idp: string, provider: string, subject: string) {
    ReadPolicy(text).Some? &&
    exists i :: 0 <= i < |ReadPolicy(text).value| && ReadPolicy(text).value[i].effect == ["Allow"] &&
                ReadPolicy(text).value[i].actions == ["sts:AssumeRoleWithWebIdentity"] &&
                Admitted(ReadPolicy(text).value[i], idp) == (Some(provider), Some(subject))
  }

  lemma OnlyMember(lead: string, key: string, doc: Doc, close: string)
    ensures Member(Value(DObj(Members(lead, [(key, doc)]), close)), key) == Some(Value(doc))
  {
    var ms := [(key, doc)];
    assert ms[1..] == [];
    assert Members(lead, ms) == DField(lead, key, doc, DEnd);
  }

  lemma StringValue(s: string)
    ensures Value(DStr(s)) == Str(s)
  {
  }

  lemma GrantAdmits(d: TrustData, subject: string)
    ensures Admitted(TrustGrant(d, subject), d.cloudFrontDomain) == (Some(Federated(d)), Some(subject))
    ensures TrustGrant(d, subject).effect == ["Allow"] && TrustGrant(d, subject).actions == ["sts:AssumeRoleWithWebIdentity"]
  {
    hide Members, Value, Member;
    var inner := DObj(Members(I5, [(d.cloudFrontDomain + ":sub", DStr(subject))]), I4);
    OnlyMember(I4, "StringEquals", inner, I3);
    OnlyMember(I5, d.cloudFrontDomain + ":sub", DStr(subject), I4);
    OnlyMember(I4, "Federated", DStr(Federated(d)), I3);
    StringValue(subject);
    StringValue(Federated(d));
  }

  /** A rendered trust document admits exactly the subjects it lists, of its own provider. */
  lemma TrustAdmits(d: TrustData, provider: string, subject: string)
    requires TrustDataSafe(d)
    ensures Admits(TrustText(d), d.cloudFrontDomain, provider, subject) <==> provider == Federated(d) && subject in Subjects(d)
  {
    hide TrustGrant, TrustText, Federated, Subject, ReadPolicy, Admitted;
    var subjects := Subjects(d);
    TrustPolicyMeans(d);
    TrustGrantsLength(d, subjects);
    var read := ReadPolicy(TrustText(d)).value;
    forall i | 0 <= i < |subjects|
      ensures |read| == |subjects| && read[i].effect == ["Allow"] && read[i].actions == ["sts:AssumeRoleWithWebIdentity"]
      ensures Admitted(read[i], d.cloudFrontDomain) == (Some(Federated(d)), Some(subjects[i]))
    {
      GrantAdmits(d, subjects[i]);
    }
    assert |read| == |subjects| by {
      assert 0 < |subjects|;
    }
    if subject in subjects {
      var i :| 0 <= i < |subjects| && subjects[i] == subject;
    }
  }

  /** Nothing in the cluster's description or the spec needs escaping. */
  predicate TextsSafe(spec: Spec, c: Cluster) {
    && AllPlain(c.accountId) && AllPlain(c.region) && AllPlain(c.name) && AllPlain(c.baseDomain)
    && AllPlain(spec.name)
    && (spec.accessRole.Some? ==>
          var role := spec.accessRole.value;
          AllPlain(role.serviceAccountName) && AllPlain(role.serviceAccountNamespace) && EachPlain(role.extraBucketNames))
  }

  lemma DomainsSafe(c: Cluster)
    requires AllPlain(c.accountId) && AllPlain(c.region) && AllPlain(c.name) && AllPlain(c.baseDomain)
    ensures AllPlain(AwsDomain(c.region)) && AllPlain(IrsaDomain(c))
  {
    assert AllPlain("aws") && AllPlain("aws-cn");
    assert AllPlain("s3.") && AllPlain(".amazonaws.com.cn/") && AllPlain("-g8s-") && AllPlain("-oidc-pod-identity-v3");
    assert AllPlain("irsa.") && AllPlain(".");
    if IsChinaRegion(c.region) {
      PlainConcat("s3.", c.region);
      PlainConcat("s3." + c.region, ".amazonaws.com.cn/");
      PlainConcat("s3." + c.region + ".amazonaws.com.cn/", c.accountId);
      PlainConcat("s3." + c.region + ".amazonaws.com.cn/" + c.accountId, "-g8s-");
      PlainConcat("s3." + c.region + ".amazonaws.com.cn/" + c.accountId + "-g8s-", c.name);
      PlainConcat("s3." + c.region + ".amazonaws.com.cn/" + c.accountId + "-g8s-" + c.name, "-oidc-pod-identity-v3");
    } else {
      PlainConcat("irsa.", c.name);
      PlainConcat("irsa." + c.name, ".");
      PlainConcat("irsa." + c.name + ".", c.baseDomain);
    }
  }

  /** How the resources of S3 are named in the partition of the region. */
  ghost function ArnPrefix(region: string): string {
    if OccursIn(region, "cn-") then "arn:aws-cn:s3:::" else "arn:aws:s3:::"
  }

  /** Who issues the tokens of the cluster's service accounts. */
  ghost function Issuer(c: Cluster): string {
    if OccursIn(c.region, "cn-") then
      "s3." + c.region + ".amazonaws.com.cn/" + c.accountId + "-g8s-" + c.name + "-oidc-pod-identity-v3"
    else "irsa." + c.name + "." + c.baseDomain
  }

  /** The OpenID Connect provider of the cluster, as registered with the account. */
  ghost function ProviderArn(c: Cluster): string {
    (if OccursIn(c.region, "cn-") then "arn:aws-cn:iam::" else "arn:aws:iam::") + c.accountId + ":oidc-provider/" + Issuer(c)
  }

  lemma DomainsMean(c: Cluster)
    ensures "arn:" + AwsDomain(c.region) + ":s3:::" == ArnPrefix(c.region)
    ensures IrsaDomain(c) == Issuer(c)
    ensures "arn:" + AwsDomain(c.region) + ":iam::" + c.accountId + ":oidc-provider/" + IrsaDomain(c) == ProviderArn(c)
  {
    ContainsMeans(c.region, "cn-");
    hide Contains, OccursIn;
    assert "arn:" + "aws" + ":s3:::" == "arn:aws:s3:::" && "arn:" + "aws-cn" + ":s3:::" == "arn:aws-cn:s3:::";
    assert "arn:" + "aws" + ":iam::" == "arn:aws:iam::" && "arn:" + "aws-cn" + ":iam::" == "arn:aws-cn:iam::";
  }

  /** The service accounts a role is meant for. */
  ghost predicate Intended(role: AccessRole, subject: string) {
    || subject == "system:serviceaccount:" + role.serviceAccountNamespace + ":" + role.serviceAccountName
    || (OccursIn(role.serviceAccountName, "grafana-postgresql") &&
        (|| subject == "system:serviceaccount:" + "monitoring" + ":" + "grafana-postgresql-recovery-test"
         || subject == "system:serviceaccount:" + "monitoring" + ":" + "plugin-barman-cloud"))
  }

  /** Each bucket in turn, and then its objects. */
  predicate Covers(resources: seq<string>, prefix: string, names: seq<string>) {
    && |resources| == 2 * |names|
    && forall i :: 0 <= i < |names| ==> resources[2 * i] == prefix + names[i] && resources[2 * i + 1] == prefix + names[i] + "/*"
  }

  lemma {:induction false} ArnsCover(domain: string, names: seq<string>)
    ensures Covers(Arns(domain, names), "arn:" + domain + ":s3:::", names)
  {
    if names != [] {
      var rest := names[1..];
      ArnsCover(domain, rest);
      var arns, prefix := Arns(domain, names), "arn:" + domain + ":s3:::";
      assert |arns| == 2 + |Arns(domain, rest)|;
      forall i | 0 <= i < |names|
        ensures arns[2 * i] == prefix + names[i] && arns[2 * i + 1] == prefix + names[i] + "/*"
      {
        if i > 0 {
          assert names[i] == rest[i - 1];
          assert arns[2 * i] == Arns(domain, rest)[2 * (i - 1)] && arns[2 * i + 1] == Arns(domain, rest)[2 * (i - 1) + 1];
        }
      }
    }
  }

  /** The statements grant the object actions on the named buckets, and the account actions on everything. */
  ghost predicate Grants(read: Option<seq<Statement>>, region: string, names: seq<string>) {
    && read.Some? && |read.value| == 2
    && read.value[0].effect == ["Allow"] && read.value[0].principal.None? && read.value[0].condition.None?
    && read.value[0].actions == ["s3:ListBucket", "s3:PutObject", "s3:GetObject", "s3:DeleteObject"]
    && Covers(read.value[0].resources, ArnPrefix(region), names)
    && read.value[1] == Statement(["Allow"], None, ["s3:GetAccessPoint", "s3:GetAccountPublicAccessBlock", "s3:ListAccessPoints"], ["*"], None)
  }

  lemma PolicyGrants(spec: Spec, c: Cluster)
    requires spec.accessRole.Some? && TextsSafe(spec, c)
    ensures Grants(ReadPolicy(PolicyOf(spec, c)), c.region, spec.accessRole.value.extraBucketNames + [spec.name])
  {
    hide RolePolicyText, ReadPolicy, AwsDomain, Arns, ArnPrefix, Covers;
    DomainsSafe(c);
    DomainsMean(c);
    RolePolicyMeans(RolePolicyData(AwsDomain(c.region), spec.name, spec.accessRole.value.extraBucketNames));
    ArnsCover(AwsDomain(c.region), spec.accessRole.value.extraBucketNames + [spec.name]);
  }

  lemma TrustGrantsIntended(role: AccessRole, c: Cluster, provider: string, subject: string)
    requires AllPlain(c.accountId) && AllPlain(c.region) && AllPlain(c.name) && AllPlain(c.baseDomain)
    requires AllPlain(role.serviceAccountName) && AllPlain(role.serviceAccountNamespace)
    ensures Admits(TrustOf(role, c), Issuer(c), provider, subject) <==> provider == ProviderArn(c) && Intended(role, subject)
  {
    hide TrustText, Admits, IrsaDomain, AwsDomain, Contains, OccursIn, Issuer, ProviderArn;
    DomainsSafe(c);
    DomainsMean(c);
    ContainsMeans(role.serviceAccountName, "grafana-postgresql");
    var d := TrustData(c.accountId, AwsDomain(c.region), IrsaDomain(c), role.serviceAccountName, role.serviceAccountNamespace,
                       Contains(role.serviceAccountName, "grafana-postgresql"));
    TrustAdmits(d, provider, subject);
  }

  /**
   A settled role can be assumed exactly by the service accounts it is meant for, as the
   cluster's own provider identifies them, and its inline policy grants the object actions
   on exactly the extra buckets, in order, and the bucket itself.
   */
  lemma SettledRoleGrants(x: Iam, who: Key, spec: Spec, c: Cluster, provider: string, subject: string)
    requires spec.accessRole.Some? && spec.accessRole.value.roleName != "" && TextsSafe(spec, c)
    ensures var r, settled := spec.accessRole.value.roleName, RoleSettled(x, who, spec, c);
            && r in settled.roles && r in settled.roles[r].inline
            && (Admits(settled.roles[r].trust, Issuer(c), provider, subject) <==>
                provider == ProviderArn(c) && Intended(spec.accessRole.value, subject))
            && Grants(ReadPolicy(settled.roles[r].inline[r]), c.region, spec.accessRole.value.extraBucketNames + [spec.name])
  {
    hide TrustOf, PolicyOf, ReadPolicy, Admits, Issuer, ProviderArn, Intended, Grants;
    TrustGrantsIntended(spec.accessRole.value, c, provider, subject);
    PolicyGrants(spec, c);
  }

  /** A resource that names no role leaves IAM alone. */
  lemma NoRoleSettlesNothing(x: Iam, who: Key, spec: Spec, c: Cluster)
    requires spec.accessRole.None? || spec.accessRole.value.roleName == ""
    ensures RoleSettled(x, who, spec, c) == x
  {
  }

  /** A settled bucket refuses every action of everybody, on itself and its objects, over insecure transport. */
  lemma SettledBucketDenies(x: S3, who: Key, spec: Spec, c: Cluster)
    requires TextsSafe(spec, c)
    ensures var settled := BucketSettled(x, who, spec, c);
            && spec.name in settled && settled[spec.name].policy.Some?
            && var read := ReadPolicy(settled[spec.name].policy.value);
            && read.Some? && |read.value| == 1
            && read.value[0].effect == ["Deny"] && read.value[0].principal == Some(Str("*")) && read.value[0].actions == ["s3:*"]
            && Covers(read.value[0].resources, ArnPrefix(c.region), [spec.name])
            && read.value[0].condition.Some?
            && Text(Member(read.value[0].condition.value, "Bool"), "aws:SecureTransport") == Some("false")
  {
    hide BucketPolicyText, ReadPolicy, AwsDomain, Arns, ArnPrefix, Covers;
    DomainsSafe(c);
    DomainsMean(c);
    BucketPolicyMeans(BucketPolicyData(AwsDomain(c.region), spec.name));
    ArnsCover(AwsDomain(c.region), [spec.name]);
    InsecureReads();
  }

  lemma InsecureReads()
    ensures Text(Member(Value(InsecureDoc()), "Bool"), "aws:SecureTransport") == Some("false")
  {
    assert Member(Value(InsecureDoc()), "Bool").Some?;
  }
}
