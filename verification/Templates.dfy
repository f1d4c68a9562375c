/**
 The policy templates, as text: the fixed lines of each template with its substitutions,
 the range loop over the extra bucket names, and the conditional block of the trust
 policy, comma and all.
 */
module Templates {
  import opened Base

  datatype RolePolicyData = RolePolicyData(awsDomain: string, bucketName: string, extraBucketNames: seq<string>)

  datatype TrustData = TrustData(
    accountId: string,
    awsDomain: string,
    cloudFrontDomain: string,
    serviceAccountName: string,
    serviceAccountNamespace: string,
    isGrafanaPostgresql: bool)

  datatype BucketPolicyData = BucketPolicyData(awsDomain: string, bucketName: string)

  /** `needle` occurs in `s`. */
  predicate Contains(s: string, needle: string) {
    needle <= s || (s != "" && Contains(s[1..], needle))
  }

  predicate OccursAt(s: string, needle: string, i: nat) {
    i + |needle| <= |s| && s[i..i + |needle|] == needle
  }

  /** `needle` stands somewhere in `s`. */
  ghost predicate OccursIn(s: string, needle: string) {
    exists i: nat :: OccursAt(s, needle, i)
  }

  lemma OccursLater(s: string, needle: string, i: nat)
    requires s != ""
    ensures OccursAt(s, needle, i + 1) <==> OccursAt(s[1..], needle, i)
  {
    if i + 1 + |needle| <= |s| {
      assert s[1..][i..i + |needle|] == s[i + 1..i + 1 + |needle|];
    }
  }

  lemma OccursFirst(s: string, needle: string)
    ensures OccursAt(s, needle, 0) <==> needle <= s
  {
  }

  lemma {:induction false} ContainsMeans(s: string, needle: string)
    ensures Contains(s, needle) <==> OccursIn(s, needle)
  {
    hide OccursAt;
    OccursFirst(s, needle);
    if s == "" {
      forall i: nat | OccursAt(s, needle, i)
        ensures i == 0
      {
        OnlyFirst(needle, i);
      }
    } else {
      var rest := s[1..];
      ContainsMeans(rest, needle);
      if i: nat :| OccursAt(rest, needle, i) {
        OccursLater(s, needle, i);
        assert OccursAt(s, needle, i + 1);
      }
      if i: nat :| OccursAt(s, needle, i) {
        if i > 0 {
          OccursLater(s, needle, i - 1);
          assert OccursAt(rest, needle, i - 1);
        }
      }
    }
  }

  lemma OnlyFirst(needle: string, i: nat)
    requires OccursAt("", needle, i)
    ensures i == 0
  {
  }

  predicate IsChinaRegion(region: string) {
    Contains(region, "cn-")
  }

  function AwsDomain(region: string): string {
    if IsChinaRegion(region) then "aws-cn" else "aws"
  }

  function IrsaDomain(c: Cluster): string {
    if IsChinaRegion(c.region) then
      "s3." + c.region + ".amazonaws.com.cn/" + c.accountId + "-g8s-" + c.name + "-oidc-pod-identity-v3"
    else "irsa." + c.name + "." + c.baseDomain
  }

  // The lines every template begins and ends with.
  const HEAD := "{" + "\n\t\"Version\": \"2012-10-17\"," + "\n\t\"Statement\": ["
  const TAIL := "\n\t]" + "\n}"

  /** A resource line for a bucket, without the comma. */
  function BucketLine(domain: string, name: string): string {
    "\n\t\t\t\t\"arn:" + domain + ":s3:::" + name + "\""
  }

  /** A resource line for the objects of a bucket, without the comma. */
  function ObjectsLine(domain: string, name: string): string {
    "\n\t\t\t\t\"arn:" + domain + ":s3:::" + name + "/*\""
  }

  // -------------------------------------------------------------------- role policy

  function RolePolicyText(d: RolePolicyData): string {
    HEAD + ObjectGrantText(d) + "," + AccountGrantText() + TAIL
  }

  function ObjectGrantText(d: RolePolicyData): string {
    "\n\t\t{" +
    "\n\t\t\t\"Effect\": \"Allow\"," +
    "\n\t\t\t\"Action\": [" +
    "\n\t\t\t\t\"s3:ListBucket\"," +
    "\n\t\t\t\t\"s3:PutObject\"," +
    "\n\t\t\t\t\"s3:GetObject\"," +
    "\n\t\t\t\t\"s3:DeleteObject\"" +
    "\n\t\t\t]," +
    "\n\t\t\t\"Resource\": [" +
    "\n\t\t\t\t" + RangeText(d.awsDomain, d.extraBucketNames) +
    BucketLine(d.awsDomain, d.bucketName) + "," +
    ObjectsLine(d.awsDomain, d.bucketName) +
    "\n\t\t\t]" +
    "\n\t\t}"
  }

  /** The body of the range, once per extra name. */
  function RangeText(domain: string, names: seq<string>): string {
    if names == [] then ""
    else
      BucketLine(domain, names[0]) + "," +
      ObjectsLine(domain, names[0]) + "," +
      "\n\t\t\t\t" + RangeText(domain, names[1..])
  }

  function AccountGrantText(): string {
    "\n\t\t{" +
    "\n\t\t\t\"Effect\": \"Allow\"," +
    "\n\t\t\t\"Action\": [" +
    "\n\t\t\t\t\"s3:GetAccessPoint\"," +
    "\n\t\t\t\t\"s3:GetAccountPublicAccessBlock\"," +
    "\n\t\t\t\t\"s3:ListAccessPoints\"" +
    "\n\t\t\t]," +
    "\n\t\t\t\"Resource\": \"*\"" +
    "\n\t\t}"
  }

  // ------------------------------------------------------------------- trust policy

  function TrustText(d: TrustData): string {
    HEAD + TrustStatementText(d, "system:serviceaccount:" + d.serviceAccountNamespace + ":" + d.serviceAccountName) +
    (if d.isGrafanaPostgresql then
       "," + TrustStatementText(d, "system:serviceaccount:" + "monitoring" + ":" + "grafana-postgresql-recovery-test") +
       "," + TrustStatementText(d, "system:serviceaccount:" + "monitoring" + ":" + "plugin-barman-cloud")
     else "") +
    TAIL
  }

  /** A statement of the trust policy; the three in the template differ in their subjects only. */
  function TrustStatementText(d: TrustData, subject: string): string {
    "\n\t\t{" +
    "\n\t\t\t\"Effect\": \"Allow\"," +
    "\n\t\t\t\"Principal\": {" +
    FederatedLine(d) +
    "\n\t\t\t}," +
    "\n\t\t\t\"Action\": \"sts:AssumeRoleWithWebIdentity\"," +
    "\n\t\t\t\"Condition\": {" +
    "\n\t\t\t\t\"StringEquals\": {" +
    SubjectLine(d, subject) +
    "\n\t\t\t\t}" +
    "\n\t\t\t}" +
    "\n\t\t}"
  }

  function FederatedLine(d: TrustData): string {
    "\n\t\t\t\t\"Federated\": \"arn:" + d.awsDomain + ":iam::" + d.accountId + ":oidc-provider/" + d.cloudFrontDomain + "\""
  }

  function SubjectLine(d: TrustData, subject: string): string {
    "\n\t\t\t\t\t\"" + d.cloudFrontDomain + ":sub\": \"" + subject + "\""
  }

  // ------------------------------------------------------------------ bucket policy

  function BucketPolicyText(d: BucketPolicyData): string {
    HEAD + DenialText(d) + TAIL
  }

  function DenialText(d: BucketPolicyData): string {
    "\n\t\t{" +
    "\n\t\t\t\"Sid\": \"EnforceSSLOnly\"," +
    "\n\t\t\t\"Effect\": \"Deny\"," +
    "\n\t\t\t\"Principal\": \"*\"," +
    "\n\t\t\t\"Action\": \"s3:*\"," +
    "\n\t\t\t\"Resource\": [" +
    BucketLine(d.awsDomain, d.bucketName) + "," +
    ObjectsLine(d.awsDomain, d.bucketName) +
    "\n\t\t\t]," +
    "\n\t\t\t\"Condition\": {" +
    "\n\t\t\t\t\"Bool\": {" +
    "\n\t\t\t\t\t\"aws:SecureTransport\": \"false\"" +
    "\n\t\t\t\t}" +
    "\n\t\t\t}" +
    "\n\t\t}"
  }
}
