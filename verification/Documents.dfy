/**
 The documents the policy templates stand for, and the proof that each template, with
 whatever is substituted, spells its document.
 */
module Documents {
  import opened Base
  import opened Json
  import opened Templates

  // ------------------------------------------------------------------ the documents

  const I0 := "\n"
  const I1 := "\n\t"
  const I2 := "\n\t\t"
  const I3 := "\n\t\t\t"
  const I4 := "\n\t\t\t\t"
  const I5 := "\n\t\t\t\t\t"

  // The words of the policy language, and the fixed values in the templates.
  const VERSION := "Version"
  const VERSION_DATE := "2012-10-17"
  const STATEMENT := "Statement"
  const EFFECT := "Effect"
  const ALLOW := "Allow"
  const DENY := "Deny"
  const ACTION := "Action"
  const RESOURCE := "Resource"
  const PRINCIPAL := "Principal"
  const CONDITION := "Condition"
  const FEDERATED := "Federated"
  const STRING_EQUALS := "StringEquals"
  const ANY := "*"
  const SID := "Sid"
  const SSL_ONLY := "EnforceSSLOnly"
  const ANY_S3 := "s3:*"
  const BOOL := "Bool"
  const SECURE_TRANSPORT := "aws:SecureTransport"
  const FALSE := "false"

  /** Strings on lines of their own. */
  function Lines(lead: string, xs: seq<string>): DItems {
    if xs == [] then DNone else DItem(lead, DStr(xs[0]), Lines(lead, xs[1..]))
  }

  /** Members on lines of their own. */
  function Members(lead: string, ms: seq<(string, Doc)>): DFields {
    if ms == [] then DEnd else DField(lead, ms[0].0, ms[0].1, Members(lead, ms[1..]))
  }

  function BucketArn(domain: string, name: string): string {
    "arn:" + domain + ":s3:::" + name
  }

  function ObjectsArn(domain: string, name: string): string {
    "arn:" + domain + ":s3:::" + name + "/*"
  }

  /** The resource array's items: the range over the extra names, then the bucket. */
  function ArnItems(domain: string, names: seq<string>): DItems {
    if names == [] then DNone
    else
      DItem(I4 + I4, DStr(BucketArn(domain, names[0])),
      DItem(I4, DStr(ObjectsArn(domain, names[0])),
      ArnItems(domain, names[1..])))
  }

  function StatementItems(statements: seq<Doc>): DItems {
    if statements == [] then DNone else DItem(I2, statements[0], StatementItems(statements[1..]))
  }

  function PolicyDoc(statements: seq<Doc>): Doc {
    DObj(Members(I1, [(VERSION, DStr(VERSION_DATE)), (STATEMENT, DArr(StatementItems(statements), I1))]), I0)
  }

  const OBJECT_ACTIONS := ["s3:ListBucket", "s3:PutObject", "s3:GetObject", "s3:DeleteObject"]
  const ACCOUNT_ACTIONS := ["s3:GetAccessPoint", "s3:GetAccountPublicAccessBlock", "s3:ListAccessPoints"]

  function GrantDoc(actions: seq<string>, resource: Doc): Doc {
    DObj(Members(I3, [
      (EFFECT, DStr(ALLOW)),
      (ACTION, DArr(Lines(I4, actions), I3)),
      (RESOURCE, resource)]), I2)
  }

  function RolePolicyDoc(d: RolePolicyData): Doc {
    PolicyDoc(
      [GrantDoc(OBJECT_ACTIONS, DArr(ArnItems(d.awsDomain, d.extraBucketNames + [d.bucketName]), I3)),
       GrantDoc(ACCOUNT_ACTIONS, DStr(ANY))])
  }

  function Federated(d: TrustData): string {
    "arn:" + d.awsDomain + ":iam::" + d.accountId + ":oidc-provider/" + d.cloudFrontDomain
  }

  function Subject(namespace: string, name: string): string {
    "system:serviceaccount:" + namespace + ":" + name
  }

  const WEB_IDENTITY := "sts:AssumeRoleWithWebIdentity"

  function PrincipalDoc(d: TrustData): Doc {
    DObj(Members(I4, [(FEDERATED, DStr(Federated(d)))]), I3)
  }

  function SubjectDoc(d: TrustData, subject: string): Doc {
    DObj(Members(I4, [(STRING_EQUALS, DObj(Members(I5, [(d.cloudFrontDomain + ":sub", DStr(subject))]), I4))]), I3)
  }

  function TrustStatement(d: TrustData, subject: string): Doc {
    DObj(Members(I3, [
      (EFFECT, DStr(ALLOW)),
      (PRINCIPAL, PrincipalDoc(d)),
      (ACTION, DStr(WEB_IDENTITY)),
      (CONDITION, SubjectDoc(d, subject))]), I2)
  }

  function TrustDoc(d: TrustData): Doc {
    PolicyDoc(TrustStatements(d, Subjects(d)))
  }

  /** One statement per admitted subject. */
  function TrustStatements(d: TrustData, subjects: seq<string>): seq<Doc> {
    if subjects == [] then [] else [TrustStatement(d, subjects[0])] + TrustStatements(d, subjects[1..])
  }

  /** The service account named, and two fixed ones for a Grafana database. */
  function Subjects(d: TrustData): seq<string> {
    [Subject(d.serviceAccountNamespace, d.serviceAccountName)] +
    if d.isGrafanaPostgresql then
      [Subject("monitoring", "grafana-postgresql-recovery-test"), Subject("monitoring", "plugin-barman-cloud")]
    else []
  }

  function InsecureDoc(): Doc {
    DObj(Members(I4, [(BOOL, DObj(Members(I5, [(SECURE_TRANSPORT, DStr(FALSE))]), I4))]), I3)
  }

  function DenyDoc(d: BucketPolicyData): Doc {
    DObj(Members(I3, [
      (SID, DStr(SSL_ONLY)),
      (EFFECT, DStr(DENY)),
      (PRINCIPAL, DStr(ANY)),
      (ACTION, DStr(ANY_S3)),
      (RESOURCE, DArr(Lines(I4, [BucketArn(d.awsDomain, d.bucketName), ObjectsArn(d.awsDomain, d.bucketName)]), I3)),
      (CONDITION, InsecureDoc())]), I2)
  }

  function BucketPolicyDoc(d: BucketPolicyData): Doc {
    PolicyDoc([DenyDoc(d)])
  }

  // ------------------------------------------------------- templates spell documents

  /** The lines that frame every policy. */
  lemma FrameLines()
    ensures "\n\t\"Version\": \"2012-10-17\"," == I1 + Quote(VERSION) + ": " + Quote(VERSION_DATE) + ","
    ensures "\n\t\"Statement\": [" == I1 + Quote(STATEMENT) + ": ["
    ensures "\n\t]" == I1 + "]" && "\n}" == I0 + "}"
  {
  }

  lemma PolicySpells(statements: seq<Doc>)
    ensures Spell(PolicyDoc(statements)) == HEAD + SpellItems(StatementItems(statements)) + TAIL
  {
    FrameLines();
    hide I0, I1, VERSION, VERSION_DATE, STATEMENT, Quote, StatementItems, SpellItems;
    var ms := [(VERSION, DStr(VERSION_DATE)), (STATEMENT, DArr(StatementItems(statements), I1))];
    var x := SpellItems(StatementItems(statements));
    TwoMembers(I1, ms);
    assert Spell(ms[1].1) == "[" + x + I1 + "]";
    assert Spell(PolicyDoc(statements)) == "{" + SpellFields(Members(I1, ms)) + I0 + "}";
  }

  lemma LastMember(lead: string, ms: seq<(string, Doc)>)
    requires |ms| == 1
    ensures SpellFields(Members(lead, ms)) == lead + Quote(ms[0].0) + ": " + Spell(ms[0].1)
  {
    hide Quote, Spell;
    assert Members(lead, ms[1..]) == DEnd;
  }

  lemma FirstMember(lead: string, ms: seq<(string, Doc)>)
    requires |ms| > 1
    ensures SpellFields(Members(lead, ms)) ==
            lead + Quote(ms[0].0) + ": " + Spell(ms[0].1) + "," + SpellFields(Members(lead, ms[1..]))
  {
    hide Quote, Spell;
    assert Members(lead, ms[1..]).DField?;
  }

  lemma TwoMembers(lead: string, ms: seq<(string, Doc)>)
    requires |ms| == 2
    ensures SpellFields(Members(lead, ms)) ==
            lead + Quote(ms[0].0) + ": " + Spell(ms[0].1) + "," + (lead + Quote(ms[1].0) + ": " + Spell(ms[1].1))
  {
    hide Quote, Spell, SpellFields, Members;
    FirstMember(lead, ms);
    LastMember(lead, ms[1..]);
  }

  /** Statements one after the other, a comma between any two. */
  lemma FirstStatement(statements: seq<Doc>)
    requires statements != []
    ensures SpellItems(StatementItems(statements)) ==
            I2 + Spell(statements[0]) + if |statements| == 1 then "" else "," + SpellItems(StatementItems(statements[1..]))
  {
    hide I2, Spell;
  }

  lemma LineSpells(lead: string, xs: seq<string>)
    requires xs != []
    ensures SpellItems(Lines(lead, xs)) ==
            lead + Quote(xs[0]) + if |xs| == 1 then "" else "," + SpellItems(Lines(lead, xs[1..]))
  {
    hide Quote;
  }

  // -------------------------------------------------------------------- role policy

  lemma ArnLines(domain: string, name: string)
    ensures BucketLine(domain, name) == I4 + Quote(BucketArn(domain, name))
    ensures ObjectsLine(domain, name) == I4 + Quote(ObjectsArn(domain, name))
  {
    assert "\n\t\t\t\t\"arn:" == I4 + ("\"" + "arn:");
    assert "/*\"" == "/*" + "\"";
  }

  /**
   What the range writes between the brackets, followed by the lines of the bucket, is
   one item per line with a comma between any two and none after the last.
   */
  lemma {:induction false} RangeSpellsItems(domain: string, names: seq<string>, bucket: string)
    ensures SpellItems(ArnItems(domain, names + [bucket])) ==
            I4 + RangeText(domain, names) + (BucketLine(domain, bucket) + "," + ObjectsLine(domain, bucket))
  {
    hide Quote, BucketArn, ObjectsArn, SpellItems, BucketLine, ObjectsLine;
    var all := names + [bucket];
    var tail := ArnItems(domain, all[1..]);
    ArnLines(domain, all[0]);
    PairSpells(I4, BucketArn(domain, all[0]), ObjectsArn(domain, all[0]), tail);
    if names == [] {
      assert all[1..] == [];
    } else {
      assert all[1..] == names[1..] + [bucket];
      assert !tail.DNone?;
      RangeSpellsItems(domain, names[1..], bucket);
      Regroup(I4, BucketLine(domain, names[0]), ObjectsLine(domain, names[0]), RangeText(domain, names[1..]),
              BucketLine(domain, bucket) + "," + ObjectsLine(domain, bucket));
    }
  }

  lemma PairSpells(i: string, x: string, y: string, tail: DItems)
    ensures SpellItems(DItem(i + i, DStr(x), DItem(i, DStr(y), tail))) ==
            i + ((i + Quote(x)) + "," + (i + Quote(y))) + if tail.DNone? then "" else "," + SpellItems(tail)
  {
    hide Quote, SpellItems;
    ItemSpells(i, y, tail);
    ItemSpells(i + i, x, DItem(i, DStr(y), tail));
    RegroupPair(i, Quote(x), Quote(y), if tail.DNone? then "" else "," + SpellItems(tail));
  }

  lemma ItemSpells(lead: string, x: string, tail: DItems)
    ensures SpellItems(DItem(lead, DStr(x), tail)) == lead + Quote(x) + if tail.DNone? then "" else "," + SpellItems(tail)
  {
    hide Quote;
  }

  lemma RegroupPair(i: string, x: string, y: string, rest: string)
    ensures i + i + x + ("," + (i + y + rest)) == i + ((i + x) + "," + (i + y)) + rest
  {
  }

  lemma Regroup(i: string, bucket: string, objects: string, range: string, last: string)
    ensures i + (bucket + "," + objects) + ("," + (i + range + last)) ==
            i + (bucket + "," + objects + "," + i + range) + last
  {
  }

  lemma GrantLines()
    ensures "\n\t\t{" == I2 + "{" && "\n\t\t}" == I2 + "}" && "\n\t\t\t]," == I3 + "]," && "\n\t\t\t]" == I3 + "]"
    ensures "\n\t\t\t\"Effect\": \"Allow\"," == I3 + Quote(EFFECT) + ": " + Quote(ALLOW) + ","
    ensures "\n\t\t\t\"Action\": [" == I3 + Quote(ACTION) + ": ["
  {
  }

  lemma ResourceLines()
    ensures "\n\t\t\t\"Resource\": [" == I3 + Quote(RESOURCE) + ": ["
    ensures "\n\t\t\t\"Resource\": \"*\"" == I3 + Quote(RESOURCE) + ": " + Quote(ANY)
  {
  }

  /** A grant, line by line. */
  lemma GrantSpells(actions: seq<string>, resource: Doc)
    ensures I2 + Spell(GrantDoc(actions, resource)) ==
            "\n\t\t{" + "\n\t\t\t\"Effect\": \"Allow\"," + "\n\t\t\t\"Action\": [" + SpellItems(Lines(I4, actions)) +
            "\n\t\t\t]," + (I3 + Quote(RESOURCE) + ": " + Spell(resource)) + "\n\t\t}"
  {
    GrantLines();
    hide I2, I3, I4, EFFECT, ALLOW, ACTION, RESOURCE, Quote, Lines, SpellItems, SpellFields, Members;
    var ms := [(EFFECT, DStr(ALLOW)), (ACTION, DArr(Lines(I4, actions), I3)), (RESOURCE, resource)];
    FirstMember(I3, ms);
    TwoMembers(I3, ms[1..]);
    var x, r := SpellItems(Lines(I4, actions)), Spell(resource);
    assert Spell(ms[0].1) == Quote(ALLOW) && Spell(ms[1].1) == "[" + x + I3 + "]";
    assert Spell(GrantDoc(actions, resource)) == "{" + SpellFields(Members(I3, ms)) + I2 + "}";
    hide Spell;
    RegroupGrant(I2, I3, Quote(EFFECT), Quote(ALLOW), Quote(ACTION), x, Quote(RESOURCE), r);
  }

  lemma RegroupGrant(i: string, j: string, effect: string, allow: string, action: string, x: string, resource: string, r: string)
    ensures i + ("{" + (j + effect + ": " + allow + "," + (j + action + ": " + ("[" + x + j + "]") + "," + (j + resource + ": " + r))) + i + "}") ==
            (i + "{") + (j + effect + ": " + allow + ",") + (j + action + ": [") + x + (j + "],") + (j + resource + ": " + r) + (i + "}")
  {
  }

  lemma ObjectActionLines()
    ensures SpellItems(Lines(I4, OBJECT_ACTIONS)) ==
            "\n\t\t\t\t\"s3:ListBucket\"," + "\n\t\t\t\t\"s3:PutObject\"," + "\n\t\t\t\t\"s3:GetObject\"," + "\n\t\t\t\t\"s3:DeleteObject\""
  {
    var xs := ["s3:PutObject", "s3:GetObject", "s3:DeleteObject"];
    ObjectActionLiterals();
    hide I4, Quote, Lines, SpellItems;
    assert OBJECT_ACTIONS[1..] == xs;
    LineSpells(I4, OBJECT_ACTIONS);
    ThreeLines(I4, xs);
  }

  lemma ObjectActionLiterals()
    ensures "\n\t\t\t\t\"s3:ListBucket\"," == I4 + Quote("s3:ListBucket") + ","
    ensures "\n\t\t\t\t\"s3:PutObject\"," == I4 + Quote("s3:PutObject") + ","
    ensures "\n\t\t\t\t\"s3:GetObject\"," == I4 + Quote("s3:GetObject") + ","
    ensures "\n\t\t\t\t\"s3:DeleteObject\"" == I4 + Quote("s3:DeleteObject")
  {
    ListLiteral();
    PutLiteral();
    GetLiteral();
    DeleteLiteral();
  }

  lemma ListLiteral()
    ensures "\n\t\t\t\t\"s3:ListBucket\"," == I4 + Quote("s3:ListBucket") + ","
  {
  }

  lemma PutLiteral()
    ensures "\n\t\t\t\t\"s3:PutObject\"," == I4 + Quote("s3:PutObject") + ","
  {
  }

  lemma GetLiteral()
    ensures "\n\t\t\t\t\"s3:GetObject\"," == I4 + Quote("s3:GetObject") + ","
  {
  }

  lemma DeleteLiteral()
    ensures "\n\t\t\t\t\"s3:DeleteObject\"" == I4 + Quote("s3:DeleteObject")
  {
  }

  lemma ThreeLines(lead: string, xs: seq<string>)
    requires |xs| == 3
    ensures SpellItems(Lines(lead, xs)) == (lead + Quote(xs[0]) + ",") + (lead + Quote(xs[1]) + ",") + (lead + Quote(xs[2]))
  {
    hide Quote, Lines, SpellItems;
    LineSpells(lead, xs);
    LineSpells(lead, xs[1..]);
    LineSpells(lead, xs[1..][1..]);
  }

  lemma AccountActionLines()
    ensures SpellItems(Lines(I4, ACCOUNT_ACTIONS)) ==
            "\n\t\t\t\t\"s3:GetAccessPoint\"," + "\n\t\t\t\t\"s3:GetAccountPublicAccessBlock\"," + "\n\t\t\t\t\"s3:ListAccessPoints\""
  {
    AccountActionLiterals();
    hide I4, Quote, Lines, SpellItems;
    ThreeLines(I4, ACCOUNT_ACTIONS);
  }

  lemma AccountActionLiterals()
    ensures "\n\t\t\t\t\"s3:GetAccessPoint\"," == I4 + Quote("s3:GetAccessPoint") + ","
    ensures "\n\t\t\t\t\"s3:GetAccountPublicAccessBlock\"," == I4 + Quote("s3:GetAccountPublicAccessBlock") + ","
    ensures "\n\t\t\t\t\"s3:ListAccessPoints\"" == I4 + Quote("s3:ListAccessPoints")
  {
    LongLiteral();
    AccessPointLiteral();
    AccessPointsLiteral();
  }

  lemma AccessPointLiteral()
    ensures "\n\t\t\t\t\"s3:GetAccessPoint\"," == I4 + Quote("s3:GetAccessPoint") + ","
  {
  }

  lemma AccessPointsLiteral()
    ensures "\n\t\t\t\t\"s3:ListAccessPoints\"" == I4 + Quote("s3:ListAccessPoints")
  {
  }

  lemma LongLiteral()
    ensures "\n\t\t\t\t\"s3:GetAccountPublicAccessBlock\"," == I4 + Quote("s3:GetAccountPublicAccessBlock") + ","
  {
    LongName();
    LongLine();
    LongHead();
    hide I4;
    QuoteSplits(I4, "s3:GetAccount", "PublicAccessBlock");
    assert "PublicAccessBlock\"," == "PublicAccessBlock" + "\",";
  }

  lemma LongName()
    ensures "s3:GetAccountPublicAccessBlock" == "s3:GetAccount" + "PublicAccessBlock"
  {
  }

  lemma LongLine()
    ensures "\n\t\t\t\t\"s3:GetAccountPublicAccessBlock\"," == "\n\t\t\t\t\"s3:GetAccount" + "PublicAccessBlock\","
  {
  }

  lemma LongHead()
    ensures "\n\t\t\t\t\"s3:GetAccount" == I4 + "\"" + "s3:GetAccount"
  {
  }

  lemma QuoteSplits(lead: string, a: string, b: string)
    ensures lead + Quote(a + b) + "," == (lead + "\"" + a) + (b + "\",")
  {
  }

  /** The resource member of the first statement, range and all. */
  function ResourcesText(d: RolePolicyData): string {
    "\n\t\t\t\"Resource\": [" +
    (I4 + RangeText(d.awsDomain, d.extraBucketNames) +
     (BucketLine(d.awsDomain, d.bucketName) + "," + ObjectsLine(d.awsDomain, d.bucketName))) +
    "\n\t\t\t]"
  }

  lemma ResourcesRender(d: RolePolicyData)
    ensures ResourcesText(d) ==
            I3 + Quote(RESOURCE) + ": " + Spell(DArr(ArnItems(d.awsDomain, d.extraBucketNames + [d.bucketName]), I3))
  {
    var items := ArnItems(d.awsDomain, d.extraBucketNames + [d.bucketName]);
    GrantLines();
    ResourceLines();
    RangeSpellsItems(d.awsDomain, d.extraBucketNames, d.bucketName);
    hide I3, I4, RESOURCE, Quote, SpellItems, ArnItems, RangeText, BucketLine, ObjectsLine;
    assert Spell(DArr(items, I3)) == "[" + SpellItems(items) + I3 + "]";
    RegroupObjects(I3 + Quote(RESOURCE) + ": ", SpellItems(items), I3);
  }

  lemma ObjectGrantLines(d: RolePolicyData)
    ensures ObjectGrantText(d) ==
            "\n\t\t{" + "\n\t\t\t\"Effect\": \"Allow\"," + "\n\t\t\t\"Action\": [" + SpellItems(Lines(I4, OBJECT_ACTIONS)) +
            "\n\t\t\t]," + ResourcesText(d) + "\n\t\t}"
  {
    ObjectActionLines();
    assert "\n\t\t\t\t" == I4;
    hide I4, SpellItems, Lines, RangeText, BucketLine, ObjectsLine, OBJECT_ACTIONS;
    var range, bucket, objects := RangeText(d.awsDomain, d.extraBucketNames), BucketLine(d.awsDomain, d.bucketName), ObjectsLine(d.awsDomain, d.bucketName);
    RegroupObjectGrant(
      "\n\t\t{" + "\n\t\t\t\"Effect\": \"Allow\"," + "\n\t\t\t\"Action\": [",
      "\n\t\t\t\t\"s3:ListBucket\",", "\n\t\t\t\t\"s3:PutObject\",", "\n\t\t\t\t\"s3:GetObject\",", "\n\t\t\t\t\"s3:DeleteObject\"",
      "\n\t\t\t],", "\n\t\t\t\"Resource\": [", I4, range, bucket, objects, "\n\t\t\t]", "\n\t\t}");
  }

  /** The first statement of the role policy. */
  lemma ObjectGrantRenders(d: RolePolicyData)
    ensures ObjectGrantText(d) ==
            I2 + Spell(GrantDoc(OBJECT_ACTIONS, DArr(ArnItems(d.awsDomain, d.extraBucketNames + [d.bucketName]), I3)))
  {
    hide I2, I3, RESOURCE, Quote, Spell, SpellItems, Lines, GrantDoc, ArnItems, ResourcesText, ObjectGrantText, OBJECT_ACTIONS;
    ObjectGrantLines(d);
    ResourcesRender(d);
    GrantSpells(OBJECT_ACTIONS, DArr(ArnItems(d.awsDomain, d.extraBucketNames + [d.bucketName]), I3));
  }

  lemma RegroupObjects(resource: string, items: string, i: string)
    ensures resource + ("[" + items + i + "]") == (resource + "[") + items + (i + "]")
  {
  }

  lemma RegroupObjectGrant(open: string, a: string, b: string, c: string, d: string, close: string, resource: string,
                           i: string, range: string, bucket: string, objects: string, close': string, end: string)
    ensures open + a + b + c + d + close + resource + i + range + bucket + "," + objects + close' + end ==
            open + (a + b + c + d) + close + (resource + (i + range + (bucket + "," + objects)) + close') + end
  {
  }

  lemma AccountGrantRenders()
    ensures AccountGrantText() == I2 + Spell(GrantDoc(ACCOUNT_ACTIONS, DStr(ANY)))
  {
    GrantLines();
    ResourceLines();
    hide I2, I3, RESOURCE, ANY, Quote, SpellItems, Lines, GrantDoc, ACCOUNT_ACTIONS;
    AccountActionLines();
    GrantSpells(ACCOUNT_ACTIONS, DStr(ANY));
  }

  /** The role policy template spells the role policy, whatever the names. */
  lemma RolePolicyRenders(d: RolePolicyData)
    ensures RolePolicyText(d) == Spell(RolePolicyDoc(d))
  {
    hide HEAD, TAIL, I2, GrantDoc, ArnItems, PolicyDoc, Spell, SpellItems, StatementItems, ObjectGrantText, AccountGrantText, ANY;
    ObjectGrantRenders(d);
    AccountGrantRenders();
    var statements := [GrantDoc(OBJECT_ACTIONS, DArr(ArnItems(d.awsDomain, d.extraBucketNames + [d.bucketName]), I3)),
                       GrantDoc(ACCOUNT_ACTIONS, DStr(ANY))];
    PolicySpells(statements);
    FirstStatement(statements);
    FirstStatement(statements[1..]);
  }

  // ------------------------------------------------------------------- trust policy

  lemma FederatedRenders(d: TrustData)
    ensures FederatedLine(d) == I4 + Quote(FEDERATED) + ": " + Quote(Federated(d))
  {
    assert "\n\t\t\t\t\"Federated\": \"arn:" == I4 + Quote(FEDERATED) + ": " + "\"" + "arn:";
    hide I4, FEDERATED;
  }

  lemma SubjectRenders(d: TrustData, subject: string)
    ensures SubjectLine(d, subject) == I5 + Quote(d.cloudFrontDomain + ":sub") + ": " + Quote(subject)
  {
    assert "\n\t\t\t\t\t\"" == I5 + "\"";
    assert ":sub\": \"" == ":sub" + "\"" + ": " + "\"";
    hide I5;
  }

  lemma BraceLines()
    ensures "\n\t\t\t\"Principal\": {" == I3 + Quote(PRINCIPAL) + ": {"
    ensures "\n\t\t\t\"Condition\": {" == I3 + Quote(CONDITION) + ": {"
    ensures "\n\t\t\t}," == I3 + "}," && "\n\t\t\t}" == I3 + "}" && "\n\t\t\t\t}" == I4 + "}"
  {
  }

  lemma StringEqualsLine()
    ensures "\n\t\t\t\t\"StringEquals\": {" == I4 + Quote(STRING_EQUALS) + ": {"
  {
  }

  lemma WebIdentityLine()
    ensures "\n\t\t\t\"Action\": \"sts:AssumeRoleWithWebIdentity\"," == I3 + Quote(ACTION) + ": " + Quote(WEB_IDENTITY) + ","
  {
    assert "\n\t\t\t\"Action\": \"sts:AssumeRoleWithWebIdentity\"," == "\n\t\t\t\"Action\": \"" + "sts:AssumeRoleWithWebIdentity" + "\",";
    ActionLine();
    hide I3, ACTION, WEB_IDENTITY;
    assert WEB_IDENTITY == "sts:AssumeRoleWithWebIdentity";
    RegroupQuote(I3 + Quote(ACTION) + ": ", WEB_IDENTITY);
  }

  lemma ActionLine()
    ensures "\n\t\t\t\"Action\": \"" == I3 + Quote(ACTION) + ": " + "\""
  {
  }

  lemma RegroupQuote(a: string, s: string)
    ensures a + "\"" + s + "\"," == a + Quote(s) + ","
  {
  }

  /** An object with a single member. */
  lemma OneMember(lead: string, key: string, v: Doc, close: string)
    ensures Spell(DObj(Members(lead, [(key, v)]), close)) == "{" + (lead + Quote(key) + ": " + Spell(v)) + close + "}"
  {
    hide Quote, Members, SpellFields;
    LastMember(lead, [(key, v)]);
  }

  lemma PrincipalSpells(d: TrustData)
    ensures Spell(PrincipalDoc(d)) == "{" + FederatedLine(d) + I3 + "}"
  {
    hide I3, I4, Quote, Federated, FEDERATED, FederatedLine;
    FederatedRenders(d);
    OneMember(I4, FEDERATED, DStr(Federated(d)), I3);
  }

  lemma SubjectSpells(d: TrustData, subject: string)
    ensures Spell(SubjectDoc(d, subject)) ==
            "{" + (I4 + Quote(STRING_EQUALS) + ": " + ("{" + SubjectLine(d, subject) + I4 + "}")) + I3 + "}"
  {
    hide I3, I4, I5, Quote, STRING_EQUALS, SubjectLine, Members;
    SubjectRenders(d, subject);
    var inner := DObj(Members(I5, [(d.cloudFrontDomain + ":sub", DStr(subject))]), I4);
    OneMember(I5, d.cloudFrontDomain + ":sub", DStr(subject), I4);
    OneMember(I4, STRING_EQUALS, inner, I3);
  }

  lemma FourMembers(lead: string, ms: seq<(string, Doc)>)
    requires |ms| == 4
    ensures SpellFields(Members(lead, ms)) ==
            lead + Quote(ms[0].0) + ": " + Spell(ms[0].1) + "," +
            (lead + Quote(ms[1].0) + ": " + Spell(ms[1].1) + "," +
             (lead + Quote(ms[2].0) + ": " + Spell(ms[2].1) + "," + (lead + Quote(ms[3].0) + ": " + Spell(ms[3].1))))
  {
    hide Quote, Spell, SpellFields, Members;
    FirstMember(lead, ms);
    FirstMember(lead, ms[1..]);
    TwoMembers(lead, ms[1..][1..]);
  }

  /** A statement of the trust policy. */
  lemma TrustStatementRenders(d: TrustData, subject: string)
    ensures TrustStatementText(d, subject) == I2 + Spell(TrustStatement(d, subject))
  {
    GrantLines();
    BraceLines();
    StringEqualsLine();
    WebIdentityLine();
    hide I2, I3, I4, EFFECT, ALLOW, PRINCIPAL, ACTION, WEB_IDENTITY, CONDITION, STRING_EQUALS, Quote, Members, SpellFields,
         FederatedLine, SubjectLine, PrincipalDoc, SubjectDoc;
    var ms := [(EFFECT, DStr(ALLOW)), (PRINCIPAL, PrincipalDoc(d)), (ACTION, DStr(WEB_IDENTITY)), (CONDITION, SubjectDoc(d, subject))];
    FourMembers(I3, ms);
    PrincipalSpells(d);
    SubjectSpells(d, subject);
    assert Spell(ms[0].1) == Quote(ALLOW) && Spell(ms[2].1) == Quote(WEB_IDENTITY);
    assert Spell(TrustStatement(d, subject)) == "{" + SpellFields(Members(I3, ms)) + I2 + "}";
    hide Spell;
    RegroupTrust(I2, I3, I4, Quote(EFFECT), Quote(ALLOW), Quote(PRINCIPAL), FederatedLine(d), Quote(ACTION), Quote(WEB_IDENTITY),
                 Quote(CONDITION), Quote(STRING_EQUALS), SubjectLine(d, subject));
  }

  lemma RegroupTrust(i: string, j: string, k: string, effect: string, allow: string, principal: string, federated: string,
                     action: string, web: string, condition: string, equals: string, subject: string)
    ensures i + ("{" + (j + effect + ": " + allow + "," +
                        (j + principal + ": " + ("{" + federated + j + "}") + "," +
                         (j + action + ": " + web + "," +
                          (j + condition + ": " + ("{" + (k + equals + ": " + ("{" + subject + k + "}")) + j + "}"))))) + i + "}") ==
            (i + "{") + (j + effect + ": " + allow + ",") + (j + principal + ": {") + federated + (j + "},") +
            (j + action + ": " + web + ",") + (j + condition + ": {") + (k + equals + ": {") + subject + (k + "}") + (j + "}") + (i + "}")
  {
    RegroupInner(j + condition + ": ", k + equals + ": ", subject, j, k);
    RegroupOuter(i, j, effect, allow, principal, federated, action, web, j + condition + ": " + ("{" + (k + equals + ": " + ("{" + subject + k + "}")) + j + "}"));
  }

  lemma RegroupInner(condition: string, equals: string, subject: string, j: string, k: string)
    ensures condition + ("{" + (equals + ("{" + subject + k + "}")) + j + "}") ==
            (condition + "{") + (equals + "{") + subject + (k + "}") + (j + "}")
  {
  }

  lemma RegroupOuter(i: string, j: string, effect: string, allow: string, principal: string, federated: string,
                     action: string, web: string, rest: string)
    ensures i + ("{" + (j + effect + ": " + allow + "," +
                        (j + principal + ": " + ("{" + federated + j + "}") + "," + (j + action + ": " + web + "," + rest))) + i + "}") ==
            (i + "{") + (j + effect + ": " + allow + ",") + (j + principal + ": {") + federated + (j + "},") +
            (j + action + ": " + web + ",") + rest + (i + "}")
  {
  }

  /** The trust policy template spells the trust policy, with the conditional block and without. */
  lemma TrustRenders(d: TrustData)
    ensures TrustText(d) == Spell(TrustDoc(d))
  {
    hide HEAD, TAIL, I2, PolicyDoc, Spell, SpellItems, StatementItems, TrustStatementText, TrustStatement;
    var subjects := Subjects(d);
    var statements := TrustStatements(d, subjects);
    PolicySpells(statements);
    TrustStatementRenders(d, subjects[0]);
    FirstTrustStatement(d, subjects);
    if d.isGrafanaPostgresql {
      TrustStatementRenders(d, subjects[1]);
      TrustStatementRenders(d, subjects[2]);
      FirstTrustStatement(d, subjects[1..]);
      FirstTrustStatement(d, subjects[1..][1..]);
    }
  }

  lemma FirstTrustStatement(d: TrustData, subjects: seq<string>)
    requires subjects != []
    ensures SpellItems(StatementItems(TrustStatements(d, subjects))) ==
            I2 + Spell(TrustStatement(d, subjects[0])) +
            if |subjects| == 1 then "" else "," + SpellItems(StatementItems(TrustStatements(d, subjects[1..])))
  {
    hide I2, Spell, SpellItems, StatementItems, TrustStatement;
    var statements := TrustStatements(d, subjects);
    assert statements[1..] == TrustStatements(d, subjects[1..]);
    assert |statements| == 1 <==> |subjects| == 1;
    FirstStatement(statements);
  }

  // ------------------------------------------------------------------ bucket policy

  lemma DenialLines()
    ensures "\n\t\t\t\"Sid\": \"EnforceSSLOnly\"," == I3 + Quote(SID) + ": " + Quote(SSL_ONLY) + ","
    ensures "\n\t\t\t\"Effect\": \"Deny\"," == I3 + Quote(EFFECT) + ": " + Quote(DENY) + ","
  {
    SidLine();
    hide SID, SSL_ONLY;
  }

  lemma SidLine()
    ensures "\n\t\t\t\"Sid\": \"EnforceSSLOnly\"," == I3 + Quote(SID) + ": " + Quote(SSL_ONLY) + ","
  {
  }

  lemma MoreDenialLines()
    ensures "\n\t\t\t\"Principal\": \"*\"," == I3 + Quote(PRINCIPAL) + ": " + Quote(ANY) + ","
    ensures "\n\t\t\t\"Action\": \"s3:*\"," == I3 + Quote(ACTION) + ": " + Quote(ANY_S3) + ","
  {
  }

  lemma TransportLine()
    ensures "\n\t\t\t\t\t\"aws:SecureTransport\": \"false\"" == I5 + Quote(SECURE_TRANSPORT) + ": " + Quote(FALSE)
  {
    TransportSplits();
    TransportKey();
    hide I5, SECURE_TRANSPORT;
    assert ": \"false\"" == ": " + Quote(FALSE);
  }

  lemma TransportSplits()
    ensures "\n\t\t\t\t\t\"aws:SecureTransport\": \"false\"" == "\n\t\t\t\t\t\"aws:SecureTransport\"" + ": \"false\""
  {
  }

  lemma TransportKey()
    ensures "\n\t\t\t\t\t\"aws:SecureTransport\"" == I5 + Quote(SECURE_TRANSPORT)
  {
  }

  lemma BoolLine()
    ensures "\n\t\t\t\t\"Bool\": {" == I4 + Quote(BOOL) + ": {"
  {
  }

  lemma InsecureSpells()
    ensures Spell(InsecureDoc()) ==
            "{" + (I4 + Quote(BOOL) + ": " + ("{" + "\n\t\t\t\t\t\"aws:SecureTransport\": \"false\"" + I4 + "}")) + I3 + "}"
  {
    TransportLine();
    hide I3, I4, I5, Quote, BOOL, SECURE_TRANSPORT, FALSE, Members;
    var inner := DObj(Members(I5, [(SECURE_TRANSPORT, DStr(FALSE))]), I4);
    OneMember(I5, SECURE_TRANSPORT, DStr(FALSE), I4);
    OneMember(I4, BOOL, inner, I3);
  }

  /** The two resource lines of the bucket policy. */
  lemma TwoLines(domain: string, name: string)
    ensures SpellItems(Lines(I4, [BucketArn(domain, name), ObjectsArn(domain, name)])) ==
            BucketLine(domain, name) + "," + ObjectsLine(domain, name)
  {
    hide I4, Quote, BucketArn, ObjectsArn, Lines, SpellItems, BucketLine, ObjectsLine;
    var xs := [BucketArn(domain, name), ObjectsArn(domain, name)];
    ArnLines(domain, name);
    LineSpells(I4, xs);
    LineSpells(I4, xs[1..]);
  }

  lemma DenialRenders(d: BucketPolicyData)
    ensures DenialText(d) == I2 + Spell(DenyDoc(d))
  {
    GrantLines();
    BraceLines();
    ResourceLines();
    DenialLines();
    MoreDenialLines();
    BoolLine();
    hide I2, I3, I4, SID, SSL_ONLY, EFFECT, DENY, PRINCIPAL, ANY, ACTION, ANY_S3, RESOURCE, CONDITION, BOOL, Quote, Members, SpellFields,
         SpellItems, Lines, BucketLine, ObjectsLine, BucketArn, ObjectsArn, InsecureDoc;
    var resources := Lines(I4, [BucketArn(d.awsDomain, d.bucketName), ObjectsArn(d.awsDomain, d.bucketName)]);
    var ms := [(SID, DStr(SSL_ONLY)), (EFFECT, DStr(DENY)), (PRINCIPAL, DStr(ANY)), (ACTION, DStr(ANY_S3)),
               (RESOURCE, DArr(resources, I3)), (CONDITION, InsecureDoc())];
    FirstMember(I3, ms);
    FirstMember(I3, ms[1..]);
    FourMembers(I3, ms[1..][1..]);
    InsecureSpells();
    TwoLines(d.awsDomain, d.bucketName);
    assert Spell(ms[0].1) == Quote(SSL_ONLY) && Spell(ms[1].1) == Quote(DENY) && Spell(ms[2].1) == Quote(ANY) && Spell(ms[3].1) == Quote(ANY_S3);
    assert Spell(ms[4].1) == "[" + SpellItems(resources) + I3 + "]";
    assert Spell(DenyDoc(d)) == "{" + SpellFields(Members(I3, ms)) + I2 + "}";
    hide Spell;
    RegroupDenial(I2, I3, I4, I3 + Quote(SID) + ": " + Quote(SSL_ONLY), I3 + Quote(EFFECT) + ": " + Quote(DENY),
                  I3 + Quote(PRINCIPAL) + ": " + Quote(ANY), I3 + Quote(ACTION) + ": " + Quote(ANY_S3),
                  I3 + Quote(RESOURCE), BucketLine(d.awsDomain, d.bucketName), ObjectsLine(d.awsDomain, d.bucketName),
                  I3 + Quote(CONDITION), I4 + Quote(BOOL), "\n\t\t\t\t\t\"aws:SecureTransport\": \"false\"");
  }

  lemma RegroupDenial(i: string, j: string, k: string, a: string, b: string, c: string, d: string,
                      resource: string, bucket: string, objects: string, condition: string, boolean: string, transport: string)
    ensures i + ("{" + (a + "," + (b + "," + (c + "," + (d + "," + (resource + ": " + ("[" + (bucket + "," + objects) + j + "]") + "," +
                   (condition + ": " + ("{" + (boolean + ": " + ("{" + transport + k + "}")) + j + "}"))))))) + i + "}") ==
            (i + "{") + (a + ",") + (b + ",") + (c + ",") + (d + ",") + (resource + ": [") + bucket + "," + objects + (j + "],") +
            (condition + ": {") + (boolean + ": {") + transport + (k + "}") + (j + "}") + (i + "}")
  {
    assert resource + ": " + "[" == resource + ": [" && condition + ": " + "{" == condition + ": {" && boolean + ": " + "{" == boolean + ": {";
    assert j + "]" + "," == j + "],";
    RegroupInner(condition + ": ", boolean + ": ", transport, j, k);
    RegroupArray(resource + ": ", bucket, objects, j);
    RegroupSix(i, a, b, c, d, resource + ": [", bucket, objects, j + "]", condition + ": {", boolean + ": {", transport, k + "}", j + "}");
  }

  lemma RegroupArray(resource: string, bucket: string, objects: string, j: string)
    ensures resource + ("[" + (bucket + "," + objects) + j + "]") == (resource + "[") + bucket + "," + objects + (j + "]")
  {
  }

  lemma RegroupSix(i: string, a: string, b: string, c: string, d: string, resource: string, bucket: string, objects: string, close: string,
                   condition: string, inner: string, transport: string, close': string, close'': string)
    ensures i + ("{" + (a + "," + (b + "," + (c + "," + (d + "," + ((resource + bucket + "," + objects + close) + "," +
                   (condition + inner + transport + close' + close'')))))) + i + "}") ==
            (i + "{") + (a + ",") + (b + ",") + (c + ",") + (d + ",") + resource + bucket + "," + objects + (close + ",") +
            condition + inner + transport + close' + close'' + (i + "}")
  {
  }

  /** The bucket policy template spells the bucket policy. */
  lemma BucketPolicyRenders(d: BucketPolicyData)
    ensures BucketPolicyText(d) == Spell(BucketPolicyDoc(d))
  {
    hide HEAD, TAIL, I2, PolicyDoc, Spell, SpellItems, StatementItems, DenialText, DenyDoc;
    PolicySpells([DenyDoc(d)]);
    FirstStatement([DenyDoc(d)]);
    DenialRenders(d);
  }
}
