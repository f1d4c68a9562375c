/**
 What IAM reads in the policies the operator renders.
 */
module Policies {
  import opened Base
  import opened Json
  import opened Templates
  import opened Documents

  // ------------------------------------------------------------- what IAM reads

  function Member(v: Json, key: string): Option<Json> {
    if v.Obj? then MemberIn(v.fields, key) else None
  }

  function MemberIn(fields: Fields, key: string): Option<Json> {
    if fields.NoFields? then None
    else if fields.key == key then Some(fields.value)
    else MemberIn(fields.rest, key)
  }

  /** A string stands for the list of just that string. */
  function StringsOf(v: Option<Json>): seq<string> {
    match v
    case None => []
    case Some(Str(s)) => [s]
    case Some(Arr(items)) => StringsIn(items)
    case Some(Obj(_)) => []
  }

  function StringsIn(items: Items): seq<string> {
    if items.NoItems? then []
    else (if items.head.Str? then [items.head.s] else []) + StringsIn(items.tail)
  }

  /** Who may (or may not) do what to which resources, under which condition. */
  datatype Statement = Statement(
    effect: seq<string>,
    principal: Option<Json>,
    actions: seq<string>,
    resources: seq<string>,
    condition: Option<Json>)

  function ReadStatement(v: Json): Statement {
    Statement(
      StringsOf(Member(v, EFFECT)),
      Member(v, PRINCIPAL),
      StringsOf(Member(v, ACTION)),
      StringsOf(Member(v, RESOURCE)),
      Member(v, CONDITION))
  }

  function ReadStatements(items: Items): seq<Statement> {
    if items.NoItems? then [] else [ReadStatement(items.head)] + ReadStatements(items.tail)
  }

  function ReadPolicy(text: string): Option<seq<Statement>> {
    var v := ParseText(text);
    if v.None? then None
    else
      var statements := Member(v.value, STATEMENT);
      if statements.None? || !statements.value.Arr? then None else Some(ReadStatements(statements.value.items))
  }

  /** The two resources of each bucket, in order. */
  function Arns(domain: string, names: seq<string>): seq<string> {
    if names == [] then [] else [BucketArn(domain, names[0]), ObjectsArn(domain, names[0])] + Arns(domain, names[1..])
  }

  // --------------------------------------------------------------- small facts

  lemma PlainConcat(a: string, b: string)
    ensures AllPlain(a + b) <==> AllPlain(a) && AllPlain(b)
  {
    if AllPlain(a + b) {
      assert forall i :: 0 <= i < |a| ==> a[i] == (a + b)[i];
      assert forall i :: 0 <= i < |b| ==> b[i] == (a + b)[|a| + i];
    }
  }

  lemma ArnsPlain(domain: string, name: string)
    ensures AllPlain(BucketArn(domain, name)) <==> AllPlain(domain) && AllPlain(name)
    ensures AllPlain(ObjectsArn(domain, name)) <==> AllPlain(domain) && AllPlain(name)
  {
    assert AllPlain("arn:") && AllPlain(":s3:::") && AllPlain("/*");
    PlainConcat("arn:", domain);
    PlainConcat("arn:" + domain, ":s3:::");
    PlainConcat("arn:" + domain + ":s3:::", name);
    PlainConcat("arn:" + domain + ":s3:::" + name, "/*");
  }

  lemma Indents()
    ensures AllWhite(I0) && AllWhite(I1) && AllWhite(I2) && AllWhite(I3) && AllWhite(I4) && AllWhite(I5) && AllWhite(I4 + I4)
  {
  }

  /** No two words IAM looks up in a statement are the same. */
  lemma Words()
    ensures VERSION != STATEMENT
    ensures EFFECT !in [ACTION, RESOURCE, PRINCIPAL, CONDITION, SID] && ACTION !in [RESOURCE, PRINCIPAL, CONDITION, SID]
    ensures RESOURCE !in [PRINCIPAL, CONDITION, SID] && PRINCIPAL !in [CONDITION, SID] && CONDITION != SID
  {
    assert EFFECT[0] == 'E' && ACTION[0] == 'A' && RESOURCE[0] == 'R' && PRINCIPAL[0] == 'P' && CONDITION[0] == 'C' && SID[0] == 'S';
    assert VERSION[0] == 'V' && STATEMENT[0] == 'S';
  }

  lemma WordsPlain()
    ensures AllPlain(VERSION) && AllPlain(VERSION_DATE) && AllPlain(STATEMENT) && AllPlain(EFFECT) && AllPlain(ALLOW)
    ensures AllPlain(ACTION) && AllPlain(RESOURCE) && AllPlain(PRINCIPAL) && AllPlain(CONDITION) && AllPlain(ANY)
  {
  }

  lemma MoreWordsPlain()
    ensures AllPlain(DENY) && AllPlain(SID) && AllPlain(SSL_ONLY) && AllPlain(ANY_S3) && AllPlain(BOOL)
    ensures AllPlain(SECURE_TRANSPORT) && AllPlain(FALSE) && AllPlain(FEDERATED) && AllPlain(STRING_EQUALS)
  {
  }

  predicate EachPlain(xs: seq<string>) {
    forall i :: 0 <= i < |xs| ==> AllPlain(xs[i])
  }

  lemma {:induction false} LinesRead(lead: string, xs: seq<string>)
    requires AllWhite(lead)
    ensures LaidItems(Lines(lead, xs))
    ensures StringsIn(ValueItems(Lines(lead, xs))) == xs
    ensures EachPlain(xs) ==> SafeItems(ValueItems(Lines(lead, xs)))
  {
    if xs != [] {
      LinesRead(lead, xs[1..]);
      assert [xs[0]] + xs[1..] == xs;
      assert EachPlain(xs) ==> EachPlain(xs[1..]);
    }
  }

  lemma {:induction false} ArnsRead(domain: string, names: seq<string>)
    ensures LaidItems(ArnItems(domain, names))
    ensures StringsIn(ValueItems(ArnItems(domain, names))) == Arns(domain, names)
    ensures AllPlain(domain) && EachPlain(names) ==> SafeItems(ValueItems(ArnItems(domain, names)))
    ensures names != [] && EachPlain(Arns(domain, names)) ==> AllPlain(domain) && EachPlain(names)
  {
    hide BucketArn, ObjectsArn;
    Indents();
    if names != [] {
      var rest := names[1..];
      ArnsRead(domain, rest);
      ArnsPlain(domain, names[0]);
      var pair := [BucketArn(domain, names[0]), ObjectsArn(domain, names[0])];
      var item := DItem(I4, DStr(ObjectsArn(domain, names[0])), ArnItems(domain, rest));
      assert ValueItems(item) == Item(Str(ObjectsArn(domain, names[0])), ValueItems(item.tail));
      assert StringsIn(ValueItems(item)) == [ObjectsArn(domain, names[0])] + Arns(domain, rest);
      assert [pair[0]] + ([pair[1]] + Arns(domain, rest)) == pair + Arns(domain, rest);
      assert LaidItems(item);
      if AllPlain(domain) && EachPlain(names) {
        assert EachPlain(rest) && AllPlain(names[0]);
        assert SafeItems(ValueItems(item));
      }
      if EachPlain(Arns(domain, names)) {
        var all := Arns(domain, names);
        assert all[0] == pair[0];
        assert forall i :: 0 <= i < |Arns(domain, rest)| ==> Arns(domain, rest)[i] == all[i + 2];
        assert forall i :: 0 < i < |names| ==> names[i] == rest[i - 1];
      }
    }
  }

  /** Strings read from a parsed text need no escaping. */
  lemma {:induction false} ReadStringsPlain(items: Items)
    requires SafeItems(items)
    ensures EachPlain(StringsIn(items))
  {
    if !items.NoItems? {
      ReadStringsPlain(items.tail);
    }
  }

  lemma {:induction false} MembersSafe(fields: Fields, key: string)
    requires SafeFields(fields)
    ensures MemberIn(fields, key).Some? ==> SafeValue(MemberIn(fields, key).value)
  {
    if !fields.NoFields? {
      MembersSafe(fields.rest, key);
    }
  }

  /** Every statement of a text that parses is made of strings that need no escaping. */
  ghost predicate SafeStatement(s: Statement) {
    EachPlain(s.resources) && (s.principal.Some? ==> SafeValue(s.principal.value)) &&
    (s.condition.Some? ==> SafeValue(s.condition.value))
  }

  lemma StatementSafe(v: Json)
    requires SafeValue(v)
    ensures SafeStatement(ReadStatement(v))
  {
    if v.Obj? {
      MembersSafe(v.fields, PRINCIPAL);
      MembersSafe(v.fields, CONDITION);
      MembersSafe(v.fields, RESOURCE);
      var r := Member(v, RESOURCE);
      if r.Some? && r.value.Arr? {
        ReadStringsPlain(r.value.items);
      }
    }
  }

  /** The first statement read from any text whatsoever. */
  lemma FirstStatementSafe(text: string)
    requires ReadPolicy(text).Some? && ReadPolicy(text).value != []
    ensures SafeStatement(ReadPolicy(text).value[0])
  {
    var v := ParseText(text).value;
    MembersSafe(v.fields, STATEMENT);
    StatementSafe(Member(v, STATEMENT).value.items.head);
  }

  ghost predicate Sound(d: Doc) {
    Laid(d) && SafeValue(Value(d))
  }

  ghost predicate SoundMembers(ms: seq<(string, Doc)>) {
    forall i :: 0 <= i < |ms| ==> AllPlain(ms[i].0) && Sound(ms[i].1)
  }

  lemma {:induction false} MembersSound(lead: string, ms: seq<(string, Doc)>, close: string)
    requires AllWhite(lead) && AllWhite(close) && SoundMembers(ms)
    ensures LaidFields(Members(lead, ms)) && SafeFields(ValueFields(Members(lead, ms)))
    ensures Sound(DObj(Members(lead, ms), close))
  {
    if ms != [] {
      MembersSound(lead, ms[1..], close);
    }
  }

  predicate Before(ms: seq<(string, Doc)>, key: string, i: nat)
    requires i <= |ms|
  {
    forall j :: 0 <= j < i ==> ms[j].0 != key
  }

  /** Looking up a member finds the one of that name, or nothing. */
  lemma {:induction false} MemberFound(lead: string, ms: seq<(string, Doc)>, key: string, i: nat)
    requires i <= |ms| && Before(ms, key, i) && (i < |ms| ==> ms[i].0 == key)
    ensures MemberIn(ValueFields(Members(lead, ms)), key) == if i < |ms| then Some(Value(ms[i].1)) else None
  {
    if 0 < i {
      var rest := ms[1..];
      assert ms[0].0 != key;
      assert forall j :: 0 <= j < |rest| ==> rest[j] == ms[j + 1];
      MemberFound(lead, rest, key, i - 1);
    }
  }

  /** What is read from statements written one after the other. */
  function ReadDocs(statements: seq<Doc>): seq<Statement> {
    if statements == [] then [] else [ReadStatement(Value(statements[0]))] + ReadDocs(statements[1..])
  }

  lemma {:induction false} StatementsRead(statements: seq<Doc>)
    requires forall i :: 0 <= i < |statements| ==> Sound(statements[i])
    ensures LaidItems(StatementItems(statements)) && SafeItems(ValueItems(StatementItems(statements)))
    ensures ReadStatements(ValueItems(StatementItems(statements))) == ReadDocs(statements)
  {
    hide ReadStatement, Value;
    Indents();
    if statements != [] {
      assert Sound(statements[0]);
      StatementsRead(statements[1..]);
    }
  }

  /** A policy document reads as its statements. */
  lemma PolicyReads(statements: seq<Doc>)
    requires forall i :: 0 <= i < |statements| ==> Sound(statements[i])
    ensures ReadPolicy(Spell(PolicyDoc(statements))) == Some(ReadDocs(statements))
  {
    hide VERSION, VERSION_DATE, STATEMENT, I0, I1;
    hide Spell, ReadDocs, ReadStatements, StatementItems, Members, MemberIn, ParseText;
    Indents();
    Words();
    WordsPlain();
    StatementsRead(statements);
    var listing := DArr(StatementItems(statements), I1);
    var ms := [(VERSION, DStr(VERSION_DATE)), (STATEMENT, listing)];
    assert Sound(ms[0].1) && Sound(ms[1].1);
    MembersSound(I1, ms, I0);
    TextParses(PolicyDoc(statements));
    MemberFound(I1, ms, STATEMENT, 1);
  }

  // ------------------------------------------------------------------ role policy

  lemma GrantReads(actions: seq<string>, resource: Doc)
    requires EachPlain(actions) && Sound(resource)
    ensures Sound(GrantDoc(actions, resource))
    ensures ReadStatement(Value(GrantDoc(actions, resource))) ==
            Statement([ALLOW], None, actions, StringsOf(Some(Value(resource))), None)
  {
    hide EFFECT, ALLOW, ACTION, RESOURCE, PRINCIPAL, CONDITION, SID, I2, I3, I4;
    hide Members, MemberIn, Lines;
    Indents();
    Words();
    WordsPlain();
    LinesRead(I4, actions);
    var ms := [(EFFECT, DStr(ALLOW)), (ACTION, DArr(Lines(I4, actions), I3)), (RESOURCE, resource)];
    assert Sound(ms[0].1) && Sound(ms[1].1);
    MembersSound(I3, ms, I2);
    MemberFound(I3, ms, EFFECT, 0);
    MemberFound(I3, ms, ACTION, 1);
    MemberFound(I3, ms, RESOURCE, 2);
    MemberFound(I3, ms, PRINCIPAL, 3);
    MemberFound(I3, ms, CONDITION, 3);
  }

  /** What the role may do: everything on the listed buckets, and look at the account. */
  function RoleGrants(d: RolePolicyData): seq<Statement> {
    [Statement([ALLOW], None, OBJECT_ACTIONS, Arns(d.awsDomain, d.extraBucketNames + [d.bucketName]), None),
     Statement([ALLOW], None, ACCOUNT_ACTIONS, [ANY], None)]
  }

  predicate RoleDataSafe(d: RolePolicyData) {
    AllPlain(d.awsDomain) && AllPlain(d.bucketName) && EachPlain(d.extraBucketNames)
  }

  lemma ObjectActionsPlain()
    ensures EachPlain(OBJECT_ACTIONS)
  {
    assert AllPlain("s3:ListBucket") && AllPlain("s3:PutObject") && AllPlain("s3:GetObject") && AllPlain("s3:DeleteObject");
  }

  lemma AccountActionsPlain()
    ensures EachPlain(ACCOUNT_ACTIONS)
  {
    assert AllPlain("s3:GetAccessPoint") && AllPlain("s3:GetAccountPublicAccessBlock") && AllPlain("s3:ListAccessPoints");
  }

  lemma RolePolicyReads(d: RolePolicyData)
    requires RoleDataSafe(d)
    ensures ReadPolicy(RolePolicyText(d)) == Some(RoleGrants(d))
  {
    hide ALLOW, ANY, OBJECT_ACTIONS, ACCOUNT_ACTIONS, I3;
    hide GrantDoc, ArnItems, Arns, ReadStatement, Spell, ReadPolicy, PolicyDoc, RolePolicyText;
    Indents();
    WordsPlain();
    ObjectActionsPlain();
    AccountActionsPlain();
    var names := d.extraBucketNames + [d.bucketName];
    ArnsRead(d.awsDomain, names);
    var resource := DArr(ArnItems(d.awsDomain, names), I3);
    GrantReads(OBJECT_ACTIONS, resource);
    GrantReads(ACCOUNT_ACTIONS, DStr(ANY));
    var first, second := GrantDoc(OBJECT_ACTIONS, resource), GrantDoc(ACCOUNT_ACTIONS, DStr(ANY));
    assert StringsOf(Some(Value(resource))) == Arns(d.awsDomain, names);
    assert [first, second][1..] == [second] && [second][1..] == [];
    assert ReadDocs([second]) == [ReadStatement(Value(second))];
    PolicyReads([first, second]);
    assert ReadDocs([first, second]) == RoleGrants(d);
    RolePolicyRenders(d);
  }

  /**
   The rendered role policy is a JSON text that grants exactly the object actions on
   the two resources of every extra bucket, in order, then of the bucket itself, and
   the account actions on everything, if and only if no name in it contains a quote,
   a backslash or a control character.
   */
  lemma RolePolicyMeans(d: RolePolicyData)
    ensures ReadPolicy(RolePolicyText(d)) == Some(RoleGrants(d)) <==> RoleDataSafe(d)
  {
    hide RolePolicyText, ReadPolicy, OBJECT_ACTIONS, ACCOUNT_ACTIONS, ALLOW, ANY;
    var names := d.extraBucketNames + [d.bucketName];
    if RoleDataSafe(d) {
      RolePolicyReads(d);
    }
    if ReadPolicy(RolePolicyText(d)) == Some(RoleGrants(d)) {
      ArnsRead(d.awsDomain, names);
      FirstStatementSafe(RolePolicyText(d));
      assert RoleGrants(d)[0].resources == Arns(d.awsDomain, names);
      assert names[|d.extraBucketNames|] == d.bucketName;
      assert forall i :: 0 <= i < |d.extraBucketNames| ==> names[i] == d.extraBucketNames[i];
    }
  }

  // ----------------------------------------------------------------- trust policy

  predicate TrustDataSafe(d: TrustData) {
    AllPlain(d.accountId) && AllPlain(d.awsDomain) && AllPlain(d.cloudFrontDomain) &&
    AllPlain(d.serviceAccountName) && AllPlain(d.serviceAccountNamespace)
  }

  /** A role anybody proving to be `subject` to the identity provider may assume. */
  function TrustGrant(d: TrustData, subject: string): Statement {
    Statement([ALLOW], Some(Value(PrincipalDoc(d))), [WEB_IDENTITY], [], Some(Value(SubjectDoc(d, subject))))
  }

  function TrustGrants(d: TrustData, subjects: seq<string>): seq<Statement> {
    if subjects == [] then [] else [TrustGrant(d, subjects[0])] + TrustGrants(d, subjects[1..])
  }

  lemma FederatedPlain(d: TrustData)
    ensures AllPlain(Federated(d)) <==> AllPlain(d.awsDomain) && AllPlain(d.accountId) && AllPlain(d.cloudFrontDomain)
  {
    assert AllPlain("arn:") && AllPlain(":iam::") && AllPlain(":oidc-provider/");
    PlainConcat("arn:", d.awsDomain);
    PlainConcat("arn:" + d.awsDomain, ":iam::");
    PlainConcat("arn:" + d.awsDomain + ":iam::", d.accountId);
    PlainConcat("arn:" + d.awsDomain + ":iam::" + d.accountId, ":oidc-provider/");
    PlainConcat("arn:" + d.awsDomain + ":iam::" + d.accountId + ":oidc-provider/", d.cloudFrontDomain);
  }

  lemma SubjectPlain(namespace: string, name: string)
    ensures AllPlain(Subject(namespace, name)) <==> AllPlain(namespace) && AllPlain(name)
  {
    assert AllPlain("system:serviceaccount:") && AllPlain(":");
    PlainConcat("system:serviceaccount:", namespace);
    PlainConcat("system:serviceaccount:" + namespace, ":");
    PlainConcat("system:serviceaccount:" + namespace + ":", name);
  }

  lemma FixedSubjectsPlain()
    ensures AllPlain(Subject("monitoring", "grafana-postgresql-recovery-test"))
    ensures AllPlain(Subject("monitoring", "plugin-barman-cloud"))
  {
    hide Subject;
    assert AllPlain("monitoring") && AllPlain("plugin-barman-cloud") && AllPlain("grafana-postgresql-recovery-test");
    SubjectPlain("monitoring", "grafana-postgresql-recovery-test");
    SubjectPlain("monitoring", "plugin-barman-cloud");
  }

  lemma PrincipalSound(d: TrustData)
    ensures Sound(PrincipalDoc(d)) <==> AllPlain(Federated(d))
  {
    hide FEDERATED, I4, I3, Federated;
    PrincipalLaid(d, "");
    MoreWordsPlain();
    var ms := [(FEDERATED, DStr(Federated(d)))];
    assert Members(I4, ms[1..]) == DEnd;
    assert ValueFields(Members(I4, ms)) == Field(FEDERATED, Str(Federated(d)), NoFields);
    assert SafeFields(NoFields);
    assert SafeFields(Field(FEDERATED, Str(Federated(d)), NoFields)) <==> AllPlain(Federated(d));
    assert Value(PrincipalDoc(d)) == Obj(Field(FEDERATED, Str(Federated(d)), NoFields));
  }

  lemma ConditionSound(d: TrustData, subject: string)
    ensures Sound(SubjectDoc(d, subject)) <==> AllPlain(d.cloudFrontDomain) && AllPlain(subject)
  {
    hide STRING_EQUALS, I5, I4, I3;
    PrincipalLaid(d, subject);
    MoreWordsPlain();
    var key := d.cloudFrontDomain + ":sub";
    assert AllPlain(":sub");
    PlainConcat(d.cloudFrontDomain, ":sub");
    var inner := [(key, DStr(subject))];
    assert Members(I5, inner[1..]) == DEnd;
    var equality := Field(key, Str(subject), NoFields);
    assert ValueFields(Members(I5, inner)) == equality;
    assert SafeFields(equality) <==> AllPlain(d.cloudFrontDomain) && AllPlain(subject);
    var ms := [(STRING_EQUALS, DObj(Members(I5, inner), I4))];
    assert Members(I4, ms[1..]) == DEnd;
    assert Value(ms[0].1) == Obj(equality);
    assert ValueFields(Members(I4, ms)) == Field(STRING_EQUALS, Obj(equality), NoFields);
    assert SafeFields(Field(STRING_EQUALS, Obj(equality), NoFields)) <==> SafeFields(equality);
    assert Value(SubjectDoc(d, subject)) == Obj(Field(STRING_EQUALS, Obj(equality), NoFields));
  }

  lemma TrustStatementReads(d: TrustData, subject: string)
    requires TrustDataSafe(d) && AllPlain(subject)
    ensures Sound(TrustStatement(d, subject))
    ensures ReadStatement(Value(TrustStatement(d, subject))) == TrustGrant(d, subject)
  {
    hide EFFECT, ALLOW, ACTION, RESOURCE, PRINCIPAL, CONDITION, SID, WEB_IDENTITY, I2, I3;
    hide Members, MemberIn, PrincipalDoc, SubjectDoc;
    Indents();
    Words();
    WordsPlain();
    WebIdentityPlain();
    FederatedPlain(d);
    PrincipalSound(d);
    ConditionSound(d, subject);
    var ms := [(EFFECT, DStr(ALLOW)), (PRINCIPAL, PrincipalDoc(d)), (ACTION, DStr(WEB_IDENTITY)), (CONDITION, SubjectDoc(d, subject))];
    assert Sound(ms[0].1) && Sound(ms[2].1);
    MembersSound(I3, ms, I2);
    MemberFound(I3, ms, EFFECT, 0);
    MemberFound(I3, ms, PRINCIPAL, 1);
    MemberFound(I3, ms, ACTION, 2);
    MemberFound(I3, ms, CONDITION, 3);
    MemberFound(I3, ms, RESOURCE, 4);
  }

  lemma WebIdentityPlain()
    ensures AllPlain(WEB_IDENTITY)
  {
  }

  lemma {:induction false} TrustStatementsRead(d: TrustData, subjects: seq<string>)
    requires TrustDataSafe(d) && EachPlain(subjects)
    ensures forall i :: 0 <= i < |TrustStatements(d, subjects)| ==> Sound(TrustStatements(d, subjects)[i])
    ensures ReadDocs(TrustStatements(d, subjects)) == TrustGrants(d, subjects)
  {
    hide TrustStatement, TrustGrant, ReadStatement;
    if subjects != [] {
      TrustStatementReads(d, subjects[0]);
      TrustStatementsRead(d, subjects[1..]);
      var all := TrustStatements(d, subjects);
      assert all[1..] == TrustStatements(d, subjects[1..]);
    }
  }

  /**
   The rendered trust policy is a JSON text with exactly one statement per admitted
   subject, the named service account and, for a Grafana database, the two fixed ones,
   if and only if none of its inputs contains a quote, a backslash or a control character.
   */
  lemma TrustPolicyMeans(d: TrustData)
    ensures ReadPolicy(TrustText(d)) == Some(TrustGrants(d, Subjects(d))) <==> TrustDataSafe(d)
    ensures |TrustGrants(d, Subjects(d))| == if d.isGrafanaPostgresql then 3 else 1
  {
    hide TrustStatements, TrustGrant, ReadPolicy, Spell, PolicyDoc, Subject, TrustText;
    var subjects := Subjects(d);
    SubjectPlain(d.serviceAccountNamespace, d.serviceAccountName);
    FixedSubjectsPlain();
    TrustGrantsLength(d, subjects);
    TrustRenders(d);
    if TrustDataSafe(d) {
      TrustStatementsRead(d, subjects);
      PolicyReads(TrustStatements(d, subjects));
    }
    if ReadPolicy(TrustText(d)) == Some(TrustGrants(d, subjects)) {
      FirstStatementSafe(TrustText(d));
      TrustGrantSafe(d, subjects[0]);
    }
  }

  lemma {:induction false} TrustGrantsLength(d: TrustData, subjects: seq<string>)
    ensures |TrustGrants(d, subjects)| == |subjects|
    ensures forall i :: 0 <= i < |subjects| ==> TrustGrants(d, subjects)[i] == TrustGrant(d, subjects[i])
  {
    hide TrustGrant;
    if subjects != [] {
      TrustGrantsLength(d, subjects[1..]);
    }
  }

  lemma TrustGrantSafe(d: TrustData, subject: string)
    requires SafeStatement(TrustGrant(d, subject))
    ensures AllPlain(d.accountId) && AllPlain(d.awsDomain) && AllPlain(d.cloudFrontDomain) && AllPlain(subject)
  {
    hide I0, I1, I2, I3, I4, I5, FEDERATED, STRING_EQUALS, Federated;
    FederatedPlain(d);
    PrincipalLaid(d, subject);
    PrincipalSound(d);
    ConditionSound(d, subject);
  }

  lemma PrincipalLaid(d: TrustData, subject: string)
    ensures Laid(PrincipalDoc(d)) && Laid(SubjectDoc(d, subject))
  {
    hide I3, I4, I5, FEDERATED, STRING_EQUALS, Federated;
    Indents();
    var ms := [(FEDERATED, DStr(Federated(d)))];
    assert Members(I4, ms[1..]) == DEnd && LaidFields(Members(I4, ms));
    var inner := [(d.cloudFrontDomain + ":sub", DStr(subject))];
    assert Members(I5, inner[1..]) == DEnd && LaidFields(Members(I5, inner));
    var outer := [(STRING_EQUALS, DObj(Members(I5, inner), I4))];
    assert Members(I4, outer[1..]) == DEnd && LaidFields(Members(I4, outer));
  }

  predicate ColonFree(s: string) {
    forall i :: 0 <= i < |s| ==> s[i] != ':'
  }

  function FirstColon(s: string): nat {
    if s == "" || s[0] == ':' then 0 else 1 + FirstColon(s[1..])
  }

  lemma {:induction false} FirstColonAfter(a: string, b: string)
    requires ColonFree(a)
    ensures FirstColon(a + (":" + b)) == |a|
  {
    if a != "" {
      assert (a + (":" + b))[1..] == a[1..] + (":" + b);
      FirstColonAfter(a[1..], b);
    }
  }

  /** A subject tells which namespace and service account it stands for. */
  lemma SubjectDetermines(ns: string, name: string, ns': string, name': string)
    requires ColonFree(ns) && ColonFree(ns') && Subject(ns, name) == Subject(ns', name')
    ensures ns == ns' && name == name'
  {
    var prefix := "system:serviceaccount:";
    var a, b := ns + (":" + name), ns' + (":" + name');
    assert Subject(ns, name) == prefix + a && Subject(ns', name') == prefix + b;
    assert a == (prefix + a)[|prefix|..] == (prefix + b)[|prefix|..] == b;
    FirstColonAfter(ns, name);
    FirstColonAfter(ns', name');
    assert ns == a[..|ns|] && ns' == b[..|ns'|] && name == a[|ns| + 1..] && name' == b[|ns'| + 1..];
  }

  // ---------------------------------------------------------------- bucket policy

  predicate BucketDataSafe(d: BucketPolicyData) {
    AllPlain(d.awsDomain) && AllPlain(d.bucketName)
  }

  /** Nobody may do anything with the bucket over an insecure connection. */
  function DenyInsecure(d: BucketPolicyData): Statement {
    Statement([DENY], Some(Str(ANY)), [ANY_S3], Arns(d.awsDomain, [d.bucketName]), Some(Value(InsecureDoc())))
  }

  lemma InsecureSound()
    ensures Sound(InsecureDoc())
    ensures Value(InsecureDoc()) == Obj(Field(BOOL, Obj(Field(SECURE_TRANSPORT, Str(FALSE), NoFields)), NoFields))
  {
    hide I3, I4, I5, BOOL, SECURE_TRANSPORT, FALSE;
    Indents();
    MoreWordsPlain();
    var inner := [(SECURE_TRANSPORT, DStr(FALSE))];
    assert Members(I5, inner[1..]) == DEnd;
    assert Sound(inner[0].1);
    MembersSound(I5, inner, I4);
    assert ValueFields(Members(I5, inner)) == Field(SECURE_TRANSPORT, Str(FALSE), ValueFields(DEnd));
    var ms := [(BOOL, DObj(Members(I5, inner), I4))];
    assert Members(I4, ms[1..]) == DEnd;
    MembersSound(I4, ms, I3);
    assert ValueFields(Members(I4, ms)) == Field(BOOL, Value(ms[0].1), ValueFields(DEnd));
  }

  lemma DenyReads(d: BucketPolicyData)
    requires BucketDataSafe(d)
    ensures Sound(DenyDoc(d)) && ReadStatement(Value(DenyDoc(d))) == DenyInsecure(d)
  {
    hide EFFECT, ACTION, RESOURCE, PRINCIPAL, CONDITION, SID, DENY, SSL_ONLY, ANY, ANY_S3, I2, I3, I4;
    hide Members, MemberIn, Lines, InsecureDoc, BucketArn, ObjectsArn;
    Indents();
    Words();
    WordsPlain();
    MoreWordsPlain();
    InsecureSound();
    ArnsPlain(d.awsDomain, d.bucketName);
    var arns := [BucketArn(d.awsDomain, d.bucketName), ObjectsArn(d.awsDomain, d.bucketName)];
    assert Arns(d.awsDomain, [d.bucketName][1..]) == [];
    assert Arns(d.awsDomain, [d.bucketName]) == arns;
    LinesRead(I4, arns);
    var ms := [(SID, DStr(SSL_ONLY)), (EFFECT, DStr(DENY)), (PRINCIPAL, DStr(ANY)), (ACTION, DStr(ANY_S3)),
               (RESOURCE, DArr(Lines(I4, arns), I3)), (CONDITION, InsecureDoc())];
    assert forall i :: 0 <= i < |ms| ==> Sound(ms[i].1);
    MembersSound(I3, ms, I2);
    MemberFound(I3, ms, EFFECT, 1);
    MemberFound(I3, ms, PRINCIPAL, 2);
    MemberFound(I3, ms, ACTION, 3);
    MemberFound(I3, ms, RESOURCE, 4);
    MemberFound(I3, ms, CONDITION, 5);
  }

  /** The rendered bucket policy denies every action on the bucket and its objects over insecure transport. */
  lemma BucketPolicyMeans(d: BucketPolicyData)
    ensures ReadPolicy(BucketPolicyText(d)) == Some([DenyInsecure(d)]) <==> BucketDataSafe(d)
  {
    hide ReadPolicy, Spell, PolicyDoc, DenyDoc, ReadStatement, BucketPolicyText;
    BucketPolicyRenders(d);
    if BucketDataSafe(d) {
      DenyReads(d);
      assert [DenyDoc(d)][1..] == [];
      assert ReadDocs([DenyDoc(d)]) == [DenyInsecure(d)];
      PolicyReads([DenyDoc(d)]);
    }
    if ReadPolicy(BucketPolicyText(d)) == Some([DenyInsecure(d)]) {
      FirstStatementSafe(BucketPolicyText(d));
      assert ReadPolicy(BucketPolicyText(d)).value[0] == DenyInsecure(d);
      ArnsRead(d.awsDomain, [d.bucketName]);
      assert DenyInsecure(d).resources == Arns(d.awsDomain, [d.bucketName]);
      assert EachPlain(Arns(d.awsDomain, [d.bucketName]));
      assert AllPlain([d.bucketName][0]);
    }
  }
}
