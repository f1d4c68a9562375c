/**
 The Azure adapter: a storage account with one container per bucket, its private
 endpoint and DNS records, and the secret with the account's access key.
 */
module AzureAdapter {
  import opened Base
  import opened Cloud
  import opened Names
  import opened Protocol
  import opened Sessions
  import opened Tags


  /** What the two lookups tell. */
  lemma LookupServed(x: Az, k: Key, q: AzReq, resp: Resp, x': Az)
    requires AzServes(x, k, q, resp, x') && (q.CheckName? || q.GetContainer?)
    ensures x' == x
    ensures resp.Flag? && q.CheckName? ==> (resp.yes <==> q.a !in x.accounts && q.a !in x.taken)
    ensures q.GetContainer? && resp == Done ==> HasContainer(x, q.a, q.n)
    ensures q.GetContainer? && resp == Missing ==> !HasContainer(x, q.a, q.n)
    ensures AzReply(x, q, resp) ==> if q.CheckName? then resp.Flag? else resp == Done || resp == Missing
  {
  }

  /** The calls of the existence check and where their answers lead. */
  lemma ProbeCalls(k: Key, b: Bucket, del: bool)
    ensures var check, get := OnAz(CheckName(AccountName(b.spec.name))), OnAz(GetContainer(AccountName(b.spec.name), b.spec.name));
            && Allowed(Azure, k, Probing(b, del), check)
            && Next(Azure, Probing(b, del), check, Flag(true)) == Probed(Azure, b, del, false)
            && Next(Azure, Probing(b, del), check, Flag(false)) == ProbingContainer(b, del)
            && Allowed(Azure, k, ProbingContainer(b, del), get)
            && Next(Azure, ProbingContainer(b, del), get, Done) == Probed(Azure, b, del, true)
            && Next(Azure, ProbingContainer(b, del), get, Missing) == Probed(Azure, b, del, false)
  {
    hide AccountName, Provides, Provided, Probed;
  }

  /** The bucket exists when its account does and has the container. */
  method ExistsBucket(s: Session, b: Bucket, del: bool) returns (found: bool, err: bool)
    requires s.Valid() && s.Provider() == Azure && s.Pc() == Probing(b, del)
    modifies s
    ensures s.Valid() && s.Advanced()
    ensures !err ==> s.Pc() == Probed(Azure, b, del, found)
    ensures err ==> !found
    ensures !err && found ==> s.tally.sightings > old(s.tally.sightings)
    ensures s.Quiet() ==> s.sys.w == old(s.sys.w)
    ensures s.Quiet() && !err ==> (found <==> HasContainer(s.sys.w.az, AccountName(b.spec.name), b.spec.name))
    ensures s.Clean() ==> !err
  {
    hide Session.Valid, Allowed, Next, Probed, AccountName, AzServes, AzReply, AzEffect;
    var a := AccountName(b.spec.name);
    ghost var x := s.sys.w.az;
    ProbeCalls(s.me, b, del);
    var available := s.CallAz(CheckName(a));
    if s.Quiet() {
      LookupServed(x, s.me, CheckName(a), available, s.sys.w.az);
    }
    if !available.Flag? {
      return false, true;
    }
    if available.yes {
      return false, false;
    }
    var resp := s.CallAz(GetContainer(a, b.spec.name));
    if s.Quiet() {
      LookupServed(x, s.me, GetContainer(a, b.spec.name), resp, s.sys.w.az);
    }
    found, err := resp == Done, resp != Done && resp != Missing;
  }

  // -------------------------------------------------------------------- provisioning

  /** Everything is provisioned; what is left is the account's lifecycle policy. */
  predicate Configurable(pc: Pc, b: Bucket) {
    pc.Provisioning? && pc.b == b && pc.at.AtManagementPolicy?
  }

  /** Creates or updates the storage account; it is public unless the cluster is private. */
  method UpsertStorageAccount(s: Session, b: Bucket, c: Cluster, isPrivate: bool) returns (err: bool, ghost tags: map<string, string>)
    requires s.Valid() && s.Provider() == Azure && s.Pc() == Provisioning(b, AtNameCheck(isPrivate))
    modifies s
    ensures s.Valid() && s.Advanced() && IsMerge(b.spec.tags, c.tags, tags)
    ensures !err ==> s.Pc() == Provisioning(b, AtContainerCheck(isPrivate))
    ensures s.Quiet() ==> s.sys.w == old(s.sys.w).(az := s.sys.w.az)
    ensures s.Quiet() ==> s.sys.w.az == old(s.sys.w.az) ||
                          s.sys.w.az == AzEffect(old(s.sys.w.az), s.me, PutAccount(AccountName(b.spec.name), !isPrivate, tags))
    ensures s.Quiet() && !err ==>
              AccountName(b.spec.name) !in old(s.sys.w.az.taken) &&
              s.sys.w.az == AzEffect(old(s.sys.w.az), s.me, PutAccount(AccountName(b.spec.name), !isPrivate, tags))
    ensures s.Clean() ==> (!err <==> AccountName(b.spec.name) !in old(s.sys.w.az.taken))
  {
    hide Session.Valid, AccountName, IsMerge, Allowed, Next, AzServes, AzReply, AzEffect;
    ghost var x := s.sys.w.az;
    var a := AccountName(b.spec.name);
    StageCalls(Azure, s.me, b, AtNameCheck(isPrivate), OnAz(CheckName(a)));
    var available := s.CallAz(CheckName(a));
    if s.Quiet() {
      LookupServed(x, s.me, CheckName(a), available, s.sys.w.az);
    }
    var merged := GetBucketTags(b.spec.tags, c.tags);
    tags, err := merged, !available.Flag?;
    if err {
      return;
    }
    StageCalls(Azure, s.me, b, AtAccount(isPrivate), OnAz(PutAccount(a, !isPrivate, merged)));
    var resp := s.CallAz(PutAccount(a, !isPrivate, merged));
    err := resp != Done;
    if s.Quiet() {
      AccountServed(x, s.me, PutAccount(a, !isPrivate, merged), resp, s.sys.w.az);
    }
  }

  lemma AccountServed(x: Az, k: Key, q: AzReq, resp: Resp, x': Az)
    requires AzServes(x, k, q, resp, x') && q.PutAccount?
    ensures x' == x || x' == AzEffect(x, k, q)
    ensures resp == Done ==> x' == AzEffect(x, k, q) && q.a !in x.taken
    ensures AzReply(x, q, resp) ==> (resp == Done <==> q.a !in x.taken)
  {
    hide AzEffect;
  }

  /** Creates the container, or updates the metadata of the existing one. */
  method UpsertContainer(s: Session, b: Bucket, c: Cluster, ghost isPrivate: bool) returns (err: bool, ghost tags: map<string, string>)
    requires s.Valid() && s.Provider() == Azure && s.Pc() == Provisioning(b, AtContainerCheck(isPrivate))
    modifies s
    ensures s.Valid() && s.Advanced() && IsMerge(b.spec.tags, c.tags, tags)
    ensures !err ==> s.Pc() == Provisioning(b, if isPrivate then AtEndpoint else AtKeys(false))
    ensures s.Quiet() ==> s.sys.w == old(s.sys.w).(az := s.sys.w.az)
    ensures s.Quiet() ==> s.sys.w.az == old(s.sys.w.az) ||
                          s.sys.w.az == AzEffect(old(s.sys.w.az), s.me, CreateContainer(AccountName(b.spec.name), b.spec.name, tags))
    ensures s.Quiet() && !err ==>
              AccountName(b.spec.name) in old(s.sys.w.az.accounts) &&
              s.sys.w.az == AzEffect(old(s.sys.w.az), s.me, CreateContainer(AccountName(b.spec.name), b.spec.name, tags))
    ensures s.Clean() ==> (!err <==> AccountName(b.spec.name) in old(s.sys.w.az.accounts))
  {
    hide Session.Valid, AccountName, IsMerge, AzServes, AzReply, AzEffect, Allowed, Next;
    var a, n := AccountName(b.spec.name), b.spec.name;
    ghost var x := s.sys.w.az;
    StageCalls(Azure, s.me, b, AtContainerCheck(isPrivate), OnAz(GetContainer(a, n)));
    var found := s.CallAz(GetContainer(a, n));
    if s.Quiet() {
      LookupServed(x, s.me, GetContainer(a, n), found, s.sys.w.az);
    }
    var merged := GetBucketTags(b.spec.tags, c.tags);
    tags, err := merged, found != Done && found != Missing;
    if err {
      return;
    }
    err := PutContainer(s, b, isPrivate, found == Done, merged);
  }

  method PutContainer(s: Session, b: Bucket, ghost isPrivate: bool, found: bool, metadata: map<string, string>) returns (err: bool)
    requires s.Valid() && s.Provider() == Azure && s.Pc() == Provisioning(b, AtContainer(isPrivate, found))
    modifies s
    ensures s.Valid() && s.Advanced()
    ensures !err ==> s.Pc() == Provisioning(b, if isPrivate then AtEndpoint else AtKeys(false))
    ensures s.Quiet() ==> s.sys.w == old(s.sys.w).(az := s.sys.w.az)
    ensures s.Quiet() && (found <==> HasContainer(old(s.sys.w.az), AccountName(b.spec.name), b.spec.name)) ==>
              ContainerPut(old(s.sys.w.az), s.sys.w.az, s.me, AccountName(b.spec.name), b.spec.name, metadata, err) &&
              (s.Clean() ==> (!err <==> AccountName(b.spec.name) in old(s.sys.w.az.accounts)))
  {
    hide Session.Valid, AccountName, AzServes, AzReply, AzEffect, Allowed, Next;
    var a, n := AccountName(b.spec.name), b.spec.name;
    ghost var x := s.sys.w.az;
    var q := if found then UpdateContainer(a, n, metadata) else CreateContainer(a, n, metadata);
    StageCalls(Azure, s.me, b, AtContainer(isPrivate, found), OnAz(q));
    var resp := s.CallAz(q);
    err := resp != Done;
    if s.Quiet() {
      ContainerServed(x, s.me, q, resp, s.sys.w.az);
      if found && HasContainer(x, a, n) {
        UpdateIsCreate(x, s.me, a, n, metadata);
      }
    }
  }

  /** The container is there with this metadata, or, after a failure, all is as before. */
  predicate ContainerPut(x: Az, x': Az, who: Key, a: string, n: string, metadata: map<string, string>, err: bool) {
    (err && x' == x) || (x' == AzEffect(x, who, CreateContainer(a, n, metadata)) && (!err ==> a in x.accounts))
  }

  lemma ContainerServed(x: Az, k: Key, q: AzReq, resp: Resp, x': Az)
    requires AzServes(x, k, q, resp, x') && (q.CreateContainer? || q.UpdateContainer?)
    ensures x' == x || x' == AzEffect(x, k, q)
    ensures resp == Done ==> x' == AzEffect(x, k, q) && q.a in x.accounts
    ensures AzReply(x, q, resp) && q.CreateContainer? ==> (resp == Done <==> q.a in x.accounts)
    ensures AzReply(x, q, resp) && q.UpdateContainer? ==> (resp == Done <==> HasContainer(x, q.a, q.n))
  {
    hide AzEffect;
  }

  /** Updating an existing container is creating it over again. */
  lemma UpdateIsCreate(x: Az, k: Key, a: string, n: string, metadata: map<string, string>)
    requires HasContainer(x, a, n)
    ensures AzEffect(x, k, UpdateContainer(a, n, metadata)) == AzEffect(x, k, CreateContainer(a, n, metadata))
  {
  }

  method UpsertPrivateEndpoint(s: Session, b: Bucket, c: Cluster) returns (err: bool, dns: Dns, ghost tags: map<string, string>)
    requires s.Valid() && s.Provider() == Azure && s.Pc() == Provisioning(b, AtEndpoint)
    modifies s
    ensures s.Valid() && s.Advanced() && IsMerge(b.spec.tags, c.tags, tags)
    ensures !err ==> s.Pc() == Provisioning(b, AtRecords(dns))
    ensures s.Quiet() ==> s.sys.w == old(s.sys.w).(az := s.sys.w.az)
    ensures s.Quiet() ==> s.sys.w.az == old(s.sys.w.az) ||
                          s.sys.w.az == AzEffect(old(s.sys.w.az), s.me, PutEndpoint(AccountName(b.spec.name), b.spec.name, tags))
    ensures s.Quiet() && !err ==>
              dns == DnsOf(s.sys.w.az, b.spec.name) &&
              s.sys.w.az == AzEffect(old(s.sys.w.az), s.me, PutEndpoint(AccountName(b.spec.name), b.spec.name, tags))
    ensures s.Clean() ==> !err
  {
    hide Session.Valid, AccountName, IsMerge;
    var merged := GetBucketTags(b.spec.tags, c.tags);
    tags := merged;
    var resp := s.CallAz(PutEndpoint(AccountName(b.spec.name), b.spec.name, merged));
    err := !resp.GotEndpoint?;
    dns := if resp.GotEndpoint? then resp.dns else [];
  }

  /** How many addresses the configurations before the `i`-th list. */
  function Offset(dns: Dns, i: nat): nat
    requires i <= |dns|
  {
    if i == 0 then 0 else Offset(dns, i - 1) + if dns[i - 1].Some? then |dns[i - 1].value| else 0
  }

  /** The `i`-th configuration lists a `j`-th address. */
  predicate Lists(dns: Dns, i: nat, j: nat) {
    i < |dns| && dns[i].Some? && j < |dns[i].value|
  }

  /** That address stands after those of the configurations before it. */
  predicate Placed(dns: Dns, ips: seq<string>, i: nat, j: nat)
    requires Lists(dns, i, j)
  {
    Offset(dns, i) + j < |ips| && ips[Offset(dns, i) + j] == dns[i].value[j]
  }

  /** Every listed address is in its place, and there is nothing else. */
  ghost predicate Flattened(dns: Dns, ips: seq<string>) {
    |ips| == Offset(dns, |dns|) && forall i: nat, j: nat :: Lists(dns, i, j) ==> Placed(dns, ips, i, j)
  }

  lemma {:induction false} OffsetOfPrefix(dns: Dns, m: nat, i: nat)
    requires i <= m <= |dns|
    ensures Offset(dns[..m], i) == Offset(dns, i)
  {
    if i > 0 {
      OffsetOfPrefix(dns, m, i - 1);
    }
  }

  lemma {:induction false} AddressesFlatten(dns: Dns)
    ensures Flattened(dns, Addresses(dns))
  {
    if dns != [] {
      var m := |dns| - 1;
      var init, ips := dns[..m], Addresses(dns);
      AddressesFlatten(init);
      OffsetOfPrefix(dns, m, m);
      assert ips == Addresses(init) + if dns[m].Some? then dns[m].value else [];
      assert |Addresses(init)| == Offset(dns, m);
      forall i: nat, j: nat | Lists(dns, i, j)
        ensures Placed(dns, ips, i, j)
      {
        if i < m {
          OffsetOfPrefix(dns, m, i);
          assert Lists(init, i, j) && Placed(init, Addresses(init), i, j);
        }
      }
    }
  }

  /** The addresses, collected one by one, skipping configurations without a list. */
  method CollectAddresses(dns: Dns) returns (ips: seq<string>)
    ensures ips == Addresses(dns) && Flattened(dns, ips)
  {
    AddressesFlatten(dns);
    ips := [];
    for i := 0 to |dns|
      invariant ips == Addresses(dns[..i])
    {
      assert dns[..i + 1][..i] == dns[..i];
      if dns[i].None? {
        continue;
      }
      ghost var before := ips;
      for j := 0 to |dns[i].value|
        invariant ips == before + dns[i].value[..j]
      {
        ips := ips + [dns[i].value[j]];
      }
      assert dns[i].value[..|dns[i].value|] == dns[i].value;
    }
    assert dns[..|dns|] == dns;
  }

  /** One A record per address. */
  method ARecords(ips: seq<string>) returns (records: seq<string>)
    ensures records == ips
  {
    var filled := new string[|ips|];
    for i := 0 to |ips|
      invariant forall j :: 0 <= j < i ==> filled[j] == ips[j]
    {
      filled[i] := ips[i];
    }
    records := filled[..];
  }

  method UpsertPrivateEndpointARecords(s: Session, b: Bucket, c: Cluster, dns: Dns) returns (err: bool, ghost tags: map<string, string>)
    requires s.Valid() && s.Provider() == Azure && s.Pc() == Provisioning(b, AtRecords(dns))
    modifies s
    ensures s.Valid() && s.Advanced() && IsMerge(b.spec.tags, c.tags, tags)
    ensures !err ==> s.Pc() == Provisioning(b, AtKeys(true))
    ensures s.Quiet() ==> s.sys.w == old(s.sys.w).(az := s.sys.w.az)
    ensures s.Quiet() ==> s.sys.w.az == old(s.sys.w.az) ||
                          s.sys.w.az == AzEffect(old(s.sys.w.az), s.me, PutRecords(AccountName(b.spec.name), Addresses(dns), tags))
    ensures s.Quiet() && !err ==>
              s.sys.w.az == AzEffect(old(s.sys.w.az), s.me, PutRecords(AccountName(b.spec.name), Addresses(dns), tags))
    ensures s.Clean() ==> !err
  {
    hide Session.Valid, AccountName, IsMerge;
    var ips := CollectAddresses(dns);
    var records := ARecords(ips);
    var merged := GetBucketTags(b.spec.tags, c.tags);
    tags := merged;
    var resp := s.CallAz(PutRecords(AccountName(b.spec.name), records, merged));
    err := resp != Done;
  }

  // -------------------------------------------------------------------------- secret

  predicate HasKeyOne(keys: seq<Tag>) {
    exists i :: 0 <= i < |keys| && keys[i].key == "key1"
  }

  /** `keys[i]` is the first key named "key1". */
  predicate KeyOneAt(keys: seq<Tag>, i: nat) {
    i < |keys| && keys[i].key == "key1" && forall j :: 0 <= j < i ==> keys[j].key != "key1"
  }

  /** `data` holds the name of the account and the value of the first key named "key1", and nothing else. */
  ghost predicate HoldsKeyOne(data: map<string, string>, account: string, keys: seq<Tag>) {
    && data.Keys == {"accountName", "accountKey"}
    && data["accountName"] == account
    && exists i: nat :: KeyOneAt(keys, i) && data["accountKey"] == keys[i].value
  }

  lemma {:induction false} FirstKeyIs(keys: seq<Tag>)
    ensures FirstKey(keys).Some? <==> HasKeyOne(keys)
    ensures FirstKey(keys).Some? ==> exists i: nat :: KeyOneAt(keys, i) && FirstKey(keys).value == keys[i].value
  {
    if keys != [] {
      var rest := keys[1..];
      FirstKeyIs(rest);
      if keys[0].key == "key1" {
        assert KeyOneAt(keys, 0);
      } else {
        if i: nat :| KeyOneAt(rest, i) && FirstKey(rest).value == rest[i].value {
          assert keys[i + 1] == rest[i];
          assert KeyOneAt(keys, i + 1);
        }
        if i :| 0 <= i < |keys| && keys[i].key == "key1" {
          assert rest[i - 1].key == "key1";
        }
      }
    }
  }

  lemma CredentialsHold(account: string, keys: seq<Tag>)
    requires FirstKey(keys).Some?
    ensures HoldsKeyOne(Credentials(account, FirstKey(keys).value), account, keys)
  {
    hide FirstKey;
    FirstKeyIs(keys);
    assert "accountName" != "accountKey" by {
      assert "accountName"[7] != "accountKey"[7];
    }
  }

  /** The search of the mutate function: the credentials, unless "key1" is missing. */
  method FindCredentials(account: string, keys: seq<Tag>) returns (data: Option<map<string, string>>)
    ensures data.Some? <==> HasKeyOne(keys)
    ensures data.Some? ==> HoldsKeyOne(data.value, account, keys)
    ensures data == if FirstKey(keys).Some? then Some(Credentials(account, FirstKey(keys).value)) else None
  {
    FirstKeyIs(keys);
    if HasKeyOne(keys) {
      CredentialsHold(account, keys);
    }
    for i := 0 to |keys|
      invariant FirstKey(keys) == FirstKey(keys[i..])
    {
      assert keys[i..][0] == keys[i] && keys[i..][1..] == keys[i + 1..];
      if keys[i].key == KEY1 {
        return Some(Credentials(account, keys[i].value));
      }
    }
    data := None;
  }

  /** The secrets with this one created or its data replaced. */
  function WithSecret(x: Secrets, who: Key, k: Key, data: map<string, string>): Secrets {
    x[k := if k in x then x[k].(data := data) else Secret(data, ["objectstorage.giantswarm.io/secret"], false, Some(who))]
  }

  /** Where reading the secret leads. */
  lemma SecretStage(k: Key, b: Bucket, isPrivate: bool, keys: seq<Tag>)
    ensures Provides(k, b, AtSecretCheck(isPrivate, keys), OnSecret(GetSecret(SecretKey(k, b))))
    ensures FirstKey(keys).Some? ==>
              var at, data := AtSecretCheck(isPrivate, keys), Credentials(AccountName(b.spec.name), FirstKey(keys).value);
              && Provided(b, at, Missing) == Provisioning(b, AtSecret(isPrivate, None, data))
              && forall secret :: Provided(b, at, GotSecret(secret)) ==
                   Provisioning(b, if secret.data == data then AtManagementPolicy(isPrivate) else AtSecret(isPrivate, Some(secret), data))
  {
    hide AccountName, FirstKey, Credentials;
  }

  /** Creates the secret with its finalizer, or replaces the data of the existing one. */
  method UpsertSecret(s: Session, b: Bucket, ghost isPrivate: bool, keys: seq<Tag>) returns (err: bool)
    requires s.Valid() && s.Provider() == Azure && s.Pc() == Provisioning(b, AtSecretCheck(isPrivate, keys))
    modifies s
    ensures s.Valid() && s.Advanced()
    ensures !err ==> s.Pc() == Provisioning(b, AtManagementPolicy(isPrivate))
    ensures s.Quiet() ==> s.sys.w == old(s.sys.w).(secrets := s.sys.w.secrets)
    ensures s.Quiet() && !err ==>
              FirstKey(keys).Some? &&
              s.sys.w.secrets == WithSecret(old(s.sys.w.secrets), s.me, SecretKey(s.me, b),
                                            Credentials(AccountName(b.spec.name), FirstKey(keys).value))
    ensures s.Quiet() && (FirstKey(keys).None? || s.sys.w.secrets != WithSecret(old(s.sys.w.secrets), s.me, SecretKey(s.me, b),
                                                                               Credentials(AccountName(b.spec.name), FirstKey(keys).value))) ==>
              s.sys.w.secrets == old(s.sys.w.secrets)
    ensures s.Quiet() && !err ==>
              SecretReady(old(s.sys.w.secrets), s.sys.w.secrets, s.me, SecretKey(s.me, b), AccountName(b.spec.name), keys)
    ensures s.Clean() ==> (!err <==> HasKeyOne(keys))
  {
    hide Session.Valid, AccountName, FirstKey, Credentials, Allowed, Next, SecretServes, SecretReply, SecretEffect, WithSecret, SecretReady,
         HasKeyOne, HoldsKeyOne, Provides, Provided;
    var k := SecretKey(s.me, b);
    ghost var x := s.sys.w.secrets;
    StageCalls(Azure, s.me, b, AtSecretCheck(isPrivate, keys), OnSecret(GetSecret(k)));
    SecretStage(s.me, b, isPrivate, keys);
    var found := s.CallSecret(GetSecret(k));
    if s.Quiet() {
      SecretServed(x, s.me, GetSecret(k), found, s.sys.w.secrets);
    }
    if s.Clean() {
      SecretRead(x, k, found);
    }
    var data := FindCredentials(AccountName(b.spec.name), keys);
    err := (!found.GotSecret? && found != Missing) || data.None?;
    if err {
      return;
    }
    WithSecretReady(x, s.me, k, data.value, AccountName(b.spec.name), keys);
    if found == Missing {
      err := WriteSecret(s, b, isPrivate, None, data.value);
    } else if found.secret.data != data.value {
      err := WriteSecret(s, b, isPrivate, Some(found.secret), data.value);
    } else if s.Quiet() {
      AlreadyStored(x, s.me, k);
    }
  }

  /** Creates the secret, or replaces the data of the one read. */
  method WriteSecret(s: Session, b: Bucket, ghost isPrivate: bool, was: Option<Secret>, data: map<string, string>) returns (err: bool)
    requires s.Valid() && s.Provider() == Azure && s.Pc() == Provisioning(b, AtSecret(isPrivate, was, data))
    modifies s
    ensures s.Valid() && s.Advanced()
    ensures !err ==> s.Pc() == Provisioning(b, AtManagementPolicy(isPrivate))
    ensures s.Quiet() ==> s.sys.w == old(s.sys.w).(secrets := s.sys.w.secrets)
    ensures s.Quiet() && Matches(old(s.sys.w.secrets), SecretKey(s.me, b), was) ==>
              (s.sys.w.secrets == old(s.sys.w.secrets) || s.sys.w.secrets == WithSecret(old(s.sys.w.secrets), s.me, SecretKey(s.me, b), data)) &&
              (!err ==> s.sys.w.secrets == WithSecret(old(s.sys.w.secrets), s.me, SecretKey(s.me, b), data))
    ensures s.Clean() && Matches(old(s.sys.w.secrets), SecretKey(s.me, b), was) ==> !err
  {
    hide Session.Valid, AccountName, Allowed, Next, SecretServes, SecretReply, SecretEffect, WithSecret;
    var k := SecretKey(s.me, b);
    var q := if was.Some? then UpdateSecret(k, was.value, data) else CreateSecret(k, data);
    ghost var x := s.sys.w.secrets;
    StageCalls(Azure, s.me, b, AtSecret(isPrivate, was, data), OnSecret(q));
    var resp := s.CallSecret(q);
    err := resp != Done;
    if s.Quiet() && Matches(x, k, was) {
      WriteServed(x, s.me, k, was, data, resp, s.sys.w.secrets);
    }
  }

  /** `was` is what reading the secret returned. */
  predicate Matches(x: Secrets, k: Key, was: Option<Secret>) {
    if was.None? then k !in x else k in x && x[k] == was.value
  }

  lemma WriteServed(x: Secrets, who: Key, k: Key, was: Option<Secret>, data: map<string, string>, resp: Resp, x': Secrets)
    requires Matches(x, k, was)
    requires SecretServes(x, who, if was.Some? then UpdateSecret(k, was.value, data) else CreateSecret(k, data), resp, x')
    ensures x' == x || x' == WithSecret(x, who, k, data)
    ensures resp == Done ==> x' == WithSecret(x, who, k, data)
    ensures SecretReply(x, if was.Some? then UpdateSecret(k, was.value, data) else CreateSecret(k, data), resp) ==> resp == Done
  {
  }

  lemma WithSecretReady(x: Secrets, who: Key, k: Key, data: map<string, string>, account: string, keys: seq<Tag>)
    requires HoldsKeyOne(data, account, keys)
    ensures SecretReady(x, WithSecret(x, who, k, data), who, k, account, keys)
  {
    hide HoldsKeyOne;
  }

  lemma AlreadyStored(x: Secrets, who: Key, k: Key)
    requires k in x
    ensures WithSecret(x, who, k, x[k].data) == x
  {
    assert x[k := x[k]] == x;
  }

  // ------------------------------------------------------------------ create, update

  /** The account as it was found, or a new one. */
  function Found(x: Az, who: Key, a: string): Account {
    if a in x.accounts then x.accounts[a] else Account(false, map[], map[], map[], Some(who))
  }

  /** What an attempt keeps of an account, policies apart: its maker, its containers, and who made them. */
  predicate Survives(was: Account, account: Account, who: Key, n: string) {
    && account.creator == was.creator
    && account.containers - {n} == was.containers - {n}
    && (n in was.containers ==> n in account.containers && account.containers[n].creator == was.containers[n].creator)
    && (n in account.containers && n !in was.containers ==> account.containers[n].creator == Some(who))
  }

  /** The account `a` and what is in it survive; at most it or its container `n` is new. */
  predicate AccountKept(x: Az, x': Az, who: Key, a: string, n: string) {
    && (a in x.accounts ==> a in x'.accounts)
    && (a in x'.accounts ==>
          Survives(Found(x, who, a), x'.accounts[a], who, n) && x'.accounts[a].policies == Found(x, who, a).policies)
  }

  lemma AccountKeptTwice(x: Az, y: Az, z: Az, who: Key, a: string, n: string)
    requires AccountKept(x, y, who, a, n) && AccountKept(y, z, who, a, n)
    ensures AccountKept(x, z, who, a, n)
  {
  }

  lemma EffectKeepsAccount(x: Az, who: Key, q: AzReq, n: string)
    requires q.PutAccount? || (q.CreateContainer? && q.n == n)
    ensures AccountKept(x, x, who, q.a, n) && AccountKept(x, AzEffect(x, who, q), who, q.a, n)
  {
  }

  /** The account with its container as the spec asks for them; what else it holds stays. */
  ghost predicate AccountReady(x: Az, x': Az, who: Key, spec: Spec, c: Cluster, isPrivate: bool) {
    var a, n := AccountName(spec.name), spec.name;
    var was := Found(x, who, a);
    && HasContainer(x', a, n)
    && var account := x'.accounts[a];
    && account.publicAccess == !isPrivate && IsMerge(spec.tags, c.tags, account.tags)
    && IsMerge(spec.tags, c.tags, account.containers[n].metadata)
    && account.containers[n].creator == (if n in was.containers then was.containers[n].creator else Some(who))
    && account.containers - {n} == was.containers - {n}
    && account.policies == was.policies && account.creator == was.creator
  }

  /** The private endpoint and its DNS records, one for each address, in order. */
  ghost predicate EndpointReady(x: Az, spec: Spec, c: Cluster) {
    var a, n := AccountName(spec.name), spec.name;
    && n in x.endpoints && x.endpoints[n].account == a && IsMerge(spec.tags, c.tags, x.endpoints[n].tags)
    && a in x.records && x.records[a].ips == Addresses(DnsOf(x, n)) && IsMerge(spec.tags, c.tags, x.records[a].metadata)
  }

  ghost predicate Provisioned(x: Az, x': Az, who: Key, spec: Spec, c: Cluster, isPrivate: bool) {
    && Local(x, x', AccountName(spec.name), spec.name)
    && AccountReady(x, x', who, spec, c, isPrivate)
    && (if isPrivate then EndpointReady(x', spec, c) else x'.endpoints == x.endpoints && x'.records == x.records)
  }

  /** Account and container, from whatever was there. */
  method UpsertStorage(s: Session, b: Bucket, c: Cluster, isPrivate: bool) returns (err: bool)
    requires s.Valid() && s.Provider() == Azure && s.Pc() == Provisioning(b, AtNameCheck(isPrivate))
    modifies s
    ensures s.Valid() && s.Advanced()
    ensures !err ==> s.Pc() == Provisioning(b, if isPrivate then AtEndpoint else AtKeys(false))
    ensures s.Quiet() ==> s.sys.w == old(s.sys.w).(az := s.sys.w.az)
    ensures s.Quiet() ==> Local(old(s.sys.w.az), s.sys.w.az, AccountName(b.spec.name), b.spec.name) &&
                          AccountKept(old(s.sys.w.az), s.sys.w.az, s.me, AccountName(b.spec.name), b.spec.name)
    ensures s.Quiet() ==> s.sys.w.az.endpoints == old(s.sys.w.az.endpoints) && s.sys.w.az.records == old(s.sys.w.az.records)
    ensures s.Quiet() && !err ==>
              AccountReady(old(s.sys.w.az), s.sys.w.az, s.me, b.spec, c, isPrivate)
    ensures s.Clean() ==> (!err <==> AccountName(b.spec.name) !in old(s.sys.w.az.taken))
  {
    hide Session.Valid, AccountName, IsMerge, Allowed, Next, AzEffect, Local, AccountKept, AccountReady;
    var a, n := AccountName(b.spec.name), b.spec.name;
    ghost var x := s.sys.w.az;
    ghost var tags, metadata;
    err, tags := UpsertStorageAccount(s, b, c, isPrivate);
    ghost var y := s.sys.w.az;
    EffectIsLocal(x, s.me, PutAccount(a, !isPrivate, tags), n);
    EffectKeepsAccount(x, s.me, PutAccount(a, !isPrivate, tags), n);
    EffectElsewhere(x, s.me, PutAccount(a, !isPrivate, tags));
    if err {
      return;
    }
    err, metadata := UpsertContainer(s, b, c, isPrivate);
    EffectIsLocal(y, s.me, CreateContainer(a, n, metadata), n);
    EffectKeepsAccount(y, s.me, CreateContainer(a, n, metadata), n);
    EffectElsewhere(y, s.me, CreateContainer(a, n, metadata));
    if s.Quiet() {
      LocalTwice(x, y, s.sys.w.az, a, n);
      AccountKeptTwice(x, y, s.sys.w.az, s.me, a, n);
      StorageReady(x, s.me, b.spec, c, isPrivate, tags, metadata);
    }
  }

  lemma EffectElsewhere(x: Az, who: Key, q: AzReq)
    requires q.PutAccount? || q.CreateContainer?
    ensures AzEffect(x, who, q).endpoints == x.endpoints && AzEffect(x, who, q).records == x.records
  {
  }

  lemma StorageReady(x: Az, k: Key, spec: Spec, c: Cluster, isPrivate: bool, tags: map<string, string>, metadata: map<string, string>)
    requires AccountName(spec.name) !in x.taken
    requires IsMerge(spec.tags, c.tags, tags) && IsMerge(spec.tags, c.tags, metadata)
    ensures var y := AzEffect(x, k, PutAccount(AccountName(spec.name), !isPrivate, tags));
            var z := AzEffect(y, k, CreateContainer(AccountName(spec.name), spec.name, metadata));
            AccountName(spec.name) in y.accounts && AccountReady(x, z, k, spec, c, isPrivate) &&
            z.endpoints == x.endpoints && z.records == x.records
  {
    hide AccountName, IsMerge, AzEffect;
    var a, n := AccountName(spec.name), spec.name;
    var was := Found(x, k, a);
    var y := AzEffect(x, k, PutAccount(a, !isPrivate, tags));
    AccountPut(x, k, a, !isPrivate, tags);
    ContainerCreated(y, k, a, n, metadata);
  }

  lemma AccountPut(x: Az, k: Key, a: string, public: bool, tags: map<string, string>)
    requires a !in x.taken
    ensures var y := AzEffect(x, k, PutAccount(a, public, tags));
            a in y.accounts && y.accounts[a] == Found(x, k, a).(publicAccess := public, tags := tags) &&
            y.endpoints == x.endpoints && y.records == x.records
  {
  }

  lemma ContainerCreated(y: Az, k: Key, a: string, n: string, metadata: map<string, string>)
    requires a in y.accounts
    ensures var was := y.accounts[a];
            var z := AzEffect(y, k, CreateContainer(a, n, metadata));
            && HasContainer(z, a, n) && z.endpoints == y.endpoints && z.records == y.records
            && z.accounts[a] == was.(containers := z.accounts[a].containers)
            && z.accounts[a].containers[n] == Container(metadata, if n in was.containers then was.containers[n].creator else Some(k))
            && z.accounts[a].containers - {n} == was.containers - {n}
  {
  }

  /** Private endpoint and A records. */
  method UpsertEndpoint(s: Session, b: Bucket, c: Cluster) returns (err: bool)
    requires s.Valid() && s.Provider() == Azure && s.Pc() == Provisioning(b, AtEndpoint)
    modifies s
    ensures s.Valid() && s.Advanced()
    ensures !err ==> s.Pc() == Provisioning(b, AtKeys(true))
    ensures s.Quiet() ==> s.sys.w == old(s.sys.w).(az := s.sys.w.az)
    ensures s.Quiet() ==> Local(old(s.sys.w.az), s.sys.w.az, AccountName(b.spec.name), b.spec.name) &&
                          s.sys.w.az.accounts == old(s.sys.w.az.accounts)
    ensures s.Quiet() && !err ==> EndpointReady(s.sys.w.az, b.spec, c)
    ensures s.Clean() ==> !err
  {
    hide Session.Valid, AccountName, IsMerge, Allowed, Next, Addresses, Local;
    var a, n := AccountName(b.spec.name), b.spec.name;
    ghost var x := s.sys.w.az;
    var dns;
    ghost var tags, metadata;
    err, dns, tags := UpsertPrivateEndpoint(s, b, c);
    ghost var y := s.sys.w.az;
    EffectIsLocal(x, s.me, PutEndpoint(a, n, tags), n);
    if err {
      return;
    }
    err, metadata := UpsertPrivateEndpointARecords(s, b, c, dns);
    EffectIsLocal(y, s.me, PutRecords(a, Addresses(dns), metadata), n);
    if s.Quiet() {
      LocalTwice(x, y, s.sys.w.az, a, n);
    }
  }

  /** Whether the secret's access key can be had. */
  predicate HasCredentials(x: Az, n: string) {
    HasKeyOne(KeysOf(x, AccountName(n)))
  }

  /** The secrets after a successful creation or update. */
  function CredentialsStored(w: World, who: Key, n: string): Secrets
    requires HasCredentials(w.az, n)
  {
    var keys := KeysOf(w.az, AccountName(n));
    FirstKeyIs(keys);
    WithSecret(w.secrets, who, Key(who.namespace, n), Credentials(AccountName(n), FirstKey(keys).value))
  }

  /** The secret `k` holds the credentials of the account; a new one carries the operator's finalizer, and no other secret differs. */
  ghost predicate SecretReady(x: Secrets, x': Secrets, who: Key, k: Key, account: string, keys: seq<Tag>) {
    && x' - {k} == x - {k} && k in x' && HoldsKeyOne(x'[k].data, account, keys)
    && x'[k] == if k in x then x[k].(data := x'[k].data)
                else Secret(x'[k].data, ["objectstorage.giantswarm.io/secret"], false, Some(who))
  }

  lemma StoredIsReady(w: World, who: Key, n: string)
    requires HasCredentials(w.az, n)
    ensures SecretReady(w.secrets, CredentialsStored(w, who, n), who, Key(who.namespace, n), AccountName(n), KeysOf(w.az, AccountName(n)))
  {
    hide AccountName, HoldsKeyOne, Credentials, FirstKey;
    var keys := KeysOf(w.az, AccountName(n));
    FirstKeyIs(keys);
    CredentialsHold(AccountName(n), keys);
  }

  lemma UserValuesServed(w: World, k: Key, resp: Resp, w': World)
    requires Serves(w, k, GetUserValues, resp, w')
    ensures w' == w && (resp.Flag? ==> resp.yes == w.isPrivate)
    ensures Replies(w, k, GetUserValues, resp, w') ==> resp.Flag?
  {
  }

  lemma KeysServed(x: Az, k: Key, a: string, resp: Resp, x': Az)
    requires AzServes(x, k, ListKeys(a), resp, x')
    ensures x' == x && (resp.GotKeys? ==> resp.accessKeys == KeysOf(x, a))
    ensures AzReply(x, ListKeys(a), resp) && a in x.accounts ==> resp.GotKeys?
  {
  }

  /** Reads the account's access keys and stores the first "key1" in the secret. */
  method StoreCredentials(s: Session, b: Bucket, ghost isPrivate: bool) returns (err: bool)
    requires s.Valid() && s.Provider() == Azure && s.Pc() == Provisioning(b, AtKeys(isPrivate))
    modifies s
    ensures s.Valid() && s.Advanced()
    ensures !err ==> s.Pc() == Provisioning(b, AtManagementPolicy(isPrivate))
    ensures s.Quiet() ==> s.sys.w == old(s.sys.w).(secrets := s.sys.w.secrets)
    ensures s.Quiet() ==> s.sys.w.secrets - {SecretKey(s.me, b)} == old(s.sys.w.secrets) - {SecretKey(s.me, b)}
    ensures s.Quiet() ==> s.sys.w.secrets == old(s.sys.w.secrets) ||
                          (HasCredentials(old(s.sys.w.az), b.spec.name) && s.sys.w.secrets == CredentialsStored(old(s.sys.w), s.me, b.spec.name))
    ensures s.Quiet() && !err ==>
              HasCredentials(old(s.sys.w.az), b.spec.name) && s.sys.w.secrets == CredentialsStored(old(s.sys.w), s.me, b.spec.name)
    ensures s.Clean() && AccountName(b.spec.name) in old(s.sys.w.az.accounts) ==> (!err <==> HasCredentials(old(s.sys.w.az), b.spec.name))
  {
    hide Session.Valid, AccountName, FirstKey, Credentials, AzServes, AzReply, AzEffect, Allowed, Next;
    ghost var x := s.sys.w.az;
    StageCalls(Azure, s.me, b, AtKeys(isPrivate), OnAz(ListKeys(AccountName(b.spec.name))));
    var listing := s.CallAz(ListKeys(AccountName(b.spec.name)));
    if s.Quiet() {
      KeysServed(x, s.me, AccountName(b.spec.name), listing, s.sys.w.az);
    }
    err := !listing.GotKeys?;
    if err {
      return;
    }
    FirstKeyIs(listing.accessKeys);
    err := UpsertSecret(s, b, isPrivate, listing.accessKeys);
  }

  /** What providing for bucket `n` never touches, even when it fails half-way. */
  predicate ProvisioningSpared(w: World, w': World, who: Key, n: string) {
    var a := AccountName(n);
    && w' == w.(az := w'.az, secrets := w'.secrets)
    && Local(w.az, w'.az, a, n) && AccountKept(w.az, w'.az, who, a, n)
    && (!w.isPrivate ==> w'.az.endpoints == w.az.endpoints && w'.az.records == w.az.records)
    && (w'.secrets == w.secrets || (HasCredentials(w.az, n) && w'.secrets == CredentialsStored(w, who, n)))
  }

  /** Account, container and, in a private cluster, endpoint and records. */
  method ProvideStorage(s: Session, b: Bucket, c: Cluster) returns (err: bool, ghost isPrivate: bool)
    requires s.Valid() && s.Provider() == Azure && s.Pc() == Provisioning(b, AtSettings)
    modifies s
    ensures s.Valid() && s.Advanced()
    ensures !err ==> s.Pc() == Provisioning(b, AtKeys(isPrivate))
    ensures s.Quiet() ==> s.sys.w == old(s.sys.w).(az := s.sys.w.az)
    ensures s.Quiet() ==> Local(old(s.sys.w.az), s.sys.w.az, AccountName(b.spec.name), b.spec.name) &&
                          AccountKept(old(s.sys.w.az), s.sys.w.az, s.me, AccountName(b.spec.name), b.spec.name)
    ensures s.Quiet() && !old(s.sys.w.isPrivate) ==>
              s.sys.w.az.endpoints == old(s.sys.w.az.endpoints) && s.sys.w.az.records == old(s.sys.w.az.records)
    ensures s.Quiet() && !err ==> Provisioned(old(s.sys.w.az), s.sys.w.az, s.me, b.spec, c, old(s.sys.w.isPrivate))
    ensures s.Clean() ==> (!err <==> AccountName(b.spec.name) !in old(s.sys.w.az.taken))
  {
    hide Session.Valid, AccountName, IsMerge, Local, AccountKept, AccountReady, EndpointReady;
    hide Serves, Replies, Allowed, Next, Provides, Provided, Counted;
    var a, n := AccountName(b.spec.name), b.spec.name;
    ghost var x, w := s.sys.w.az, s.sys.w;
    LocalItself(x, a, n);
    AccountKeptItself(x, s.me, a, n);
    SettingsAllowed(s.me, b);
    var settings := s.Call(GetUserValues);
    err, isPrivate := !settings.Flag?, settings.Flag? && settings.yes;
    if s.Quiet() {
      UserValuesServed(w, s.me, settings, s.sys.w);
    }
    if err {
      return;
    }
    err := UpsertStorage(s, b, c, settings.yes);
    ghost var y := s.sys.w.az;
    if err {
      return;
    }
    if settings.yes {
      err := UpsertEndpoint(s, b, c);
      if s.Quiet() {
        LocalTwice(x, y, s.sys.w.az, a, n);
        AccountKeptStays(x, y, s.sys.w.az, s.me, a, n);
      }
    }
    if s.Quiet() && !err {
      AccountReadyStays(x, y, s.sys.w.az, s.me, b.spec, c, isPrivate);
    }
  }

  /**
   Creates or updates everything a bucket needs, from any partial state; on failure,
   what belongs to other buckets is as it was.
   */
  method CreateBucket(s: Session, b: Bucket, c: Cluster) returns (err: bool)
    requires s.Valid() && s.Provider() == Azure && s.Pc() == Provisioning(b, AtSettings)
    modifies s
    ensures s.Valid() && s.Advanced()
    ensures !err ==> Configurable(s.Pc(), b)
    ensures s.Quiet() ==> s.sys.w == old(s.sys.w).(az := s.sys.w.az, secrets := s.sys.w.secrets)
    ensures s.Quiet() ==> ProvisioningSpared(old(s.sys.w), s.sys.w, s.me, b.spec.name)
    ensures s.Quiet() && !err ==> Provisioned(old(s.sys.w.az), s.sys.w.az, s.me, b.spec, c, old(s.sys.w.isPrivate))
    ensures s.Quiet() && !err ==>
              HasCredentials(old(s.sys.w.az), b.spec.name) && s.sys.w.secrets == CredentialsStored(old(s.sys.w), s.me, b.spec.name)
    ensures s.Quiet() && !err ==>
              SecretReady(old(s.sys.w.secrets), s.sys.w.secrets, s.me, SecretKey(s.me, b),
                          AccountName(b.spec.name), KeysOf(old(s.sys.w.az), AccountName(b.spec.name)))
    ensures s.Clean() ==>
              (!err <==> AccountName(b.spec.name) !in old(s.sys.w.az.taken) && HasCredentials(old(s.sys.w.az), b.spec.name))
  {
    hide Session.Valid, AccountName, Local, AccountKept, Provisioned, HasCredentials, CredentialsStored, SecretReady;
    ghost var w, isPrivate := s.sys.w, false;
    err, isPrivate := ProvideStorage(s, b, c);
    if err {
      return;
    }
    if s.Quiet() {
      ProvisionedAccount(w.az, s.sys.w.az, s.me, b.spec, c, w.isPrivate);
      SameCredentials(w, s.sys.w, s.me, b.spec.name);
    }
    err := StoreCredentials(s, b, isPrivate);
    if s.Quiet() && !err {
      StoredIsReady(w, s.me, b.spec.name);
    }
  }

  lemma ProvisionedAccount(x: Az, y: Az, who: Key, spec: Spec, c: Cluster, isPrivate: bool)
    requires Provisioned(x, y, who, spec, c, isPrivate)
    ensures AccountName(spec.name) in y.accounts && y.keys == x.keys
  {
    hide AccountName, IsMerge;
  }

  lemma SettingsAllowed(k: Key, b: Bucket)
    ensures Allowed(Azure, k, Provisioning(b, AtSettings), GetUserValues)
    ensures forall resp: Resp :: resp.Flag? ==>
              Next(Azure, Provisioning(b, AtSettings), GetUserValues, resp) == Provisioning(b, AtNameCheck(resp.yes))
  {
  }

  lemma AccountKeptItself(x: Az, who: Key, a: string, n: string)
    ensures AccountKept(x, x, who, a, n)
  {
  }

  lemma AccountKeptStays(x: Az, y: Az, z: Az, who: Key, a: string, n: string)
    requires AccountKept(x, y, who, a, n) && z.accounts == y.accounts
    ensures AccountKept(x, z, who, a, n)
  {
  }

  lemma SameCredentials(w: World, w': World, k: Key, n: string)
    requires w'.az.keys == w.az.keys && w'.secrets == w.secrets
    ensures HasCredentials(w.az, n) <==> HasCredentials(w'.az, n)
    ensures HasCredentials(w.az, n) ==> CredentialsStored(w', k, n) == CredentialsStored(w, k, n)
  {
    hide AccountName, FirstKey;
  }

  lemma AccountReadyStays(x: Az, y: Az, z: Az, k: Key, spec: Spec, c: Cluster, isPrivate: bool)
    requires AccountReady(x, y, k, spec, c, isPrivate) && z.accounts == y.accounts && Local(x, z, AccountName(spec.name), spec.name)
    ensures AccountReady(x, z, k, spec, c, isPrivate)
    ensures AccountName(spec.name) in z.accounts && z.keys == x.keys
  {
    hide AccountName, IsMerge;
  }

  /** An update is a creation. */
  method UpdateBucket(s: Session, b: Bucket, c: Cluster) returns (err: bool)
    requires s.Valid() && s.Provider() == Azure && s.Pc() == Provisioning(b, AtSettings)
    modifies s
    ensures s.Valid() && s.Advanced()
    ensures !err ==> Configurable(s.Pc(), b)
    ensures s.Quiet() ==> s.sys.w == old(s.sys.w).(az := s.sys.w.az, secrets := s.sys.w.secrets)
    ensures s.Quiet() ==> ProvisioningSpared(old(s.sys.w), s.sys.w, s.me, b.spec.name)
    ensures s.Quiet() && !err ==> Provisioned(old(s.sys.w.az), s.sys.w.az, s.me, b.spec, c, old(s.sys.w.isPrivate))
    ensures s.Quiet() && !err ==>
              HasCredentials(old(s.sys.w.az), b.spec.name) && s.sys.w.secrets == CredentialsStored(old(s.sys.w), s.me, b.spec.name)
    ensures s.Quiet() && !err ==>
              SecretReady(old(s.sys.w.secrets), s.sys.w.secrets, s.me, SecretKey(s.me, b),
                          AccountName(b.spec.name), KeysOf(old(s.sys.w.az), AccountName(b.spec.name)))
    ensures s.Clean() ==>
              (!err <==> AccountName(b.spec.name) !in old(s.sys.w.az.taken) && HasCredentials(old(s.sys.w.az), b.spec.name))
  {
    hide Session.Valid, AccountName, Provisioned, ProvisioningSpared, SecretReady, HasCredentials, CredentialsStored;
    err := CreateBucket(s, b, c);
  }

  /** Provisioning what is provisioned changes nothing, for tags that do not depend on the order they are visited in. */
  lemma ProvisionedTwice(x: Az, y: Az, z: Az, k: Key, spec: Spec, c: Cluster, isPrivate: bool)
    requires NoConflict(c.tags) && Provisioned(x, y, k, spec, c, isPrivate) && Provisioned(y, z, k, spec, c, isPrivate)
    ensures z == y
  {
    hide AccountName, IsMerge, NoConflict, Addresses;
    var a, n := AccountName(spec.name), spec.name;
    var p, q := y.accounts[a], z.accounts[a];
    MergeIsUnique(spec.tags, c.tags, p.tags, q.tags);
    MergeIsUnique(spec.tags, c.tags, p.containers[n].metadata, q.containers[n].metadata);
    SameMap(p.containers, q.containers, n);
    SameMap(y.accounts, z.accounts, a);
    if isPrivate {
      MergeIsUnique(spec.tags, c.tags, y.endpoints[n].tags, z.endpoints[n].tags);
      MergeIsUnique(spec.tags, c.tags, y.records[a].metadata, z.records[a].metadata);
      SameMap(y.endpoints, z.endpoints, n);
      SameMap(y.records, z.records, a);
    }
  }

  lemma SameMap<K, V>(m: map<K, V>, m': map<K, V>, k: K)
    requires m - {k} == m' - {k} && k in m && k in m' && m[k] == m'[k]
    ensures m == m'
  {
    forall x
      ensures x in m <==> x in m'
      ensures x in m && x in m' ==> m[x] == m'[x]
    {
      assert x != k ==> (x in m <==> x in m - {k}) && (x in m' <==> x in m' - {k});
      assert x != k && x in m ==> (m - {k})[x] == m[x];
      assert x != k && x in m' ==> (m' - {k})[x] == m'[x];
    }
  }

  /** The same secret is stored again. */
  lemma StoredTwice(w: World, w': World, k: Key, n: string)
    requires HasCredentials(w.az, n) && w'.az.keys == w.az.keys && w'.secrets == CredentialsStored(w, k, n)
    ensures HasCredentials(w'.az, n) && CredentialsStored(w', k, n) == w'.secrets
  {
    hide AccountName, FirstKey, Credentials;
  }

  // ------------------------------------------------------------------- configuration

  /** The management policies after configuring; removal goes by the name of the rule. */
  function ConfiguredPolicies(policies: map<string, int>, expiration: Option<int>): map<string, int> {
    if expiration.Some? then policies["default" := expiration.value] else policies - {"ExpirationLogging"}
  }

  /** The account's lifecycle policy, kept under the default name, is what the spec asks for. */
  predicate LifecycleAsAsked(policies: map<string, int>, expiration: Option<int>) {
    if expiration.Some? then "default" in policies && policies["default"] == expiration.value
    else "default" !in policies
  }

  /**
   Since the policy is created under one name and deleted under another, taking the
   expiration out of the spec does not remove a policy that was created: the lifecycle
   is as asked for exactly when an expiration is set or there was no policy before.
   */
  lemma RemovalMissesPolicy(policies: map<string, int>, expiration: Option<int>)
    ensures LifecycleAsAsked(ConfiguredPolicies(policies, expiration), expiration) <==>
            expiration.Some? || "default" !in policies
  {
    assert "default" != "ExpirationLogging" by {
      assert "default"[0] != "ExpirationLogging"[0];
    }
  }

  /** Sets the account's lifecycle policy; a missing policy is no error. */
  method ConfigureBucket(s: Session, b: Bucket) returns (err: bool)
    requires s.Valid() && s.Provider() == Azure && Configurable(s.Pc(), b)
    modifies s
    ensures s.Valid() && s.Advanced()
    ensures !err ==> s.Pc() == Reporting(b)
    ensures s.Quiet() ==> s.sys.w == old(s.sys.w).(az := s.sys.w.az)
    ensures s.Quiet() && AccountName(b.spec.name) !in old(s.sys.w.az.accounts) ==> s.sys.w.az == old(s.sys.w.az)
    ensures s.Quiet() && AccountName(b.spec.name) in old(s.sys.w.az.accounts) ==>
              s.sys.w.az == old(s.sys.w.az) || s.sys.w.az == PoliciesConfigured(old(s.sys.w.az), b.spec)
    ensures s.Quiet() && !err && AccountName(b.spec.name) in old(s.sys.w.az.accounts) ==>
              s.sys.w.az == PoliciesConfigured(old(s.sys.w.az), b.spec)
    ensures s.Clean() ==> (!err <==> b.spec.expiration.None? || AccountName(b.spec.name) in old(s.sys.w.az.accounts))
  {
    hide Session.Valid, AccountName, AzServes, AzReply, AzEffect, PoliciesConfigured, DEFAULT_POLICY, LIFECYCLE_RULE;
    var a := AccountName(b.spec.name);
    ghost var x := s.sys.w.az;
    if b.spec.expiration.Some? {
      var resp := s.CallAz(PutManagementPolicy(a, DEFAULT_POLICY, b.spec.expiration.value));
      err := resp != Done;
      if s.Quiet() {
        PolicyServed(x, s.me, b.spec, PutManagementPolicy(a, DEFAULT_POLICY, b.spec.expiration.value), resp, s.sys.w.az);
      }
    } else {
      var resp := s.CallAz(DeleteManagementPolicy(a, LIFECYCLE_RULE));
      err := resp != Done && resp != Missing;
      if s.Quiet() {
        PolicyServed(x, s.me, b.spec, DeleteManagementPolicy(a, LIFECYCLE_RULE), resp, s.sys.w.az);
      }
    }
  }

  function PoliciesConfigured(x: Az, spec: Spec): Az
    requires AccountName(spec.name) in x.accounts
  {
    var a := AccountName(spec.name);
    x.(accounts := x.accounts[a := x.accounts[a].(policies := ConfiguredPolicies(x.accounts[a].policies, spec.expiration))])
  }

  lemma PolicyServed(x: Az, k: Key, spec: Spec, q: AzReq, resp: Resp, x': Az)
    requires AzServes(x, k, q, resp, x')
    requires q == if spec.expiration.Some? then PutManagementPolicy(AccountName(spec.name), DEFAULT_POLICY, spec.expiration.value)
                  else DeleteManagementPolicy(AccountName(spec.name), LIFECYCLE_RULE)
    ensures q.a !in x.accounts ==> x' == x
    ensures q.a in x.accounts ==> x' == x || x' == PoliciesConfigured(x, spec)
    ensures q.a in x.accounts && (resp == Done || resp == Missing) ==> x' == PoliciesConfigured(x, spec)
    ensures AzReply(x, q, resp) ==>
              if spec.expiration.Some? then (resp == Done <==> q.a in x.accounts) && (resp == Missing <==> q.a !in x.accounts)
              else resp == Done || resp == Missing
  {
    hide AccountName;
  }

  // ----------------------------------------------------------------------- deletion

  /** The secret with the operator's finalizer taken off, unless that removes it. */
  predicate DeletableSecret(x: Secrets, k: Key) {
    k in x && !(x[k].deleting && SECRET_FINALIZER in x[k].finalizers && Without(x[k].finalizers, SECRET_FINALIZER) == [])
  }

  /** The secret is gone, or marked and no longer held by the operator's finalizer. */
  predicate SecretDropped(x: Secrets, k: Key) {
    k in x ==> x[k].deleting && SECRET_FINALIZER !in x[k].finalizers
  }

  /**
   Removes the operator's finalizer from the secret, then deletes it. If a user has
   deleted the secret before, taking the finalizer off makes it disappear, and the
   deletion that follows is refused.
   */
  method DeleteCredentials(s: Session, b: Bucket) returns (err: bool)
    requires s.Valid() && s.Provider() == Azure && s.Pc() == DestroyingSecret(b)
    modifies s
    ensures s.Valid() && s.Advanced()
    ensures !err ==> s.Pc() == Destroyed(Azure, b)
    ensures s.Quiet() ==> s.sys.w == old(s.sys.w).(secrets := s.sys.w.secrets)
    ensures s.Quiet() ==> s.sys.w.secrets - {SecretKey(s.me, b)} == old(s.sys.w.secrets) - {SecretKey(s.me, b)}
    ensures s.Quiet() && !err ==> SecretDropped(s.sys.w.secrets, SecretKey(s.me, b))
    ensures s.Clean() ==> (!err <==> DeletableSecret(old(s.sys.w.secrets), SecretKey(s.me, b)))
  {
    hide Allowed, Next;
    hide Session.Valid, Without, SecretServes, SecretReply, SecretEffect, DeletableSecret, SecretDropped, SecretUnheld, SECRET_FINALIZER;
    var k := SecretKey(s.me, b);
    ghost var x := s.sys.w.secrets;
    DeletionCalls(s.me, b, Secret(map[], [], false, None));
    var found := s.CallSecret(GetSecret(k));
    if s.Quiet() {
      SecretServed(x, s.me, GetSecret(k), found, s.sys.w.secrets);
    }
    if s.Clean() {
      SecretRead(x, k, found);
    }
    err := !found.GotSecret?;
    if err {
      return;
    }
    DeletionCalls(s.me, b, found.secret);
    var patch := Unguarded(found.secret.finalizers);
    var resp := s.CallSecret(PatchSecret(k, patch));
    ghost var y, first := s.sys.w.secrets, resp;
    if s.Quiet() {
      SecretServed(x, s.me, PatchSecret(k, patch), resp, y);
    }
    err := resp != Done;
    if err {
      if s.Clean() {
        PatchReplied(x, s.me, k, resp);
      }
      return;
    }
    resp := s.CallSecret(DeleteSecret(k));
    if s.Quiet() {
      SecretServed(y, s.me, DeleteSecret(k), resp, s.sys.w.secrets);
    }
    if s.Clean() {
      DeletionReplied(x, s.me, k, resp);
    }
    err := resp != Done;
  }

  /** The three calls of the deletion and where their answers lead. */
  lemma DeletionCalls(k: Key, b: Bucket, held: Secret)
    ensures var x := SecretKey(k, b);
            && Allowed(Azure, k, DestroyingSecret(b), OnSecret(GetSecret(x)))
            && Next(Azure, DestroyingSecret(b), OnSecret(GetSecret(x)), GotSecret(held)) == UnguardingSecret(b, held)
            && Allowed(Azure, k, UnguardingSecret(b, held), OnSecret(PatchSecret(x, Unguarded(held.finalizers))))
            && Next(Azure, UnguardingSecret(b, held), OnSecret(PatchSecret(x, Unguarded(held.finalizers))), Done) == DeletingSecret(b)
            && Allowed(Azure, k, DeletingSecret(b), OnSecret(DeleteSecret(x)))
            && Next(Azure, DeletingSecret(b), OnSecret(DeleteSecret(x)), Done) == Destroyed(Azure, b)
  {
    hide Provides, Provided, Without;
  }

  lemma SecretServed(x: Secrets, k: Key, q: SecretReq, resp: Resp, x': Secrets)
    requires SecretServes(x, k, q, resp, x')
    ensures x' - {q.s} == x - {q.s}
    ensures q.GetSecret? ==> x' == x && (resp.GotSecret? ==> q.s in x && x[q.s] == resp.secret) && (resp == Missing ==> q.s !in x)
    ensures q.PatchSecret? && resp == Done && q.s in x && q.list == Unguarded(x[q.s].finalizers) ==> SecretUnheld(x', q.s)
    ensures q.DeleteSecret? && resp == Done && SecretUnheld(x, q.s) ==> SecretDropped(x', q.s)
  {
    hide Without, SECRET_FINALIZER;
    if q.s in x {
      assert SECRET_FINALIZER !in Without(x[q.s].finalizers, SECRET_FINALIZER);
    }
  }

  predicate SecretUnheld(x: Secrets, k: Key) {
    k in x ==> SECRET_FINALIZER !in x[k].finalizers
  }

  lemma SecretRead(x: Secrets, k: Key, resp: Resp)
    requires SecretReply(x, GetSecret(k), resp)
    ensures if k in x then resp.GotSecret? else resp == Missing
    ensures !resp.GotSecret? ==> !DeletableSecret(x, k)
  {
  }

  lemma PatchReplied(x: Secrets, who: Key, k: Key, resp: Resp)
    requires k in x && SecretReply(x, PatchSecret(k, Unguarded(x[k].finalizers)), resp)
    ensures resp == Done
  {
  }

  lemma DeletionReplied(x: Secrets, who: Key, k: Key, resp: Resp)
    requires k in x
    requires SecretReply(SecretEffect(x, who, PatchSecret(k, Unguarded(x[k].finalizers))), DeleteSecret(k), resp)
    ensures resp == Done <==> DeletableSecret(x, k)
  {
    hide Without;
  }

  /**
   Deletes the account, its container with it, and then the secret; the private
   endpoint and the DNS records stay.
   */
  method DeleteBucket(s: Session, b: Bucket) returns (err: bool)
    requires s.Valid() && s.Provider() == Azure && s.Pc() == Destroying(b)
    modifies s
    ensures s.Valid() && s.Advanced()
    ensures !err ==> s.Pc() == Destroyed(Azure, b)
    ensures s.Quiet() ==> s.sys.w == old(s.sys.w).(az := s.sys.w.az, secrets := s.sys.w.secrets)
    ensures s.Quiet() ==> s.sys.w.az == old(s.sys.w.az) ||
                          s.sys.w.az == old(s.sys.w.az).(accounts := old(s.sys.w.az.accounts) - {AccountName(b.spec.name)})
    ensures s.Quiet() ==> s.sys.w.secrets - {SecretKey(s.me, b)} == old(s.sys.w.secrets) - {SecretKey(s.me, b)}
    ensures s.Quiet() && s.sys.w.secrets != old(s.sys.w.secrets) ==> AccountName(b.spec.name) !in s.sys.w.az.accounts
    ensures s.Quiet() && !err ==>
              AccountName(b.spec.name) !in s.sys.w.az.accounts && SecretDropped(s.sys.w.secrets, SecretKey(s.me, b))
    ensures s.Clean() ==> (!err <==> DeletableSecret(old(s.sys.w.secrets), SecretKey(s.me, b)))
  {
    hide Session.Valid, AccountName, DeletableSecret, SecretDropped;
    var resp := s.CallAz(DropAccount(AccountName(b.spec.name)));
    err := resp != Done;
    if err {
      return;
    }
    err := DeleteCredentials(s, b);
  }
}
