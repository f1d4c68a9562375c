/**
 The Azure name sanitisers: storage account names keep only letters and digits
 and at most 24 of them.
 */
module Names {

  const ACCOUNT_NAME_LIMIT := 24

  predicate Alphanumeric(c: char) {
    'a' <= c <= 'z' || 'A' <= c <= 'Z' || '0' <= c <= '9'
  }

  function Filter(name: string): string {
    if name == "" then ""
    else if Alphanumeric(name[0]) then [name[0]] + Filter(name[1..])
    else Filter(name[1..])
  }

  function Truncate(s: string, limit: nat): string {
    if |s| <= limit then s else s[..limit]
  }

  function AccountName(name: string): string {
    Truncate(Filter(name), ACCOUNT_NAME_LIMIT)
  }

  lemma {:induction false} FilterKeepsAlphanumeric(name: string)
    ensures forall c :: c in Filter(name) ==> Alphanumeric(c)
    ensures |Filter(name)| <= |name|
  {
    if name != "" {
      FilterKeepsAlphanumeric(name[1..]);
    }
  }

  lemma {:induction false} FilterFixesAlphanumeric(name: string)
    requires forall c :: c in name ==> Alphanumeric(c)
    ensures Filter(name) == name
  {
    if name != "" {
      FilterFixesAlphanumeric(name[1..]);
    }
  }

  /** An account name is legal, and sanitising twice is sanitising once. */
  lemma AccountNameIsLegal(name: string)
    ensures |AccountName(name)| <= 24
    ensures forall c :: c in AccountName(name) ==> LetterOrDigit(c)
    ensures AccountName(AccountName(name)) == AccountName(name)
  {
    FilterKeepsAlphanumeric(name);
    FilterFixesAlphanumeric(AccountName(name));
  }

  // -------------------------------------------------- the sanitiser, position by position

  /** The characters an account name is made of. */
  predicate LetterOrDigit(c: char) {
    ('a' <= c && c <= 'z') || ('A' <= c && c <= 'Z') || ('0' <= c && c <= '9')
  }

  /** How many letters and digits precede position `i`. */
  function Rank(name: string, i: nat): nat
    requires i <= |name|
  {
    if i == 0 then 0 else Rank(name, i - 1) + if LetterOrDigit(name[i - 1]) then 1 else 0
  }

  /** Position `i` holds the letter or digit of rank `r`. */
  predicate HasRank(name: string, i: nat, r: nat) {
    i < |name| && LetterOrDigit(name[i]) && Rank(name, i) == r
  }

  lemma {:induction false} FilterSplits(a: string, b: string)
    ensures Filter(a + b) == Filter(a) + Filter(b)
  {
    if a == "" {
      assert a + b == b;
    } else {
      assert (a + b)[1..] == a[1..] + b;
      FilterSplits(a[1..], b);
    }
  }

  lemma FilterStep(name: string, i: nat)
    requires i < |name|
    ensures Filter(name[..i + 1]) == Filter(name[..i]) + if Alphanumeric(name[i]) then [name[i]] else []
  {
    assert name[..i + 1] == name[..i] + [name[i]];
    FilterSplits(name[..i], [name[i]]);
    assert [name[i]][1..] == "";
  }

  /** The rank is where the filter puts a letter or digit. */
  lemma {:induction false} RankIsLength(name: string, i: nat)
    requires i <= |name|
    ensures Rank(name, i) == |Filter(name[..i])|
  {
    if i > 0 {
      RankIsLength(name, i - 1);
      FilterStep(name, i - 1);
    }
  }

  lemma FilterAt(name: string, i: nat, r: nat)
    requires HasRank(name, i, r)
    ensures r < |Filter(name)| && Filter(name)[r] == name[i]
  {
    RankIsLength(name, i);
    FilterStep(name, i);
    assert name == name[..i + 1] + name[i + 1..];
    FilterSplits(name[..i + 1], name[i + 1..]);
  }

  /** Every character of the filtered name comes from the position of its rank. */
  lemma {:induction false} FilterFrom(name: string, m: nat, r: nat) returns (i: nat)
    requires m <= |name| && r < |Filter(name[..m])|
    ensures HasRank(name, i, r)
  {
    FilterStep(name, m - 1);
    RankIsLength(name, m - 1);
    if r < |Filter(name[..m - 1])| {
      i := FilterFrom(name, m - 1, r);
    } else {
      i := m - 1;
    }
  }

  /**
   The account name is exactly the letters and digits of the name, in order, up to the
   twenty-fourth: each stands at its rank, and nothing else stands there.
   */
  lemma AccountNameExactly(name: string)
    ensures |AccountName(name)| <= 24
    ensures forall i: nat, r: nat :: r < 24 && HasRank(name, i, r) ==> r < |AccountName(name)| && AccountName(name)[r] == name[i]
    ensures forall r: nat :: r < |AccountName(name)| ==> Occurs(name, r, AccountName(name)[r])
  {
    forall i: nat, r: nat | r < 24 && HasRank(name, i, r)
      ensures r < |AccountName(name)| && AccountName(name)[r] == name[i]
    {
      FilterAt(name, i, r);
    }
    forall r: nat | r < |AccountName(name)|
      ensures Occurs(name, r, AccountName(name)[r])
    {
      OccursInFilter(name, r, AccountName(name)[r]);
    }
  }

  /** The letter or digit of rank `r` is `c`. */
  ghost predicate Occurs(name: string, r: nat, c: char) {
    exists i: nat :: HasRank(name, i, r) && name[i] == c
  }

  lemma OccursInFilter(name: string, r: nat, c: char)
    ensures Occurs(name, r, c) <==> r < |Filter(name)| && Filter(name)[r] == c
  {
    if i: nat :| HasRank(name, i, r) && name[i] == c {
      FilterAt(name, i, r);
    }
    if r < |Filter(name)| && Filter(name)[r] == c {
      assert name[..|name|] == name;
      var i := FilterFrom(name, |name|, r);
      FilterAt(name, i, r);
    }
  }

  /** Two names agree at rank `r`: they have the same letter or digit there, or none. */
  ghost predicate AgreeAt(a: string, b: string, r: nat) {
    forall c :: Occurs(a, r, c) <==> Occurs(b, r, c)
  }

  lemma AgreeInFilter(a: string, b: string, r: nat)
    ensures AgreeAt(a, b, r) <==>
            var p, q := Filter(a), Filter(b);
            (r < |p| <==> r < |q|) && (r < |p| && r < |q| ==> p[r] == q[r])
  {
    hide Occurs;
    forall c
      ensures Occurs(a, r, c) <==> r < |Filter(a)| && Filter(a)[r] == c
      ensures Occurs(b, r, c) <==> r < |Filter(b)| && Filter(b)[r] == c
    {
      OccursInFilter(a, r, c);
      OccursInFilter(b, r, c);
    }
    if AgreeAt(a, b, r) {
      assert r < |Filter(a)| ==> Occurs(a, r, Filter(a)[r]);
      assert r < |Filter(b)| ==> Occurs(b, r, Filter(b)[r]);
    }
  }

  /**
   Two names share an account exactly when their first twenty-four letters and digits
   are the same, including where they end.
   */
  lemma CollisionCondition(a: string, b: string)
    ensures AccountName(a) == AccountName(b) <==> forall r: nat :: r < 24 ==> AgreeAt(a, b, r)
  {
    hide AgreeAt;
    forall r: nat
      ensures AgreeAt(a, b, r) <==>
              var p, q := Filter(a), Filter(b);
              (r < |p| <==> r < |q|) && (r < |p| && r < |q| ==> p[r] == q[r])
    {
      AgreeInFilter(a, b, r);
    }
    var p, q := AccountName(a), AccountName(b);
    if p == q {
      forall r: nat | r < 24
        ensures AgreeAt(a, b, r)
      {
        if r < |p| {
          assert p[r] == q[r];
        }
      }
    }
    if forall r: nat :: r < 24 ==> AgreeAt(a, b, r) {
      var m := if |p| < |q| then |p| else |q|;
      assert m < 24 ==> AgreeAt(a, b, m);
      forall r | 0 <= r < |p|
        ensures p[r] == q[r]
      {
        assert AgreeAt(a, b, r);
      }
    }
  }

  /** Three names with dashes, one of them too long. */
  lemma SomeAccountNames()
    ensures AccountName("giantswarm-glippy-loki") == "giantswarmglippyloki"
    ensures AccountName("giantswarm-1111-loki") == "giantswarm1111loki"
    ensures AccountName("giantswarm-verylonginstallationname-loki") == "giantswarmverylonginstal"
  {
    hide Filter;
    Glippy();
    Digits();
    VeryLong();
  }

  lemma Dash(a: string, b: string)
    ensures Filter(a + ("-" + b)) == Filter(a) + Filter(b)
  {
    FilterSplits(a, "-" + b);
    assert ("-" + b)[1..] == b;
  }

  lemma KeepsAll(s: string)
    requires forall i :: 0 <= i < |s| ==> Alphanumeric(s[i])
    ensures Filter(s) == s
  {
    FilterFixesAlphanumeric(s);
  }

  lemma Glippy()
    ensures Filter("giantswarm-glippy-loki") == "giantswarmglippyloki"
  {
    hide Filter;
    KeepsAll("giantswarm");
    KeepsAll("glippy");
    KeepsAll("loki");
    assert "giantswarm-glippy-loki" == "giantswarm" + ("-" + "glippy-loki");
    assert "glippy-loki" == "glippy" + ("-" + "loki");
    Dash("giantswarm", "glippy-loki");
    Dash("glippy", "loki");
    assert "giantswarm" + ("glippy" + "loki") == "giantswarmglippyloki";
  }

  lemma Digits()
    ensures Filter("giantswarm-1111-loki") == "giantswarm1111loki"
  {
    hide Filter;
    KeepsAll("giantswarm");
    KeepsAll("1111");
    KeepsAll("loki");
    assert "giantswarm-1111-loki" == "giantswarm" + ("-" + "1111-loki");
    assert "1111-loki" == "1111" + ("-" + "loki");
    Dash("giantswarm", "1111-loki");
    Dash("1111", "loki");
    assert "giantswarm" + ("1111" + "loki") == "giantswarm1111loki";
  }

  lemma VeryLong()
    ensures |Filter("giantswarm-verylonginstallationname-loki")| > 24
    ensures Filter("giantswarm-verylonginstallationname-loki")[..24] == "giantswarmverylonginstal"
  {
    hide Filter;
    KeepsAll("giantswarm");
    KeepsAll("verylonginstal");
    VeryLongSplits();
    Dash("giantswarm", "verylonginstal" + "lationname-loki");
    FilterSplits("verylonginstal", "lationname-loki");
    LationName();
    var rest := Filter("lationname-loki");
    assert "giantswarm" + ("verylonginstal" + rest) == "giantswarm" + "verylonginstal" + rest;
    assert "giantswarm" + "verylonginstal" == "giantswarmverylonginstal";
  }

  lemma LationName()
    ensures |Filter("lationname-loki")| > 0
  {
  }

  lemma VeryLongSplits()
    ensures "giantswarm-verylonginstallationname-loki" == "giantswarm" + ("-" + ("verylonginstal" + "lationname-loki"))
  {
    assert "giantswarm-verylonginstallationname-loki" == "giantswarm-verylonginstal" + "lationname-loki";
    VeryLongHead();
  }

  lemma VeryLongHead()
    ensures "giantswarm-verylonginstal" == "giantswarm" + ("-" + "verylonginstal")
  {
  }
}
