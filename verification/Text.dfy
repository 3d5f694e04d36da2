/** Results, options, and the byte-wise string order that Go's `<` and `sort.Strings` use. */
module Text {

  datatype Option<+T> = None | Some(value: T)

  datatype Result<+T, +E> = Ok(value: T) | Err(error: E)

  /** strings.ToUpper on ASCII. */
  function Upper(s: string): string {
    if s == "" then "" else [if 'a' <= s[0] <= 'z' then s[0] - 'a' + 'A' else s[0]] + Upper(s[1..])
  }

  /** Letter by letter: small letters become capitals and nothing else changes. */
  lemma {:induction false} UpperAt(s: string, i: nat)
    requires i < |s|
    ensures |Upper(s)| == |s|
    ensures Upper(s)[i] == if 'a' <= s[i] <= 'z' then s[i] - 'a' + 'A' else s[i]
  {
    if |s| > 1 { UpperAt(s[1..], if i > 0 then i - 1 else 0); }
  }

  function Digit(d: nat): char
    requires d < 10
  {
    "0123456789"[d]
  }

  function Decimal(n: nat): string {
    if n < 10 then [Digit(n)] else Decimal(n / 10) + [Digit(n % 10)]
  }

  /** The number a text of digits denotes. */
  function Number(s: string): nat {
    if s == "" then 0
    else Number(s[..|s| - 1]) * 10 + (var c := s[|s| - 1]; if '0' <= c <= '9' then (c - '0') as nat else 0)
  }

  lemma {:induction false} NumberOfDecimal(n: nat)
    ensures Number(Decimal(n)) == n
  {
    if n < 10 {
      assert Decimal(n)[..0] == "";
      assert Digit(n) == '0' + n as char;
    } else {
      NumberOfDecimal(n / 10);
      var s := Decimal(n);
      assert s[..|s| - 1] == Decimal(n / 10);
      assert Digit(n % 10) == '0' + (n % 10) as char;
    }
  }

  lemma DigitInjective(a: nat, b: nat)
    requires a < 10 && b < 10 && Digit(a) == Digit(b)
    ensures a == b
  {
  }

  lemma {:induction false} DecimalInjective(a: nat, b: nat)
    requires Decimal(a) == Decimal(b)
    ensures a == b
    decreases a
  {
    var s, t := Decimal(a), Decimal(b);
    assert s[|s| - 1] == Digit(a % 10) && t[|t| - 1] == Digit(b % 10);
    DigitInjective(a % 10, b % 10);
    if a >= 10 && b >= 10 {
      assert Decimal(a / 10) == s[..|s| - 1] && Decimal(b / 10) == t[..|t| - 1];
      DecimalInjective(a / 10, b / 10);
    }
  }

  /** Lexicographic order: a proper prefix comes first, else the first difference decides. */
  predicate Less(a: string, b: string) {
    b != [] && (a == [] || a[0] < b[0] || (a[0] == b[0] && Less(a[1..], b[1..])))
  }

  lemma {:induction false} LessTotal(a: string, b: string)
    ensures Less(a, b) || a == b || Less(b, a)
  {
    if a != [] && b != [] && a[0] == b[0] {
      LessTotal(a[1..], b[1..]);
      assert a == [a[0]] + a[1..] && b == [b[0]] + b[1..];
    }
  }

  lemma {:induction false} LessTransitive(a: string, b: string, c: string)
    requires Less(a, b) && Less(b, c)
    ensures Less(a, c)
  {
    if a != [] && a[0] == b[0] == c[0] {
      LessTransitive(a[1..], b[1..], c[1..]);
    }
  }

  lemma {:induction false} LessIrreflexive(a: string)
    ensures !Less(a, a)
  {
    if a != [] {
      LessIrreflexive(a[1..]);
    }
  }

  /** Strictly increasing, hence free of duplicates. */
  ghost predicate Sorted(ids: seq<string>) {
    forall i, j :: 0 <= i < j < |ids| ==> Less(ids[i], ids[j])
  }

  /** `ids` lists exactly the members of `keys`, in order. */
  ghost predicate Lists(ids: seq<string>, keys: set<string>) {
    Sorted(ids) && forall k :: k in ids <==> k in keys
  }

  lemma EmptyListing(a: seq<string>, keys: set<string>)
    requires Lists(a, keys)
    ensures a == [] <==> keys == {}
  {
    if a != [] {
      assert a[0] in a;
    }
  }

  /** There is only one sorted listing of a set. */
  lemma {:induction false} ListingUnique(a: seq<string>, b: seq<string>, keys: set<string>)
    requires Lists(a, keys) && Lists(b, keys)
    ensures a == b
    decreases |a|
  {
    if a == [] {
      EmptyListing(a, keys);
      EmptyListing(b, keys);
    } else {
      assert a[0] in keys && a[0] in b && b != [];
      assert b[0] in a;
      HeadIsLeast(a, b[0]);
      HeadIsLeast(b, a[0]);
      if a[0] != b[0] {
        LessTransitive(a[0], b[0], a[0]);
        LessIrreflexive(a[0]);
      }
      TailLists(a, keys);
      TailLists(b, keys);
      ListingUnique(a[1..], b[1..], keys - {a[0]});
      assert a == [a[0]] + a[1..] && b == [b[0]] + b[1..];
    }
  }

  lemma HeadIsLeast(a: seq<string>, k: string)
    requires Sorted(a) && k in a
    ensures a[0] == k || Less(a[0], k)
  {
    var i :| 0 <= i < |a| && a[i] == k;
  }

  lemma TailLists(a: seq<string>, keys: set<string>)
    requires Lists(a, keys) && a != []
    ensures Lists(a[1..], keys - {a[0]})
  {
    forall k ensures k in a[1..] <==> k in keys - {a[0]} {
      if k in a[1..] {
        var i :| 0 <= i < |a[1..]| && a[1..][i] == k;
        assert a[i + 1] == k && k in a;
        if k == a[0] { LessIrreflexive(k); }
      }
      if k in keys && k != a[0] {
        var i :| 0 <= i < |a| && a[i] == k;
        assert a[1..][i - 1] == k;
      }
    }
  }

  ghost predicate IsLeast(m: string, keys: set<string>) {
    m in keys && forall k :: k in keys ==> k == m || Less(m, k)
  }

  lemma {:induction false} LeastExists(keys: set<string>)
    requires keys != {}
    ensures exists m :: IsLeast(m, keys)
    decreases |keys|
  {
    var k :| k in keys;
    var rest := keys - {k};
    if rest == {} {
      assert keys == {k};
      assert IsLeast(k, keys);
    } else {
      LeastExists(rest);
      var m :| IsLeast(m, rest);
      LessTotal(k, m);
      if Less(k, m) {
        forall j | j in rest && j != m ensures Less(k, j) { LessTransitive(k, m, j); }
        assert IsLeast(k, keys);
      } else {
        assert IsLeast(m, keys);
      }
    }
  }

  lemma {:induction false} ListingExists(keys: set<string>)
    ensures exists ids :: Lists(ids, keys)
    decreases |keys|
  {
    if keys == {} {
      assert Lists([], keys);
    } else {
      LeastExists(keys);
      var m :| IsLeast(m, keys);
      ListingExists(keys - {m});
      var ids :| Lists(ids, keys - {m});
      forall k ensures k in [m] + ids <==> k in keys {}
      forall j | 0 <= j < |ids| ensures Less(m, ids[j]) { assert ids[j] in keys - {m}; }
      assert Lists([m] + ids, keys);
    }
  }

  /** The sorted listing of a finite set of keys. */
  ghost function Listing(keys: set<string>): (ids: seq<string>)
    ensures Lists(ids, keys)
  {
    ListingExists(keys);
    var ids :| Lists(ids, keys);
    ids
  }

  /** The least member of a nonempty set. */
  method Least(keys: set<string>) returns (m: string)
    requires keys != {}
    ensures IsLeast(m, keys)
  {
    m :| m in keys;
    var rest := keys - {m};
    while rest != {}
      invariant m in keys && rest <= keys
      invariant forall k :: k in keys - rest ==> k == m || Less(m, k)
      decreases |rest|
    {
      var k :| k in rest;
      LessTotal(k, m);
      if Less(k, m) {
        forall j | j in keys - rest && j != m ensures Less(k, j) { LessTransitive(k, m, j); }
        m := k;
      }
      rest := rest - {k};
    }
  }

  /** `sort.Strings` over the keys of a map. */
  method SortedIDs(keys: set<string>) returns (ids: seq<string>)
    ensures ids == Listing(keys)
  {
    ids := [];
    var rest := keys;
    while rest != {}
      invariant rest <= keys && Sorted(ids)
      invariant forall k :: k in ids <==> k in keys - rest
      invariant forall i, k :: 0 <= i < |ids| && k in rest ==> Less(ids[i], k)
      decreases |rest|
    {
      var m := Least(rest);
      ids := ids + [m];
      rest := rest - {m};
    }
    ListingUnique(ids, Listing(keys), keys);
  }
}
