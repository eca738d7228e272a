/** The string operations behind the annotation: byte order, Join, Split, and
    decimal printing of port numbers. */
module Text {
  import opened Sorting

  const COMMA: char := ','

  /** Kubernetes object names are DNS names: never empty, never holding a comma. */
  predicate ValidName(s: string) { s != "" && COMMA !in s }

  type Name = s: string | ValidName(s) witness "a"

  predicate Leq(a: string, b: string) {
    a == "" || (b != "" && (a[0] < b[0] || (a[0] == b[0] && Leq(a[1..], b[1..]))))
  }

  const BY_BYTES: (string, string) -> bool := (a, b) => Leq(a, b)

  lemma {:induction false} LeqTotal(a: string, b: string)
    ensures Leq(a, b) || Leq(b, a)
  {
    if a != "" && b != "" && a[0] == b[0] { LeqTotal(a[1..], b[1..]); }
  }

  lemma {:induction false} LeqAntisymmetric(a: string, b: string)
    requires Leq(a, b) && Leq(b, a)
    ensures a == b
  {
    if a != "" && b != "" {
      LeqAntisymmetric(a[1..], b[1..]);
      assert a == [a[0]] + a[1..] && b == [b[0]] + b[1..];
    }
  }

  lemma {:induction false} LeqTransitive(a: string, b: string, c: string)
    requires Leq(a, b) && Leq(b, c)
    ensures Leq(a, c)
  {
    if a != "" && a[0] == b[0] && b[0] == c[0] { LeqTransitive(a[1..], b[1..], c[1..]); }
  }

  lemma ByBytesIsTotal()
    ensures TotalOrder(BY_BYTES)
  {
    forall a, b ensures BY_BYTES(a, b) || BY_BYTES(b, a) { LeqTotal(a, b); }
    forall a, b | BY_BYTES(a, b) && BY_BYTES(b, a) ensures a == b { LeqAntisymmetric(a, b); }
    forall a, b, c | BY_BYTES(a, b) && BY_BYTES(b, c) ensures BY_BYTES(a, c) { LeqTransitive(a, b, c); }
  }

  function Join(parts: seq<string>, sep: char): string {
    if parts == [] then ""
    else if |parts| == 1 then parts[0]
    else parts[0] + [sep] + Join(parts[1..], sep)
  }

  /** The parts of a string that starts with `c`, given those of the rest. */
  function Grown(c: char, parts: seq<string>, sep: char): (r: seq<string>)
    requires parts != []
    ensures |r| == if c == sep then 1 + |parts| else |parts|
  {
    if c == sep then [""] + parts else [[c] + parts[0]] + parts[1..]
  }

  function Split(s: string, sep: char): (parts: seq<string>)
    ensures parts != []
    ensures sep in s <==> |parts| >= 2
  {
    if s == "" then [""] else Grown(s[0], Split(s[1..], sep), sep)
  }

  lemma GrownConcat(c: char, a: seq<string>, b: seq<string>, sep: char)
    requires a != []
    ensures Grown(c, a + b, sep) == Grown(c, a, sep) + b
  {
    assert (a + b)[0] == a[0] && (a + b)[1..] == a[1..] + b;
  }

  lemma {:induction false} SplitAtSeparator(p: string, s: string, sep: char)
    ensures Split(p + [sep] + s, sep) == Split(p, sep) + Split(s, sep)
  {
    if p == "" {
      assert p + [sep] + s == [sep] + s;
      assert Grown(sep, Split(s, sep), sep) == [""] + Split(s, sep);
    } else {
      SplitAtSeparator(p[1..], s, sep);
      assert (p + [sep] + s)[1..] == p[1..] + [sep] + s;
      GrownConcat(p[0], Split(p[1..], sep), Split(s, sep), sep);
    }
  }

  lemma {:induction false} SplitWhole(p: string, sep: char)
    requires sep !in p
    ensures Split(p, sep) == [p]
  {
    if p != "" {
      SplitWhole(p[1..], sep);
      assert p == [p[0]] + p[1..];
    }
  }

  /** Split undoes Join on every non-empty list of separator-free strings. */
  lemma {:induction false} SplitJoin(parts: seq<string>, sep: char)
    requires parts != [] && forall p | p in parts :: sep !in p
    ensures Split(Join(parts, sep), sep) == parts
  {
    SplitWhole(parts[0], sep);
    if |parts| > 1 {
      SplitJoin(parts[1..], sep);
      SplitAtSeparator(parts[0], Join(parts[1..], sep), sep);
    }
  }

  /** Join undoes Split on every string: nothing is lost when the annotation is read. */
  lemma {:induction false} JoinSplit(s: string, sep: char)
    ensures Join(Split(s, sep), sep) == s
  {
    if s != "" {
      JoinSplit(s[1..], sep);
      assert s == [s[0]] + s[1..];
      var rest := Split(s[1..], sep);
      if s[0] == sep {
        assert ([""] + rest)[1..] == rest;
        assert "" + [sep] + Join(rest, sep) == [sep] + Join(rest, sep);
      } else {
        var parts := [[s[0]] + rest[0]] + rest[1..];
        assert parts[1..] == rest[1..];
      }
    }
  }

  /** What the proxy controller writes into the annotation for a list of names. */
  function Digest(names: seq<Name>): string { Join(SortNames(names), COMMA) }

  function SortNames(names: seq<Name>): (r: seq<string>)
    ensures multiset(r) == multiset(AsStrings(names))
  {
    Sort(BY_BYTES, AsStrings(names))
  }

  function AsStrings(names: seq<Name>): (r: seq<string>)
    ensures |r| == |names| && forall i | 0 <= i < |names| :: r[i] == names[i]
  {
    seq(|names|, i requires 0 <= i < |names| => names[i])
  }

  /** The names an annotation stands for; the empty annotation names nothing. */
  function Named(annotation: string): seq<string> {
    if annotation == "" then [] else Split(annotation, COMMA)
  }

  lemma {:induction false} JoinIsEmpty(parts: seq<string>)
    requires forall p | p in parts :: ValidName(p)
    ensures Join(parts, COMMA) == "" <==> parts == []
  {
    if parts != [] { assert parts[0] in parts; }
  }

  lemma SortedNamesAreValid(names: seq<Name>)
    ensures forall p | p in SortNames(names) :: ValidName(p)
  {
    forall p | p in SortNames(names) ensures ValidName(p) {
      assert p in multiset(SortNames(names));
      assert p in multiset(AsStrings(names));
      var i :| 0 <= i < |names| && AsStrings(names)[i] == p;
    }
  }

  /** Reading an annotation back gives the sorted names that were written. */
  lemma NamedDigest(names: seq<Name>)
    ensures Named(Digest(names)) == SortNames(names)
    ensures multiset(Named(Digest(names))) == multiset(AsStrings(names))
    ensures SortedBy(BY_BYTES, Named(Digest(names)))
  {
    var sorted := SortNames(names);
    SortedNamesAreValid(names);
    JoinIsEmpty(sorted);
    if sorted != [] { SplitJoin(sorted, COMMA); }
    ByBytesIsTotal();
    SortSorts(BY_BYTES, AsStrings(names));
  }

  /** The annotation is a faithful code for a multiset of names: the order the
      API server listed them in does not matter, and nothing else is lost. */
  lemma DigestInjective(a: seq<Name>, b: seq<Name>)
    ensures Digest(a) == Digest(b) <==> multiset(a) == multiset(b)
  {
    ByBytesIsTotal();
    NamedDigest(a);
    NamedDigest(b);
    SortCanonical(BY_BYTES, AsStrings(a), AsStrings(b));
    AsStringsMultiset(a);
    AsStringsMultiset(b);
    assert multiset(a) == multiset(b) <==> multiset(AsStrings(a)) == multiset(AsStrings(b));
  }

  lemma AsStringsMultiset(a: seq<Name>)
    ensures multiset(AsStrings(a)) == multiset(a)
  {
    assert AsStrings(a) == a;
  }

  const DIGITS: seq<char> := ['0', '1', '2', '3', '4', '5', '6', '7', '8', '9']

  function Decimal(n: nat): string {
    if n < 10 then [DIGITS[n]] else Decimal(n / 10) + [DIGITS[n % 10]]
  }

  predicate IsDigit(c: char) { '0' as int <= c as int <= '9' as int }

  /** The number that a string of digits denotes. */
  function ValueOf(s: string): nat
    requires forall c | c in s :: IsDigit(c)
  {
    if s == "" then 0
    else
      assert IsDigit(s[|s| - 1]);
      10 * ValueOf(s[..|s| - 1]) + ((s[|s| - 1] as int) - ('0' as int))
  }

  /** The printed number is made of digits and denotes the number. */
  lemma {:induction false} DecimalDenotes(n: nat)
    ensures Decimal(n) != "" && forall c | c in Decimal(n) :: IsDigit(c)
    ensures ValueOf(Decimal(n)) == n
  {
    assert forall d | 0 <= d < 10 :: DIGITS[d] as int == '0' as int + d;
    if n < 10 {
      assert Decimal(n)[..0] == "";
    } else {
      DecimalDenotes(n / 10);
      assert Decimal(n)[..|Decimal(n)| - 1] == Decimal(n / 10);
    }
  }

  /** Decimal printing tells numbers apart. */
  lemma {:induction false} DecimalInjective(m: nat, n: nat)
    requires Decimal(m) == Decimal(n)
    ensures m == n
  {
    DecimalDenotes(m);
    DecimalDenotes(n);
  }
}
