/** How a projection's revision is kept among its node's source references, which are sorted and free of
    repetitions, read back from the first reference that looks like one, and compared with the next.
 */
module ContextProjection {
  import opened Common
  import Ids

  const PREFIX := "projection-revision:"

  predicate CarriesRevision(ref: string) {
    |ref| > |PREFIX| && ref[..|PREFIX|] == PREFIX
  }

  function RevisionRef(revision: string): string {
    PREFIX + revision
  }

  function FirstRevision(refs: seq<string>): string {
    if refs == [] then ""
    else if CarriesRevision(refs[0]) then refs[0][|PREFIX|..]
    else FirstRevision(refs[1..])
  }

  /** The references of a projection: its own revision and what the caller cites, in order. */
  ghost predicate AreRefs(refs: seq<string>, revision: string, cited: set<string>) {
    && (forall r :: r in refs <==> r in cited || r == RevisionRef(revision))
    && forall i, j | 0 <= i < j < |refs| :: LexLess(refs[i], refs[j])
  }

  method ReadRevision(refs: seq<string>) returns (revision: string)
    ensures revision == FirstRevision(refs)
  {
    for i := 0 to |refs|
      invariant FirstRevision(refs) == FirstRevision(refs[i..])
    {
      if CarriesRevision(refs[i]) { return refs[i][|PREFIX|..]; }
      assert refs[i..][1..] == refs[i + 1..];
    }
    return "";
  }

  /** The reference the revision is read from: the first that carries one. */
  lemma {:induction false} ReadFrom(refs: seq<string>, k: nat) returns (i: nat)
    requires k < |refs| && CarriesRevision(refs[k])
    ensures i <= k && CarriesRevision(refs[i]) && FirstRevision(refs) == refs[i][|PREFIX|..]
    ensures forall j | 0 <= j < i :: !CarriesRevision(refs[j])
    decreases |refs|
  {
    if CarriesRevision(refs[0]) {
      i := 0;
    } else {
      var j := ReadFrom(refs[1..], k - 1);
      i := j + 1;
    }
  }

  /** What is read back is the projection's own revision exactly when no reference the caller cites looks like
      a revision and sorts before it. */
  lemma RevisionReadBackIff(refs: seq<string>, revision: string, cited: set<string>)
    requires AreRefs(refs, revision, cited) && revision != ""
    ensures FirstRevision(refs) == revision <==>
            forall r <- cited :: CarriesRevision(r) ==> !LexLess(r, RevisionRef(revision))
  {
    var own := RevisionRef(revision);
    assert own[|PREFIX|..] == revision && CarriesRevision(own);
    assert own in refs;
    var k: nat :| k < |refs| && refs[k] == own;
    var i := ReadFrom(refs, k);
    NotBelowItself(own);
    assert refs[i] in refs && refs[i] == PREFIX + refs[i][|PREFIX|..];
    if i == k {
      forall r | r in cited && CarriesRevision(r) ensures !LexLess(r, own) {
        assert r in refs;
        var j :| 0 <= j < |refs| && refs[j] == r;
        if j > i { Asymmetric(own, r); }
      }
    }
  }

  // ---------------------------------------------------------------------------------------
  // Comparing revisions
  // ---------------------------------------------------------------------------------------

  datatype Freshness = Newer | Same | StaleOrUnreadable

  datatype Reading = Number(value: int) | NoNumber

  predicate AllDigits(s: string) {
    forall i | 0 <= i < |s| :: '0' <= s[i] <= '9'
  }

  function DigitsValue(s: string): nat
    requires AllDigits(s)
  {
    if s == "" then 0
    else DigitsValue(s[..|s| - 1]) * 10 + (s[|s| - 1] - '0') as int
  }

  const INT64_LIMIT := 0x8000_0000_0000_0000

  /** A decimal number with an optional sign that fits 64 bits. */
  function ParseInt(s: string): Reading {
    var digits := if s != "" && (s[0] == '-' || s[0] == '+') then s[1..] else s;
    if digits == "" || !AllDigits(digits) then NoNumber
    else
      var n: int := DigitsValue(digits);
      var n := if s[0] == '-' then -n else n;
      if -INT64_LIMIT <= n < INT64_LIMIT then Number(n) else NoNumber
  }

  function Compare(next: string, current: string): Freshness {
    var a, b := ParseInt(next), ParseInt(current);
    if a.NoNumber? || b.NoNumber? || a.value < b.value then StaleOrUnreadable
    else if a.value == b.value then Same
    else Newer
  }

  lemma {:induction false} ValueOfDigits(n: nat)
    ensures AllDigits(Ids.Digits(n)) && DigitsValue(Ids.Digits(n)) == n
  {
    var s := Ids.Digits(n);
    if n < 10 {
      assert s == [('0' as int + n) as char] && s[..0] == "";
    } else {
      ValueOfDigits(n / 10);
      assert s[..|s| - 1] == Ids.Digits(n / 10);
      forall i | 0 <= i < |s| ensures '0' <= s[i] <= '9' {
        if i < |s| - 1 { assert s[i] == Ids.Digits(n / 10)[i]; }
      }
    }
  }

  /** A printed number is read back as that number as long as it fits 64 bits, and as none otherwise. */
  lemma PrintedIsReadBack(n: int)
    ensures ParseInt(Ids.Decimal(n)) ==
            if -9223372036854775808 <= n <= 9223372036854775807 then Number(n) else NoNumber
  {
    var s, m := Ids.Decimal(n), if n < 0 then -n else n;
    ValueOfDigits(m);
    Ids.DigitsPlain(m);
    if n < 0 {
      assert s[0] == '-' && s[1..] == Ids.Digits(m);
    } else {
      assert s[0] in Ids.Digits(m);
    }
  }

  /** So numbered projections compare as their numbers do. */
  lemma NumbersCompare(next: int, current: int)
    requires -INT64_LIMIT <= next < INT64_LIMIT && -INT64_LIMIT <= current < INT64_LIMIT
    ensures Compare(Ids.Decimal(next), Ids.Decimal(current)) ==
            if next > current then Newer else if next == current then Same else StaleOrUnreadable
  {
    PrintedIsReadBack(next);
    PrintedIsReadBack(current);
  }

  /** The reference a revision is read from: of those that carry one, the first in the order of texts. */
  predicate First(refs: set<string>, ref: string) {
    ref in refs && CarriesRevision(ref) && forall r <- refs :: CarriesRevision(r) ==> !LexLess(r, ref)
  }

  /** How the next revision compares with the one the stored references carry. */
  function FreshnessOf(next: string, refs: set<string>): Freshness {
    if exists r <- refs :: First(refs, r) && Compare(next, r[|PREFIX|..]) == Newer then Newer
    else if exists r <- refs :: First(refs, r) && Compare(next, r[|PREFIX|..]) == Same then Same
    else StaleOrUnreadable
  }

  /** The revision read from the references. */
  predicate Reads(refs: set<string>, revision: string) {
    First(refs, RevisionRef(revision))
  }

  /** Among references of which one carries a revision there is a first. */
  lemma {:induction false} SomeFirst(refs: set<string>, own: string) returns (first: string)
    requires own in refs && CarriesRevision(own)
    ensures First(refs, first)
    decreases refs
  {
    var rest := refs - {own};
    if r :| r in rest && CarriesRevision(r) {
      first := SomeFirst(rest, r);
      if LexLess(own, first) {
        forall x | x in refs && CarriesRevision(x) ensures !LexLess(x, own) {
          if x == own {
            NotBelowItself(own);
          } else if LexLess(x, own) {
            Transitive(x, own, first);
          }
        }
        first := own;
      }
    } else {
      NotBelowItself(own);
      first := own;
    }
  }

  /** What is read is no number, or a number not below the one given. */
  predicate ReadsNoLower(refs: set<string>, own: string) {
    forall r <- refs :: First(refs, r) ==> NotBelow(r[|PREFIX|..], own)
  }

  predicate NotBelow(read: string, own: string) {
    ParseInt(read).NoNumber? || (ParseInt(own).Number? && ParseInt(read).value >= ParseInt(own).value)
  }

  /** A next revision is compared with the one that is read. */
  lemma ComparedWithRead(next: string, refs: set<string>, revision: string)
    requires Reads(refs, revision)
    ensures FreshnessOf(next, refs) == Compare(next, revision)
  {
    var own := RevisionRef(revision);
    assert own[|PREFIX|..] == revision;
    forall r | First(refs, r) ensures r == own { Total(r, own); }
    assert First(refs, own) && Compare(next, own[|PREFIX|..]) == Compare(next, revision);
  }

  /** Scanning the references in order finds the same one. */
  lemma ScanReads(refs: seq<string>, revision: string)
    requires forall i, j | 0 <= i < j < |refs| :: LexLess(refs[i], refs[j])
    requires Reads((set r <- refs), revision)
    ensures FirstRevision(refs) == revision
  {
    var own := RevisionRef(revision);
    var k: nat :| k < |refs| && refs[k] == own;
    var i := ReadFrom(refs, k);
    assert own[|PREFIX|..] == revision;
    assert refs[i] in (set r <- refs);
  }

  /** Only a higher revision replaces a projection made from the given one exactly when what is read from its
      references is no number or not lower. */
  lemma OnlyNewerReplacesIff(refs: set<string>, own: string, read: string)
    requires ParseInt(own).Number? && Reads(refs, read)
    ensures (forall next :: FreshnessOf(next, refs) == Newer ==> Compare(next, own) == Newer)
            <==> ReadsNoLower(refs, own)
  {
    var ref := RevisionRef(read);
    assert ref[|PREFIX|..] == read;
    forall x | First(refs, x) ensures x == ref { Total(x, ref); }
    forall next ensures FreshnessOf(next, refs) == Compare(next, read) { ComparedWithRead(next, refs, read); }
    if ParseInt(read).Number? && ParseInt(read).value < ParseInt(own).value {
      assert FreshnessOf(own, refs) == Newer;
    }
  }

  /** A cited "projection-revision:10" hides revision 9: the next projection, at 10, is taken for a repeat. */
  lemma CitedRevisionHidesOwn()
    ensures AreRefs([RevisionRef("10"), RevisionRef("9")], "9", {RevisionRef("10")})
    ensures FirstRevision([RevisionRef("10"), RevisionRef("9")]) == "10"
  {
    var a, b := RevisionRef("10"), RevisionRef("9");
    CommonPrefix(PREFIX, "10", "9");
    assert LexLess("10", "9");
    assert a[|PREFIX|..] == "10" && CarriesRevision(a);
  }

  lemma {:induction false} CommonPrefix(p: string, a: string, b: string)
    ensures LexLess(p + a, p + b) <==> LexLess(a, b)
    decreases |p|
  {
    if p == "" {
      assert p + a == a && p + b == b;
    } else {
      assert (p + a)[1..] == p[1..] + a && (p + b)[1..] == p[1..] + b;
      CommonPrefix(p[1..], a, b);
    }
  }
}
