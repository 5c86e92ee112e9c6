/**
 * The change aggregator: per-file addition and deletion counts arrive as
 * strings, are parsed with a decimal parser that yields 0 on malformed
 * input, and are summed over all changed files.
 */
module Changes {

  /** One changed file of a pull request, with its counts as the platform sends them. */
  datatype PullRequestFile = PullRequestFile(additions: string, deletions: string)

  predicate IsDigit(ch: char)
  {
    '0' <= ch <= '9'
  }

  predicate AllDigits(s: string)
  {
    forall i :: 0 <= i < |s| ==> IsDigit(s[i])
  }

  /** A non-empty run of decimal digits. */
  predicate IsDigits(s: string)
  {
    |s| > 0 && AllDigits(s)
  }

  /** What the parser accepts: digits, optionally after one '+' or '-'. */
  predicate WellFormed(s: string)
  {
    IsDigits(s) || (|s| > 1 && (s[0] == '+' || s[0] == '-') && IsDigits(s[1..]))
  }

  /** The value of a run of decimal digits, most significant first. */
  function DigitsValue(s: string): nat
    requires AllDigits(s)
  {
    if s == [] then 0
    else 10 * DigitsValue(s[..|s| - 1]) + (s[|s| - 1] as int - '0' as int)
  }

  /**
   * Decimal parsing as the counts are parsed: an optional sign and at least
   * one digit; anything else is a syntax error, whose value 0 is what the
   * aggregator uses.
   */
  function ParseInt(s: string): (r: int)
    ensures !WellFormed(s) ==> r == 0
    ensures r < 0 ==> s[0] == '-'
  {
    if |s| > 0 && (s[0] == '+' || s[0] == '-') then
      if IsDigits(s[1..]) then
        if s[0] == '-' then 0 - DigitsValue(s[1..]) else DigitsValue(s[1..])
      else 0
    else if IsDigits(s) then DigitsValue(s)
    else 0
  }

  function DigitChar(d: nat): char
    requires d < 10
  {
    ('0' as int + d) as char
  }

  /** The decimal representation of a natural number, without leading zeros. */
  function Decimal(n: nat): (r: string)
    ensures IsDigits(r)
    ensures |r| > 1 ==> r[0] != '0'
  {
    if n < 10 then [DigitChar(n)] else Decimal(n / 10) + [DigitChar(n % 10)]
  }

  lemma {:induction false} DecimalValue(n: nat)
    ensures DigitsValue(Decimal(n)) == n
  {
    if n >= 10 {
      var r := Decimal(n);
      assert r[..|r| - 1] == Decimal(n / 10);
      DecimalValue(n / 10);
    }
  }

  /** Round trip: parsing the decimal text of a count, with or without a sign, gives the count back. */
  lemma ParseDecimal(n: nat)
    ensures ParseInt(Decimal(n)) == n
    ensures ParseInt("+" + Decimal(n)) == n
    ensures ParseInt("-" + Decimal(n)) == -(n as int)
  {
    DecimalValue(n);
    assert ("+" + Decimal(n))[1..] == Decimal(n);
    assert ("-" + Decimal(n))[1..] == Decimal(n);
  }

  /** The changed lines one file contributes. */
  function FileCount(f: PullRequestFile): int
  {
    ParseInt(f.additions) + ParseInt(f.deletions)
  }

  /** Reference: the sum of the changed lines of all files. */
  function SumChanges(files: seq<PullRequestFile>): int
  {
    if files == [] then 0
    else SumChanges(files[..|files| - 1]) + FileCount(files[|files| - 1])
  }

  /** The aggregation loop of the handler. */
  method ChangeCount(files: seq<PullRequestFile>) returns (changeCount: int)
    ensures changeCount == SumChanges(files)
  {
    changeCount := 0;
    for i := 0 to |files|
      invariant changeCount == SumChanges(files[..i])
    {
      var addCount := ParseInt(files[i].additions);
      var deleteCount := ParseInt(files[i].deletions);
      changeCount := changeCount + addCount + deleteCount;
      assert files[..i + 1][..i] == files[..i];
    }
    assert files[..|files|] == files;
  }

  lemma {:induction false} SumConcat(a: seq<PullRequestFile>, b: seq<PullRequestFile>)
    ensures SumChanges(a + b) == SumChanges(a) + SumChanges(b)
  {
    if b == [] {
      assert a + b == a;
    } else {
      assert (a + b)[..|a + b| - 1] == a + b[..|b| - 1];
      SumConcat(a, b[..|b| - 1]);
    }
  }

  lemma {:induction false} SumCons(f: PullRequestFile, rest: seq<PullRequestFile>)
    ensures SumChanges([f] + rest) == FileCount(f) + SumChanges(rest)
  {
    SumConcat([f], rest);
    assert [f][..0] == [];
  }

  /** Removing one file from the list takes away exactly its contribution. */
  lemma {:induction false} SumRemove(files: seq<PullRequestFile>, k: nat)
    requires k < |files|
    ensures SumChanges(files) == FileCount(files[k]) + SumChanges(files[..k] + files[k + 1..])
  {
    var p, q := files[..k], files[k + 1..];
    assert files == p + ([files[k]] + q);
    SumConcat(p, [files[k]] + q);
    SumCons(files[k], q);
    SumConcat(p, q);
  }

  /** The total does not depend on the order in which the files are listed. */
  lemma {:induction false} SumPermutation(a: seq<PullRequestFile>, b: seq<PullRequestFile>)
    requires multiset(a) == multiset(b)
    ensures SumChanges(a) == SumChanges(b)
  {
    if a != [] {
      var x := a[|a| - 1];
      var a' := a[..|a| - 1];
      assert a == a' + [x];
      assert x in multiset(b);
      var k :| 0 <= k < |b| && b[k] == x;
      var b' := b[..k] + b[k + 1..];
      assert b == b[..k] + [x] + b[k + 1..];
      assert multiset(b') == multiset(b) - multiset{x};
      assert multiset(a') == multiset(a) - multiset{x};
      SumPermutation(a', b');
      SumRemove(b, k);
    } else {
      assert b == [];
    }
  }

  /** Two well-formed files and one malformed count, which contributes 0. */
  lemma AggregationExample()
    ensures SumChanges([PullRequestFile("3", "2"), PullRequestFile("x", "5")]) == 10
  {
    var files := [PullRequestFile("3", "2"), PullRequestFile("x", "5")];
    assert files[..1][..0] == [];
    assert DigitsValue("3") == 3 by { assert "3"[..0] == []; }
    assert DigitsValue("2") == 2 by { assert "2"[..0] == []; }
    assert DigitsValue("5") == 5 by { assert "5"[..0] == []; }
  }
}
