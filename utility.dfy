/**
 * `formatPrice` (src/utility.js) on the text of a price: the global
 * replace of `/(\d)(?=(\d{3})+(?!\d))/g` by `$1,`, which puts a comma after
 * every digit that is followed by one or more whole groups of three
 * digits and then by no further digit.
 */
module Utility {

  predicate IsDigit(c: char)
  {
    '0' <= c <= '9'
  }

  /**
   * The lookahead `(?=(\d{3})+(?!\d))` at position `j`: three digits, and
   * then either no further digit or another such group.
   */
  predicate Groups(s: string, j: nat)
    decreases |s| - j
  {
    j + 3 <= |s| && IsDigit(s[j]) && IsDigit(s[j + 1]) && IsDigit(s[j + 2]) &&
    (j + 3 == |s| || !IsDigit(s[j + 3]) || Groups(s, j + 3))
  }

  /** Whether the match `(\d)` with its lookahead succeeds at position `i`. */
  predicate CommaAfter(s: string, i: nat)
    requires i < |s|
  {
    IsDigit(s[i]) && Groups(s, i + 1)
  }

  /**
   * The replace: every match is the single digit it tests, so the scan
   * tries every position in turn, and each digit that matches is followed
   * by a comma.
   */
  function FormatFrom(s: string, i: nat): string
    requires i <= |s|
    decreases |s| - i
  {
    if i == |s| then ""
    else [s[i]] + (if CommaAfter(s, i) then "," else "") + FormatFrom(s, i + 1)
  }

  function FormatPrice(s: string): string
  {
    FormatFrom(s, 0)
  }

  /** The number of consecutive digits from position `j`. */
  function DigitRun(s: string, j: nat): (n: nat)
    ensures j + n <= |s| || (j >= |s| && n == 0)
    decreases |s| - j
  {
    if j < |s| && IsDigit(s[j]) then 1 + DigitRun(s, j + 1) else 0
  }

  /** The lookahead holds exactly when the run of digits from `j` is a positive multiple of three long. */
  lemma {:induction false} GroupsIff(s: string, j: nat)
    ensures Groups(s, j) <==> DigitRun(s, j) > 0 && DigitRun(s, j) % 3 == 0
    decreases |s| - j
  {
    if j + 3 <= |s| && IsDigit(s[j]) && IsDigit(s[j + 1]) && IsDigit(s[j + 2]) {
      assert DigitRun(s, j) == 3 + DigitRun(s, j + 3) by {
        assert DigitRun(s, j) == 1 + DigitRun(s, j + 1);
        assert DigitRun(s, j + 1) == 1 + DigitRun(s, j + 2);
      }
      if j + 3 < |s| && IsDigit(s[j + 3]) {
        GroupsIff(s, j + 3);
      }
    } else {
      RunBelowThree(s, j);
    }
  }

  /** Without three digits from `j` the run from `j` is shorter than three. */
  lemma RunBelowThree(s: string, j: nat)
    requires !(j + 3 <= |s| && IsDigit(s[j]) && IsDigit(s[j + 1]) && IsDigit(s[j + 2]))
    ensures DigitRun(s, j) < 3
  {
    if j < |s| && IsDigit(s[j]) {
      if j + 1 < |s| && IsDigit(s[j + 1]) {
        assert DigitRun(s, j + 1) == 1 + DigitRun(s, j + 2);
        assert j + 2 >= |s| || !IsDigit(s[j + 2]);
      }
    }
  }

  /**
   * A comma follows the digit at `i` exactly when the digits after it in
   * its run number a positive multiple of three.
   */
  lemma CommaIff(s: string, i: nat)
    requires i < |s|
    ensures CommaAfter(s, i) <==> IsDigit(s[i]) && DigitRun(s, i + 1) > 0 && DigitRun(s, i + 1) % 3 == 0
  {
    GroupsIff(s, i + 1);
  }

  /** A comma is put only between two digits. */
  lemma CommaBetweenDigits(s: string, i: nat)
    requires i < |s| && CommaAfter(s, i)
    ensures IsDigit(s[i]) && i + 1 < |s| && IsDigit(s[i + 1])
  {
  }

  /** `s` without its commas. */
  function Uncomma(s: string): (r: string)
    ensures ',' !in r
  {
    if s == [] then [] else (if s[0] == ',' then [] else [s[0]]) + Uncomma(s[1..])
  }

  lemma {:induction false} UncommaAppend(a: string, b: string)
    ensures Uncomma(a + b) == Uncomma(a) + Uncomma(b)
  {
    if a == [] {
      assert a + b == b;
    } else {
      assert (a + b)[1..] == a[1..] + b;
      UncommaAppend(a[1..], b);
    }
  }

  lemma {:induction false} UncommaNone(s: string)
    requires ',' !in s
    ensures Uncomma(s) == s
  {
    if s != [] {
      UncommaNone(s[1..]);
    }
  }

  /** Deleting the commas of the output deletes exactly the commas of the input. */
  lemma {:induction false} UncommaFormat(s: string, i: nat)
    requires i <= |s|
    ensures Uncomma(FormatFrom(s, i)) == Uncomma(s[i..])
    decreases |s| - i
  {
    if i < |s| {
      UncommaFormat(s, i + 1);
      var c := if CommaAfter(s, i) then "," else "";
      UncommaAppend([s[i]] + c, FormatFrom(s, i + 1));
      UncommaAppend([s[i]], c);
      assert s[i..] == [s[i]] + s[i + 1..];
      UncommaAppend([s[i]], s[i + 1..]);
    }
  }

  /** For text without commas, such as the digits of a number, deleting the inserted commas gives the input back. */
  lemma RoundTrip(s: string)
    requires ',' !in s
    ensures Uncomma(FormatPrice(s)) == s
  {
    UncommaFormat(s, 0);
    assert s[0..] == s;
    UncommaNone(s);
  }

  /** Text whose digit runs are at most three long is returned unchanged. */
  lemma {:induction false} ShortRunsUnchanged(s: string, i: nat)
    requires i <= |s|
    requires forall j :: 0 <= j < |s| ==> DigitRun(s, j) <= 3
    ensures FormatFrom(s, i) == s[i..]
    decreases |s| - i
  {
    if i < |s| {
      ShortRunsUnchanged(s, i + 1);
      CommaIff(s, i);
      assert !CommaAfter(s, i) by {
        if IsDigit(s[i]) {
          assert DigitRun(s, i) == 1 + DigitRun(s, i + 1);
        }
      }
      assert s[i..] == [s[i]] + s[i + 1..];
    }
  }

  /** 1234567 becomes 1,234,567. */
  lemma Example()
    ensures FormatPrice("1234567") == "1,234,567"
  {
    var s := "1234567";
    assert Groups(s, 4);
    assert !Groups(s, 5) && !Groups(s, 6) && !Groups(s, 7);
    assert Groups(s, 1);
    assert !Groups(s, 2) && !Groups(s, 3);
  }
}
