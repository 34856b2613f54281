/**
 * String helpers the dictionary bridge relies on: `[&str]::join(",")`, the
 * matching split, and decimal rendering of whole numbers (`%llu`, and
 * `f64::to_string` for a whole-second timestamp), and the string-to-string
 * dictionaries built from parallel key and value lists.
 */
module Text {

  /** `slice.join(sep)` */
  function Join(xs: seq<string>, sep: char): (r: string)
    ensures |xs| == 0 ==> r == ""
    ensures |xs| == 1 ==> r == xs[0]
  {
    if |xs| == 0 then ""
    else if |xs| == 1 then xs[0]
    else xs[0] + [sep] + Join(xs[1..], sep)
  }

  /** `str::split(sep)`: the pieces between separators; the empty string splits into `[""]`. */
  function Split(s: string, sep: char): (r: seq<string>)
    ensures |r| >= 1
  {
    if |s| == 0 then [""]
    else if s[0] == sep then [""] + Split(s[1..], sep)
    else var rest := Split(s[1..], sep); [[s[0]] + rest[0]] + rest[1..]
  }

  lemma {:induction false} SplitPrefix(a: string, t: string, sep: char)
    requires sep !in a
    ensures Split(a + t, sep) == [a + Split(t, sep)[0]] + Split(t, sep)[1..]
  {
    if |a| > 0 {
      assert a[0] in a && a[0] != sep;
      assert forall c :: c in a[1..] ==> c in a;
      assert (a + t)[0] == a[0];
      assert (a + t)[1..] == a[1..] + t;
      SplitPrefix(a[1..], t, sep);
      var rest := Split(a[1..] + t, sep);
      assert Split(a + t, sep) == [[a[0]] + rest[0]] + rest[1..];
      assert rest[0] == a[1..] + Split(t, sep)[0] && rest[1..] == Split(t, sep)[1..];
      assert [a[0]] + (a[1..] + Split(t, sep)[0]) == a + Split(t, sep)[0];
    } else {
      assert a + t == t && a + Split(t, sep)[0] == Split(t, sep)[0];
      assert Split(t, sep) == [Split(t, sep)[0]] + Split(t, sep)[1..];
    }
  }

  /**
   * Splitting a joined list gives the list back when the list is not empty
   * and no item contains the separator.
   */
  lemma {:induction false} SplitJoin(xs: seq<string>, sep: char)
    requires |xs| > 0
    requires forall i :: 0 <= i < |xs| ==> sep !in xs[i]
    ensures Split(Join(xs, sep), sep) == xs
  {
    if |xs| == 1 {
      SplitPrefix(xs[0], "", sep);
      assert xs[0] + "" == xs[0];
    } else {
      var rest := Join(xs[1..], sep);
      SplitJoin(xs[1..], sep);
      var tail := [sep] + rest;
      assert tail[0] == sep && tail[1..] == rest;
      assert Split(tail, sep) == [""] + Split(rest, sep);
      SplitPrefix(xs[0], tail, sep);
      assert Join(xs, sep) == xs[0] + tail;
      assert xs[0] + "" == xs[0];
      assert [xs[0]] + xs[1..] == xs;
    }
  }

  /** The empty list and the list holding one empty name join to the same text. */
  lemma JoinLosesEmptyList(sep: char)
    ensures Join([], sep) == Join([""], sep) && Split(Join([], sep), sep) == [""]
  {
  }

  predicate IsDigit(c: char) {
    '0' <= c <= '9'
  }

  function Digit(d: nat): (c: char)
    requires d < 10
    ensures IsDigit(c) && c as int - '0' as int == d
  {
    ['0', '1', '2', '3', '4', '5', '6', '7', '8', '9'][d]
  }

  /** Decimal digits, most significant first, without leading zeros. */
  function NatToDecimal(n: nat): (s: string)
    ensures |s| >= 1 && forall i :: 0 <= i < |s| ==> IsDigit(s[i])
    ensures |s| > 1 ==> s[0] != '0'
  {
    if n < 10 then [Digit(n)] else NatToDecimal(n / 10) + [Digit(n % 10)]
  }

  function DigitValue(c: char): (d: nat)
    requires IsDigit(c)
    ensures d < 10
  {
    c as int - '0' as int
  }

  /** The value of a string of decimal digits. */
  function DecimalValue(s: string): nat
    requires forall i :: 0 <= i < |s| ==> IsDigit(s[i])
  {
    if |s| == 0 then 0
    else DecimalValue(s[..|s| - 1]) * 10 + DigitValue(s[|s| - 1])
  }

  lemma {:induction false} DecimalRoundTrip(n: nat)
    ensures DecimalValue(NatToDecimal(n)) == n
  {
    if n >= 10 {
      var s := NatToDecimal(n);
      assert s[..|s| - 1] == NatToDecimal(n / 10);
      DecimalRoundTrip(n / 10);
    }
  }

  /**
   * `to_string` of a whole number: a minus sign for negatives, then the
   * digits. `%llu` prints only non-negative values, whose rendering has no sign.
   */
  function IntToDecimal(i: int): (s: string)
    ensures |s| >= 1
    ensures i < 0 <==> s[0] == '-'
  {
    if i < 0 then "-" + NatToDecimal(-i) else NatToDecimal(i)
  }

  /** Distinct numbers render to distinct text. */
  lemma IntToDecimalInjective(i: int, j: int)
    requires IntToDecimal(i) == IntToDecimal(j)
    ensures i == j
  {
    if i < 0 {
      var m: nat, n: nat := -i, -j;
      assert ("-" + NatToDecimal(m))[1..] == NatToDecimal(m);
      assert ("-" + NatToDecimal(n))[1..] == NatToDecimal(n);
      NatToDecimalInjective(m, n);
    } else {
      NatToDecimalInjective(i, j);
    }
  }

  lemma NatToDecimalInjective(m: nat, n: nat)
    requires NatToDecimal(m) == NatToDecimal(n)
    ensures m == n
  {
    DecimalRoundTrip(m);
    DecimalRoundTrip(n);
  }

  // -------------------------------------------------------- string dictionaries

  predicate Distinct(keys: seq<string>) {
    forall i, j :: 0 <= i < j < |keys| ==> keys[i] != keys[j]
  }

  /** An `NSDictionary` built from parallel key and value lists: the i-th key maps to the i-th value. */
  function FromKeysAndObjects(keys: seq<string>, vals: seq<string>): (d: map<string, string>)
    requires |keys| == |vals|
    ensures d.Keys == set k | k in keys
    ensures Distinct(keys) ==> forall i :: 0 <= i < |keys| ==> d[keys[i]] == vals[i]
  {
    if |keys| == 0 then map[]
    else
      var n := |keys| - 1;
      var prefix := FromKeysAndObjects(keys[..n], vals[..n]);
      LastKeySplit(keys, vals);
      prefix[keys[n] := vals[n]]
  }

  /** The facts about the last key that `FromKeysAndObjects` adds on top of the prefix. */
  lemma LastKeySplit(keys: seq<string>, vals: seq<string>)
    requires |keys| == |vals| > 0
    ensures var n := |keys| - 1;
            (set k | k in keys) == (set k | k in keys[..n]) + {keys[n]}
            && (forall i :: 0 <= i < n ==> keys[..n][i] == keys[i] && vals[..n][i] == vals[i])
            && (Distinct(keys) ==> Distinct(keys[..n]) && forall i :: 0 <= i < n ==> keys[i] != keys[n])
  {
    var n := |keys| - 1;
    assert keys == keys[..n] + [keys[n]];
  }


  lemma {:induction false} DistinctKeysCount(keys: seq<string>)
    requires Distinct(keys)
    ensures |set k | k in keys| == |keys|
  {
    if |keys| > 0 {
      var n := |keys| - 1;
      assert Distinct(keys[..n]);
      DistinctKeysCount(keys[..n]);
      assert (set k | k in keys) == (set k | k in keys[..n]) + {keys[n]};
      assert keys[n] !in keys[..n];
    }
  }
}
