/** The JavaScript string primitives the handlers and views rely on:
    `trim`, `toLowerCase`, `includes`, `indexOf`, `split`, `replace` of a
    single character and `parseInt`. Strings are sequences of code points;
    functions that scan are written over an index so that they can be
    evaluated on literal strings. */
module Text {
  import opened Common

  /** JavaScript's white space and line terminators: the set matched by
      `\s` in a regular expression and removed by `trim`. */
  predicate IsSpace(c: char) {
    var n := c as int;
    n == 0x09 || n == 0x0A || n == 0x0B || n == 0x0C || n == 0x0D || n == 0x20
    || n == 0xA0 || n == 0x1680 || (0x2000 <= n <= 0x200A)
    || n == 0x2028 || n == 0x2029 || n == 0x202F || n == 0x205F
    || n == 0x3000 || n == 0xFEFF
  }

  predicate AllSpace(s: string) {
    forall i :: 0 <= i < |s| ==> IsSpace(s[i])
  }

  /** First index at or after `i` that is not white space, or `|s|`. */
  function SkipSpace(s: string, i: nat): (r: nat)
    requires i <= |s|
    ensures i <= r <= |s|
    ensures forall k :: i <= k < r ==> IsSpace(s[k])
    ensures r < |s| ==> !IsSpace(s[r])
    decreases |s| - i
  {
    if i == |s| || !IsSpace(s[i]) then i else SkipSpace(s, i + 1)
  }

  /** One past the last index below `j` that is not white space, or `lo`
      when `s[lo..j]` is all white space. */
  function SkipSpaceBack(s: string, lo: nat, j: nat): (r: nat)
    requires lo <= j <= |s|
    ensures lo <= r <= j
    ensures forall k :: r <= k < j ==> IsSpace(s[k])
    ensures r > lo ==> !IsSpace(s[r - 1])
    decreases j
  {
    if j == lo || !IsSpace(s[j - 1]) then j else SkipSpaceBack(s, lo, j - 1)
  }

  /** `s.trim()` */
  function Trim(s: string): (r: string) {
    var lo := SkipSpace(s, 0);
    s[lo..SkipSpaceBack(s, lo, |s|)]
  }

  /** `trim` removes a white-space prefix and a white-space suffix and keeps
      the middle, which neither starts nor ends with white space. */
  lemma TrimSpec(s: string)
    ensures exists a, b :: AllSpace(a) && AllSpace(b) && s == a + Trim(s) + b
    ensures |Trim(s)| > 0 ==> !IsSpace(Trim(s)[0]) && !IsSpace(Trim(s)[|Trim(s)| - 1])
  {
    var lo := SkipSpace(s, 0);
    var hi := SkipSpaceBack(s, lo, |s|);
    var a, t, b := s[..lo], s[lo..hi], s[hi..];
    assert t == Trim(s);
    assert s == a + t + b;
    assert AllSpace(a) && AllSpace(b);
  }

  /** A string with no white space is its own trim. */
  lemma TrimNoSpace(s: string)
    requires forall i :: 0 <= i < |s| ==> !IsSpace(s[i])
    ensures Trim(s) == s
  {
  }

  /** Trimming white-space padding around a text that starts and ends with
      a non-space character gives back that text. */
  lemma TrimPadded(a: string, x: string, b: string)
    requires AllSpace(a) && AllSpace(b)
    requires |x| > 0 && !IsSpace(x[0]) && !IsSpace(x[|x| - 1])
    ensures Trim(a + x + b) == x
  {
    var s := a + x + b;
    var lo := SkipSpace(s, 0);
    assert s[|a|] == x[0];
    assert forall k :: 0 <= k < |a| ==> s[k] == a[k];
    assert lo == |a|;
    var hi := SkipSpaceBack(s, lo, |s|);
    assert s[|a| + |x| - 1] == x[|x| - 1];
    assert forall k :: |a| + |x| <= k < |s| ==> s[k] == b[k - |a| - |x|];
    assert hi == |a| + |x|;
    assert s[lo..hi] == x;
  }

  /** `!s.trim()`: the string is empty after trimming exactly when every
      character is white space. */
  predicate IsBlank(s: string) {
    Trim(s) == ""
  }

  lemma BlankIffAllSpace(s: string)
    ensures IsBlank(s) <==> AllSpace(s)
  {
    var lo := SkipSpace(s, 0);
    if AllSpace(s) {
      assert lo == |s|;
    }
  }

  /** `toLowerCase` on one code point: ASCII and Latin-1 capitals. */
  function LowerChar(c: char): char {
    var n := c as int;
    if ('A' as int <= n <= 'Z' as int) || (0xC0 <= n <= 0xDE && n != 0xD7) then (n + 32) as char else c
  }

  predicate IsUpper(c: char) {
    var n := c as int;
    ('A' as int <= n <= 'Z' as int) || (0xC0 <= n <= 0xDE && n != 0xD7)
  }

  /** `s.toLowerCase()` */
  function ToLower(s: string): (r: string)
    ensures |r| == |s|
    ensures forall i :: 0 <= i < |s| ==> r[i] == LowerChar(s[i])
  {
    seq(|s|, i requires 0 <= i < |s| => LowerChar(s[i]))
  }

  /** Lower-casing leaves no capital behind and is idempotent. */
  lemma ToLowerIdempotent(s: string)
    ensures forall i :: 0 <= i < |s| ==> !IsUpper(ToLower(s)[i])
    ensures ToLower(ToLower(s)) == ToLower(s)
  {
  }

  /** Lower-casing never turns a non-space into white space or back. */
  lemma LowerCharSpace(c: char)
    ensures IsSpace(LowerChar(c)) <==> IsSpace(c)
    ensures LowerChar(c) == '@' <==> c == '@'
    ensures LowerChar(c) == '.' <==> c == '.'
  {
  }

  ghost predicate OccursAt(s: string, q: string, i: int) {
    0 <= i && i + |q| <= |s| && s[i..i + |q|] == q
  }

  function IncludesFrom(s: string, q: string, i: nat): bool
    requires i <= |s|
    decreases |s| - i
  {
    if i + |q| > |s| then false
    else if s[i..i + |q|] == q then true
    else IncludesFrom(s, q, i + 1)
  }

  /** `s.includes(q)` */
  function Includes(s: string, q: string): bool {
    IncludesFrom(s, q, 0)
  }

  lemma {:induction false} IncludesFromSpec(s: string, q: string, i: nat)
    requires i <= |s|
    ensures IncludesFrom(s, q, i) <==> exists k :: i <= k && OccursAt(s, q, k)
    decreases |s| - i
  {
    if i + |q| > |s| {
    } else if s[i..i + |q|] == q {
      assert OccursAt(s, q, i);
    } else {
      IncludesFromSpec(s, q, i + 1);
      if exists k :: i <= k && OccursAt(s, q, k) {
        var k :| i <= k && OccursAt(s, q, k);
        assert k != i;
      }
    }
  }

  /** `includes` is the substring test. */
  lemma IncludesSpec(s: string, q: string)
    ensures Includes(s, q) <==> exists k :: OccursAt(s, q, k)
  {
    IncludesFromSpec(s, q, 0);
  }

  /** The empty string is included in every string. */
  lemma IncludesEmpty(s: string)
    ensures Includes(s, "")
  {
    assert s[0..0] == "";
  }

  /** First index at or after `i` holding `c`, or -1. */
  function IndexFrom(s: string, c: char, i: nat): (r: int)
    requires i <= |s|
    ensures r == -1 || i <= r < |s|
    ensures r == -1 ==> forall k :: i <= k < |s| ==> s[k] != c
    ensures r != -1 ==> s[r] == c && forall k :: i <= k < r ==> s[k] != c
    decreases |s| - i
  {
    if i == |s| then -1 else if s[i] == c then i else IndexFrom(s, c, i + 1)
  }

  /** When `s[k]` is the first `c` at or after `i`, the scan stops there. */
  lemma IndexFromFirst(s: string, c: char, i: nat, k: nat)
    requires i <= k < |s| && s[k] == c
    requires forall j :: i <= j < k ==> s[j] != c
    ensures IndexFrom(s, c, i) == k
  {
  }

  /** Splitting at a known first separator: the first piece is everything
      before it, the rest is the split of what follows. */
  lemma SplitAtFirst(s: string, c: char, k: nat)
    requires k < |s| && s[k] == c
    requires forall j :: 0 <= j < k ==> s[j] != c
    ensures Split(s, c) == [s[..k]] + SplitFrom(s, c, k + 1)
  {
    IndexFromFirst(s, c, 0, k);
  }

  /** With no separator left, the remaining text is one piece. */
  lemma SplitFromLast(s: string, c: char, i: nat)
    requires i <= |s|
    requires forall j :: i <= j < |s| ==> s[j] != c
    ensures SplitFrom(s, c, i) == [s[i..]]
  {
  }

  /** Splitting a text with exactly one separator gives the two sides. */
  lemma SplitTwo(x: string, c: char, y: string)
    requires c !in x && c !in y
    ensures Split(x + [c] + y, c) == [x, y]
  {
    var s := x + [c] + y;
    assert s[|x|] == c;
    assert forall j :: 0 <= j < |x| ==> s[j] == x[j];
    SplitAtFirst(s, c, |x|);
    assert s[|x| + 1..] == y;
    SplitFromLast(s, c, |x| + 1);
    assert s[..|x|] == x;
  }

  /** `s.replace(c, '')` for a one-character pattern: drops the first
      occurrence of `c` only. */
  function RemoveFirst(s: string, c: char): (r: string)
    ensures c in s ==> |r| == |s| - 1
    ensures c !in s ==> r == s
  {
    var k := IndexFrom(s, c, 0);
    if k < 0 then s else s[..k] + s[k + 1..]
  }

  /** The pieces of `s[i..]` separated by `c`. */
  function SplitFrom(s: string, c: char, i: nat): (parts: seq<string>)
    requires i <= |s|
    ensures |parts| >= 1
    decreases |s| - i
  {
    var k := IndexFrom(s, c, i);
    if k < 0 then [s[i..]] else [s[i..k]] + SplitFrom(s, c, k + 1)
  }

  /** `s.split(c)` for a one-character separator. */
  function Split(s: string, c: char): (parts: seq<string>)
    ensures |parts| >= 1
  {
    SplitFrom(s, c, 0)
  }

  /** `parts.join(c)` */
  function Join(parts: seq<string>, c: char): string
    requires |parts| >= 1
  {
    if |parts| == 1 then parts[0] else parts[0] + [c] + Join(parts[1..], c)
  }

  lemma {:induction false} SplitFromJoin(s: string, c: char, i: nat)
    requires i <= |s|
    ensures Join(SplitFrom(s, c, i), c) == s[i..]
    decreases |s| - i
  {
    var k := IndexFrom(s, c, i);
    if k >= 0 {
      var rest := SplitFrom(s, c, k + 1);
      SplitFromJoin(s, c, k + 1);
      var parts := [s[i..k]] + rest;
      assert SplitFrom(s, c, i) == parts;
      assert parts[1..] == rest;
      assert Join(parts, c) == s[i..k] + [c] + s[k + 1..];
      assert s[i..] == s[i..k] + [c] + s[k + 1..];
    }
  }

  lemma {:induction false} SplitFromNoSeparator(s: string, c: char, i: nat)
    requires i <= |s|
    ensures forall j :: 0 <= j < |SplitFrom(s, c, i)| ==> c !in SplitFrom(s, c, i)[j]
    decreases |s| - i
  {
    var k := IndexFrom(s, c, i);
    var parts := SplitFrom(s, c, i);
    if k >= 0 {
      var rest := SplitFrom(s, c, k + 1);
      SplitFromNoSeparator(s, c, k + 1);
      assert parts == [s[i..k]] + rest;
      forall j | 0 <= j < |parts| ensures c !in parts[j] {
        if j > 0 { assert parts[j] == rest[j - 1]; }
      }
    }
  }

  /** Re-joining the pieces of a split with the separator gives back the
      string, and no piece contains the separator. */
  lemma SplitJoin(s: string, c: char)
    ensures Join(Split(s, c), c) == s
    ensures forall j :: 0 <= j < |Split(s, c)| ==> c !in Split(s, c)[j]
  {
    SplitFromJoin(s, c, 0);
    SplitFromNoSeparator(s, c, 0);
  }

  predicate IsDigit(c: char) {
    '0' <= c <= '9'
  }

  function DigitValue(c: char): nat
    requires IsDigit(c)
  {
    c as int - '0' as int
  }

  /** Value of a run of decimal digits. */
  function DecimalValue(ds: string): nat
    requires forall i :: 0 <= i < |ds| ==> IsDigit(ds[i])
  {
    if |ds| == 0 then 0 else DecimalValue(ds[..|ds| - 1]) * 10 + DigitValue(ds[|ds| - 1])
  }

  /** End of the run of digits starting at `i`. */
  function DigitsEnd(s: string, i: nat): (r: nat)
    requires i <= |s|
    ensures i <= r <= |s|
    ensures forall k :: i <= k < r ==> IsDigit(s[k])
    ensures r < |s| ==> !IsDigit(s[r])
    decreases |s| - i
  {
    if i == |s| || !IsDigit(s[i]) then i else DigitsEnd(s, i + 1)
  }

  /** Folds the digits of `s[i..DigitsEnd(s, i)]` into `acc`. */
  function Accumulate(s: string, i: nat, acc: nat): nat
    requires i <= |s|
    decreases |s| - i
  {
    if i == |s| || !IsDigit(s[i]) then acc else Accumulate(s, i + 1, acc * 10 + DigitValue(s[i]))
  }

  function Pow10(n: nat): nat {
    if n == 0 then 1 else 10 * Pow10(n - 1)
  }

  lemma {:induction false} DecimalValueSnoc(ds: string, d: char)
    requires forall i :: 0 <= i < |ds| ==> IsDigit(ds[i])
    requires IsDigit(d)
    ensures DecimalValue(ds + [d]) == DecimalValue(ds) * 10 + DigitValue(d)
  {
    assert (ds + [d])[..|ds|] == ds;
  }

  /** Reading the digits of `s[i..j]` into `acc` leaves the loop at `j`
      with the accumulator shifted by those digits. */
  lemma {:induction false} AccumulatePrefix(s: string, i: nat, acc: nat, j: nat)
    requires i <= |s| && i <= j <= DigitsEnd(s, i)
    ensures Accumulate(s, i, acc) == Accumulate(s, j, acc * Pow10(j - i) + DecimalValue(s[i..j]))
    decreases j - i
  {
    if j == i {
      assert s[i..j] == [];
    } else {
      AccumulatePrefix(s, i, acc, j - 1);
      var p := Pow10(j - 1 - i);
      var dv := DecimalValue(s[i..j - 1]);
      var d := s[j - 1];
      assert Accumulate(s, j - 1, acc * p + dv) == Accumulate(s, j, (acc * p + dv) * 10 + DigitValue(d));
      assert s[i..j] == s[i..j - 1] + [d];
      DecimalValueSnoc(s[i..j - 1], d);
      assert Pow10(j - i) == 10 * p;
      Regroup(acc, p, dv, DigitValue(d));
    }
  }

  lemma Regroup(x: nat, p: nat, y: nat, z: nat)
    ensures (x * p + y) * 10 + z == x * (10 * p) + (y * 10 + z)
  {
  }

  /** The accumulator loop computes the decimal value of the digit run. */
  lemma AccumulateValue(s: string, i: nat, acc: nat)
    requires i <= |s|
    ensures Accumulate(s, i, acc) == acc * Pow10(DigitsEnd(s, i) - i) + DecimalValue(s[i..DigitsEnd(s, i)])
  {
    AccumulatePrefix(s, i, acc, DigitsEnd(s, i));
  }

  /** `parseInt(s)` in base ten: leading white space is skipped, an
      optional sign is read, then the longest run of decimal digits; with
      no digit the result is NaN (`None`). */
  function ParseInt(s: string): (r: Option<int>)
    ensures r.None? <==> var i := SignEnd(s); i == |s| || !IsDigit(s[i])
  {
    var i := SignEnd(s);
    if i == |s| || !IsDigit(s[i]) then None
    else
      var v := Accumulate(s, i, 0) as int;
      if i > SkipSpace(s, 0) && s[SkipSpace(s, 0)] == '-' then Some(-v) else Some(v)
  }

  /** Index just past the leading white space and an optional sign. */
  function SignEnd(s: string): (r: nat)
    ensures r <= |s|
  {
    var j := SkipSpace(s, 0);
    if j < |s| && (s[j] == '+' || s[j] == '-') then j + 1 else j
  }

  /** On a non-empty run of digits, `parseInt` yields its decimal value. */
  lemma ParseIntDigits(ds: string)
    requires |ds| > 0 && forall i :: 0 <= i < |ds| ==> IsDigit(ds[i])
    ensures ParseInt(ds) == Some(DecimalValue(ds) as int)
  {
    assert !IsSpace(ds[0]);
    assert SignEnd(ds) == 0;
    AccumulateValue(ds, 0, 0);
    assert DigitsEnd(ds, 0) == |ds|;
    assert ds[0..|ds|] == ds;
  }
}
