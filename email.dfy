/** The email format the normalising register handler accepts
    (api/auth/register.ts): the expression `^[^\s@]+@[^\s@]+\.[^\s@]+$`,
    given once as the decomposition it describes and once as the direct
    check the handler runs, with the two proved equal. `\s` is the same
    white-space set `trim` removes. */
module EmailFormat {
  import opened Text

  /** One character of the class `[^\s@]`. */
  predicate Plain(c: char) {
    !IsSpace(c) && c != '@'
  }

  predicate AllPlain(s: string) {
    forall i :: 0 <= i < |s| ==> Plain(s[i])
  }

  /** A `.` with at least one character before it and one after it. */
  predicate HasInnerDot(d: string) {
    exists j :: 0 < j < |d| - 1 && d[j] == '.'
  }

  /** The check: a non-empty plain local part up to the first `@`, and a
      plain domain with an inner dot after it. */
  predicate IsEmail(s: string) {
    var k := IndexFrom(s, '@', 0);
    0 < k && AllPlain(s[..k]) && AllPlain(s[k + 1..]) && HasInnerDot(s[k + 1..])
  }

  /** What the expression says: `a@b.c` with `a`, `b`, `c` non-empty runs
      of `[^\s@]`. */
  ghost predicate MatchesPattern(s: string) {
    exists a: string, b: string, c: string ::
      |a| > 0 && |b| > 0 && |c| > 0 && AllPlain(a) && AllPlain(b) && AllPlain(c)
      && s == a + "@" + b + "." + c
  }

  /** The check accepts exactly the strings the expression matches. */
  lemma IsEmailMatchesPattern(s: string)
    ensures IsEmail(s) <==> MatchesPattern(s)
  {
    if IsEmail(s) {
      CheckedEmailMatches(s);
    }
    if MatchesPattern(s) {
      var a: string, b: string, c: string :|
        |a| > 0 && |b| > 0 && |c| > 0 && AllPlain(a) && AllPlain(b) && AllPlain(c)
        && s == a + "@" + b + "." + c;
      MatchingEmailChecks(a, b, c);
    }
  }

  lemma CheckedEmailMatches(s: string)
    requires IsEmail(s)
    ensures MatchesPattern(s)
  {
    var k := IndexFrom(s, '@', 0);
    var d := s[k + 1..];
    var j :| 0 < j < |d| - 1 && d[j] == '.';
    var a, b, c := s[..k], d[..j], d[j + 1..];
    assert d == b + "." + c;
    assert s == a + "@" + b + "." + c;
    assert AllPlain(b) && AllPlain(c) by {
      forall i | 0 <= i < |b| ensures Plain(b[i]) { assert b[i] == d[i]; }
      forall i | 0 <= i < |c| ensures Plain(c[i]) { assert c[i] == d[j + 1 + i]; }
    }
  }

  lemma MatchingEmailChecks(a: string, b: string, c: string)
    requires |a| > 0 && |b| > 0 && |c| > 0 && AllPlain(a) && AllPlain(b) && AllPlain(c)
    ensures IsEmail(a + "@" + b + "." + c)
  {
    var s := a + "@" + b + "." + c;
    var k := |a|;
    assert s[k] == '@';
    forall i | 0 <= i < k ensures s[i] != '@' { assert s[i] == a[i]; }
    IndexFromFirst(s, '@', 0, k);
    assert s[..k] == a;
    var d := s[k + 1..];
    assert d == b + "." + c;
    assert AllPlain(d) by {
      forall i | 0 <= i < |d| ensures Plain(d[i]) {
        if i < |b| { assert d[i] == b[i]; }
        else if i > |b| { assert d[i] == c[i - |b| - 1]; }
      }
    }
    assert d[|b|] == '.';
  }

  /** An accepted email has no white space, exactly one `@`, something
      before it, and a dot with something on each side after it. */
  lemma IsEmailShape(s: string)
    requires IsEmail(s)
    ensures forall i :: 0 <= i < |s| ==> !IsSpace(s[i])
    ensures exists k :: (0 < k < |s| && s[k] == '@' && (forall i :: 0 <= i < |s| && s[i] == '@' ==> i == k)
                         && exists j :: k + 1 < j < |s| - 1 && s[j] == '.')
  {
    var k := IndexFrom(s, '@', 0);
    var d := s[k + 1..];
    forall i | 0 <= i < |s| ensures !IsSpace(s[i]) && (s[i] == '@' ==> i == k) {
      if i < k { assert s[i] == s[..k][i]; }
      else if i > k { assert s[i] == d[i - k - 1]; }
    }
    var j :| 0 < j < |d| - 1 && d[j] == '.';
    assert s[k + 1 + j] == '.';
  }

  /** Lower-casing keeps each character's class. */
  lemma LowerPlain(s: string)
    ensures AllPlain(ToLower(s)) <==> AllPlain(s)
    ensures HasInnerDot(ToLower(s)) <==> HasInnerDot(s)
  {
    var t := ToLower(s);
    forall i | 0 <= i < |s| ensures (Plain(t[i]) <==> Plain(s[i])) && (t[i] == '.' <==> s[i] == '.') {
      LowerCharSpace(s[i]);
    }
  }

  /** Lower-casing keeps the first `@` where it was. */
  lemma LowerFirstAt(s: string)
    ensures IndexFrom(ToLower(s), '@', 0) == IndexFrom(s, '@', 0)
  {
    var t := ToLower(s);
    forall i | 0 <= i < |s| ensures t[i] == '@' <==> s[i] == '@' {
      LowerCharSpace(s[i]);
    }
    var k := IndexFrom(s, '@', 0);
    if k >= 0 {
      IndexFromFirst(t, '@', 0, k);
    }
  }

  /** Lower-casing neither makes nor breaks an email. */
  lemma IsEmailLower(s: string)
    ensures IsEmail(ToLower(s)) <==> IsEmail(s)
  {
    var t := ToLower(s);
    LowerFirstAt(s);
    var k := IndexFrom(s, '@', 0);
    if k > 0 {
      assert t[..k] == ToLower(s[..k]);
      assert t[k + 1..] == ToLower(s[k + 1..]);
      LowerPlain(s[..k]);
      LowerPlain(s[k + 1..]);
    }
  }

  /** Trimming a lower-cased accepted email changes nothing. */
  lemma TrimLowerEmail(s: string)
    requires IsEmail(s)
    ensures Trim(ToLower(s)) == ToLower(s)
  {
    IsEmailShape(s);
    forall i | 0 <= i < |s| ensures !IsSpace(ToLower(s)[i]) {
      LowerCharSpace(s[i]);
    }
    TrimNoSpace(ToLower(s));
  }
}
