/**
  The two pieces of java.lang.String the core relies on, written out:
  `trim()`, which strips every leading and trailing character whose code
  point is at most U+0020, and `equalsIgnoreCase`, which compares two strings
  of equal length character by character after case mapping (here restricted
  to the ASCII letters).
 */
module JavaStrings {

  /** The characters `String.trim` removes: code points U+0000 to U+0020. */
  predicate IsTrimmable(c: char) {
    c <= ' '
  }

  /** `String.trim` leaves neither end trimmable. */
  predicate IsTrimmed(s: string) {
    s == [] || (!IsTrimmable(s[0]) && !IsTrimmable(s[|s| - 1]))
  }

  /** Drops the leading run of trimmable characters. */
  function TrimLeading(s: string): (r: string)
    ensures |r| <= |s| && r == s[|s| - |r|..]
    ensures forall i :: 0 <= i < |s| - |r| ==> IsTrimmable(s[i])
    ensures r == [] || !IsTrimmable(r[0])
  {
    if s == [] || !IsTrimmable(s[0]) then s else TrimLeading(s[1..])
  }

  /** Drops the trailing run of trimmable characters. */
  function TrimTrailing(s: string): (r: string)
    ensures |r| <= |s| && r == s[..|r|]
    ensures forall i :: |r| <= i < |s| ==> IsTrimmable(s[i])
    ensures r == [] || !IsTrimmable(r[|r| - 1])
  {
    if s == [] || !IsTrimmable(s[|s| - 1]) then s else TrimTrailing(s[..|s| - 1])
  }

  /** `String.trim()`: both runs dropped; neither end of the result is trimmable. */
  function Trim(s: string): (r: string)
    ensures |r| <= |s|
    ensures IsTrimmed(r)
  {
    TrimTrailing(TrimLeading(s))
  }

  /**
    Dropping a trimmable prefix of length `a` from `s` and then a trimmable
    suffix from what is left leaves the infix `s[a..a + |r|]`.
   */
  lemma InfixAfterDrops(s: string, a: nat, lead: string, r: string)
    requires a <= |s| && lead == s[a..]
    requires forall i :: 0 <= i < a ==> IsTrimmable(s[i])
    requires |r| <= |lead| && r == lead[..|r|]
    requires forall i :: |r| <= i < |lead| ==> IsTrimmable(lead[i])
    ensures a + |r| <= |s| && r == s[a..a + |r|]
    ensures forall i :: 0 <= i < a ==> IsTrimmable(s[i])
    ensures forall i :: a + |r| <= i < |s| ==> IsTrimmable(s[i])
  {
    forall i | a + |r| <= i < |s| ensures IsTrimmable(s[i]) {
      assert s[i] == lead[i - a];
    }
  }

  /**
    The result of `Trim` is the infix `s[a..a + |Trim(s)|]`, and everything
    outside that infix is trimmable.
   */
  lemma TrimIsInfix(s: string) returns (a: nat)
    ensures a + |Trim(s)| <= |s|
    ensures Trim(s) == s[a..a + |Trim(s)|]
    ensures forall i :: 0 <= i < a ==> IsTrimmable(s[i])
    ensures forall i :: a + |Trim(s)| <= i < |s| ==> IsTrimmable(s[i])
  {
    var lead := TrimLeading(s);
    a := |s| - |lead|;
    assert Trim(s) == TrimTrailing(lead);
    InfixAfterDrops(s, a, lead, Trim(s));
  }

  /** Trimming yields "" exactly for all-trimmable input. */
  lemma TrimEmptyIffAllTrimmable(s: string)
    ensures Trim(s) == [] <==> forall i :: 0 <= i < |s| ==> IsTrimmable(s[i])
  {
    var a := TrimIsInfix(s);
    if Trim(s) != [] {
      assert !IsTrimmable(s[a]);
    }
  }

  /** No character above U+0020 is lost by trimming. */
  lemma TrimKeepsContent(s: string, i: nat)
    requires i < |s| && !IsTrimmable(s[i])
    ensures s[i] in Trim(s)
  {
    var a := TrimIsInfix(s);
    assert Trim(s)[i - a] == s[i];
  }

  /** A string that is already trimmed is its own trim. */
  lemma {:induction false} TrimOfTrimmed(s: string)
    requires IsTrimmed(s)
    ensures Trim(s) == s
  {
    assert TrimLeading(s) == s;
    assert TrimTrailing(s) == s;
  }

  /** Trimming twice is trimming once. */
  lemma TrimIdempotent(s: string)
    ensures Trim(Trim(s)) == Trim(s)
  {
    TrimOfTrimmed(Trim(s));
  }

  /** ASCII upper-case mapping (`Character.toUpperCase` on 'a'..'z'). */
  function ToUpper(c: char): char {
    if 'a' <= c <= 'z' then (c as int - 32) as char else c
  }

  /** ASCII lower-case mapping (`Character.toLowerCase` on 'A'..'Z'). */
  function ToLower(c: char): char {
    if 'A' <= c <= 'Z' then (c as int + 32) as char else c
  }

  /**
    The per-character test of `String.regionMatches(true, ...)`: equal, equal
    after upper-casing, or equal after upper- then lower-casing.
   */
  predicate CharEqualsIgnoreCase(a: char, b: char) {
    a == b || ToUpper(a) == ToUpper(b) || ToLower(ToUpper(a)) == ToLower(ToUpper(b))
  }

  /**
    `String.equalsIgnoreCase` on two non-null strings: equal strings always
    compare equal, strings of different lengths never do.
   */
  predicate EqualsIgnoreCase(a: string, b: string): (r: bool)
    ensures a == b ==> r
    ensures r ==> |a| == |b|
  {
    |a| == |b| && forall i :: 0 <= i < |a| ==> CharEqualsIgnoreCase(a[i], b[i])
  }

  /** The string with every ASCII capital replaced by its small letter. */
  function Lowered(s: string): string {
    seq(|s|, i requires 0 <= i < |s| => ToLower(s[i]))
  }

  /** The character test amounts to comparing lower-case forms. */
  lemma CharEqualsIgnoreCaseIffLower(a: char, b: char)
    ensures CharEqualsIgnoreCase(a, b) <==> ToLower(a) == ToLower(b)
  {
  }

  /** `equalsIgnoreCase` holds exactly when the lower-case forms are equal. */
  lemma EqualsIgnoreCaseIffLowered(a: string, b: string)
    ensures EqualsIgnoreCase(a, b) <==> Lowered(a) == Lowered(b)
  {
    if EqualsIgnoreCase(a, b) {
      forall i | 0 <= i < |a| ensures Lowered(a)[i] == Lowered(b)[i] {
        CharEqualsIgnoreCaseIffLower(a[i], b[i]);
      }
    }
    if Lowered(a) == Lowered(b) {
      forall i | 0 <= i < |a| ensures CharEqualsIgnoreCase(a[i], b[i]) {
        assert Lowered(a)[i] == Lowered(b)[i];
        CharEqualsIgnoreCaseIffLower(a[i], b[i]);
      }
    }
  }

  /** Comparing against "" ignoring case is an emptiness test. */
  lemma EqualsIgnoreCaseEmpty(s: string)
    ensures EqualsIgnoreCase("", s) <==> s == ""
  {
  }
}
