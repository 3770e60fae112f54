/** Facts about concatenations of strings used to read fixed formats back. */
module TextLemmas {
  import opened Text

  /** Characters that may occur in a rendered integer. */
  lemma IntToStringChars(i: int)
    ensures forall k :: 0 <= k < |IntToString(i)| ==> IsDigit(IntToString(i)[k]) || IntToString(i)[k] == '-'
  {
  }

  /** A rendered integer starts with '-' exactly when it is negative. */
  lemma IntToStringSign(i: int)
    ensures IntToString(i)[0] == '-' <==> i < 0
  {
    if i >= 0 {
      assert IsDigit(NatToString(i)[0]);
    }
  }

  lemma NatToStringCancels(m: nat, n: nat)
    requires NatToString(m) == NatToString(n)
    ensures m == n
  {
    NatToStringRoundTrip(m);
    NatToStringRoundTrip(n);
  }

  /** Distinct integers are rendered as distinct strings. */
  lemma IntToStringInjective(a: int, b: int)
    requires IntToString(a) == IntToString(b)
    ensures a == b
  {
    if a < 0 && b < 0 {
      var sa, sb := IntToString(a), IntToString(b);
      assert sa[1..] == NatToString(-a);
      assert sb[1..] == NatToString(-b);
      NatToStringCancels(-a, -b);
    } else if a >= 0 && b >= 0 {
      NatToStringCancels(a, b);
    } else {
      IntToStringSign(a);
      IntToStringSign(b);
    }
  }

  /** A common prefix can be cancelled. */
  lemma CancelPrefix(p: string, x: string, y: string)
    requires p + x == p + y
    ensures x == y
  {
    assert x == (p + x)[|p|..];
    assert y == (p + y)[|p|..];
  }

  /** A common suffix can be cancelled. */
  lemma CancelSuffix(x: string, y: string, q: string)
    requires x + q == y + q
    ensures x == y
  {
    assert x == (x + q)[..|x|];
    assert y == (y + q)[..|y|];
  }

  /**
   * When neither a nor a2 contains c, a string a + ([c] + b) determines a and b:
   * a ends just before the first occurrence of c.
   */
  lemma SplitAtFirst(a: string, b: string, a2: string, b2: string, c: char)
    requires c !in a && c !in a2
    requires a + ([c] + b) == a2 + ([c] + b2)
    ensures a == a2 && b == b2
  {
    var s := a + ([c] + b);
    assert s[|a|] == c && s[|a2|] == c;
    assert a == s[..|a|] && a2 == s[..|a2|];
    assert b == s[|a| + 1..] && b2 == s[|a2| + 1..];
  }
}
