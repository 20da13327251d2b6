/** Python's `str.strip()` with no argument, over the ASCII whitespace characters. */
module Text {
  /** Tab, line feed, vertical tab, form feed, carriage return, the four separators 0x1C-0x1F, space. */
  predicate IsSpace(c: char)
  {
    var k := c as int;
    k == 32 || 9 <= k <= 13 || 28 <= k <= 31
  }

  predicate AllSpace(s: string)
  {
    forall k :: 0 <= k < |s| ==> IsSpace(s[k])
  }

  /** Number of whitespace characters at the front of `s`. */
  function LeadingSpace(s: string): (n: nat)
    ensures n <= |s|
    ensures AllSpace(s[..n])
    ensures n < |s| ==> !IsSpace(s[n])
  {
    if s == [] || !IsSpace(s[0]) then 0 else 1 + LeadingSpace(s[1..])
  }

  /** `s.rstrip()`: `s` without its trailing whitespace. */
  function TrimEnd(s: string): string
  {
    if s != [] && IsSpace(s[|s| - 1]) then TrimEnd(s[..|s| - 1]) else s
  }

  /** `s.strip()`: leading whitespace dropped one character at a time, then the trailing whitespace. */
  function Strip(s: string): string
  {
    if s != [] && IsSpace(s[0]) then Strip(s[1..]) else TrimEnd(s)
  }

  /** `rstrip()` keeps a prefix of `s` that is empty or ends in a non-space, and drops only whitespace. */
  lemma {:induction false} TrimEndSpec(s: string)
    ensures var t := TrimEnd(s);
      t <= s && AllSpace(s[|t|..]) && (t != [] ==> !IsSpace(t[|t| - 1]))
  {
    if s != [] && IsSpace(s[|s| - 1]) {
      var p := s[..|s| - 1];
      TrimEndSpec(p);
      var t := TrimEnd(p);
      assert s[|t|..] == p[|t|..] + [s[|s| - 1]];
    }
  }

  /**
   * `t` is what `strip()` should make of `s`: empty exactly when `s` is all
   * whitespace, otherwise starting and ending with a non-space; the part of
   * `s` right after its leading whitespace, followed only by whitespace.
   */
  predicate Stripped(s: string, t: string)
  {
    (t == [] <==> AllSpace(s))
    && (t != [] ==> !IsSpace(t[0]) && !IsSpace(t[|t| - 1]))
    && LeadingSpace(s) + |t| <= |s|
    && t == s[LeadingSpace(s)..LeadingSpace(s) + |t|]
    && AllSpace(s[LeadingSpace(s) + |t|..])
  }

  /** `strip()` meets `Stripped`. */
  lemma {:induction false} StripSpec(s: string)
    ensures Stripped(s, Strip(s))
  {
    if s != [] && IsSpace(s[0]) {
      StripSpec(s[1..]);
      StrippedSkipsSpace(s, Strip(s[1..]));
    } else {
      TrimEndSpec(s);
      TrimEndStripped(s);
    }
  }

  lemma StrippedSkipsSpace(s: string, t: string)
    requires s != [] && IsSpace(s[0]) && Stripped(s[1..], t)
    ensures Stripped(s, t)
  {
    var n := LeadingSpace(s[1..]);
    assert s[1..][n..n + |t|] == s[n + 1..n + 1 + |t|];
    assert s[1..][n + |t|..] == s[n + 1 + |t|..];
    assert AllSpace(s) <==> AllSpace(s[1..]) by {
      if AllSpace(s[1..]) {
        forall k | 0 <= k < |s| ensures IsSpace(s[k]) {
          if k > 0 { assert s[k] == s[1..][k - 1]; }
        }
      }
    }
  }

  lemma TrimEndStripped(s: string)
    requires s == [] || !IsSpace(s[0])
    requires var t := TrimEnd(s); t <= s && AllSpace(s[|t|..]) && (t != [] ==> !IsSpace(t[|t| - 1]))
    ensures Stripped(s, TrimEnd(s))
  {
    var t := TrimEnd(s);
    assert s[..|t|] == t;
    if t == [] {
      assert s == s[|t|..];
    } else {
      assert t[0] == s[0];
      assert !AllSpace(s);
    }
  }

  /** `rstrip()` removes exactly the whitespace appended to a text that does not end in whitespace. */
  lemma {:induction false} TrimEndRemovesPadding(t: string, post: string)
    requires AllSpace(post)
    requires t != [] ==> !IsSpace(t[|t| - 1])
    ensures TrimEnd(t + post) == t
    decreases |post|
  {
    if post == [] {
      assert t + post == t;
    } else {
      var u := t + post;
      assert u[|u| - 1] == post[|post| - 1];
      assert u[..|u| - 1] == t + post[..|post| - 1];
      TrimEndRemovesPadding(t, post[..|post| - 1]);
    }
  }

  /** Whitespace in front of a text does not change what `strip()` gives. */
  lemma {:induction false} StripSkipsLeading(pre: string, u: string)
    requires AllSpace(pre)
    ensures Strip(pre + u) == Strip(u)
    decreases |pre|
  {
    if pre != [] {
      assert (pre + u)[0] == pre[0];
      assert (pre + u)[1..] == pre[1..] + u;
      StripSkipsLeading(pre[1..], u);
    } else {
      assert pre + u == u;
    }
  }

  /**
   * Stripping undoes padding: whitespace added on both sides of a text that does
   * not itself start or end with whitespace is exactly what `strip()` removes.
   */
  lemma StripRemovesPadding(pre: string, t: string, post: string)
    requires AllSpace(pre) && AllSpace(post)
    requires t != [] ==> !IsSpace(t[0]) && !IsSpace(t[|t| - 1])
    ensures Strip(pre + t + post) == t
  {
    assert pre + t + post == pre + (t + post);
    StripSkipsLeading(pre, t + post);
    if t == [] {
      assert t + post == post + [];
      StripSkipsLeading(post, []);
      assert Strip([]) == [];
    } else {
      assert (t + post)[0] == t[0];
      TrimEndRemovesPadding(t, post);
    }
  }

  /** Stripping twice is stripping once. */
  lemma StripIdempotent(s: string)
    ensures Strip(Strip(s)) == Strip(s)
  {
    var t := Strip(s);
    StripSpec(s);
    StripRemovesPadding([], t, []);
    assert [] + t + [] == t;
  }
}
