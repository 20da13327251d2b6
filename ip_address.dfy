/**
 * The address check of a server record: `Server._is_valid_ip` matches the
 * address against `^\d{1,3}\.\d{1,3}\.\d{1,3}\.\d{1,3}$`. Digits are the ASCII
 * digits here.
 */
module IpAddress {
  import opened Base

  predicate IsDigit(c: char)
  {
    '0' <= c <= '9'
  }

  /** Length of the longest run of digits at the front of `s`. */
  function DigitRun(s: string): (n: nat)
    ensures n <= |s|
    ensures forall k :: 0 <= k < n ==> IsDigit(s[k])
    ensures n < |s| ==> !IsDigit(s[n])
  {
    if s == [] || !IsDigit(s[0]) then 0 else 1 + DigitRun(s[1..])
  }

  /**
   * Matches `\d{1,3}(\.\d{1,3})*` against the whole of `s`: the number of digit
   * groups, or `None` when `s` does not match. A group is always followed by a
   * dot or the end, neither of which is a digit, so the longest digit run is
   * the only way a group can match and no backtracking is needed.
   */
  function GroupCount(s: string): Option<nat>
    decreases |s|
  {
    var n := DigitRun(s);
    if n < 1 || 3 < n then None
    else if n == |s| then Some(1)
    else if s[n] != '.' then None
    else match GroupCount(s[n + 1..])
      case None => None
      case Some(c) => Some(c + 1)
  }

  /**
   * The text the pattern has to cover: `$` matches at the very end and also
   * just before a final newline, so one final newline may be left over.
   */
  function Anchored(ip: string): string
  {
    if |ip| > 0 && ip[|ip| - 1] == '\n' then ip[..|ip| - 1] else ip
  }

  /** `_is_valid_ip(ip)`: the address is four dot-separated digit groups, up to a final newline. */
  predicate IsValidIp(ip: string)
  {
    GroupCount(Anchored(ip)) == Some(4)
  }

  /** Index of the first '.' in `s`, or `|s|` when there is none. */
  function FirstDot(s: string): nat
  {
    FirstIndexOf(s, '.')
  }

  /** Python's `s.split('.')`. */
  function SplitOnDots(s: string): seq<string>
    decreases |s|
  {
    var i := FirstDot(s);
    if i == |s| then [s] else [s[..i]] + SplitOnDots(s[i + 1..])
  }

  /** `'.'.join(parts)`. */
  function JoinDots(parts: seq<string>): string
    requires |parts| >= 1
  {
    if |parts| == 1 then parts[0] else parts[0] + "." + JoinDots(parts[1..])
  }

  /** One to three digits and nothing else. */
  predicate IsGroup(t: string)
  {
    1 <= |t| <= 3 && forall k :: 0 <= k < |t| ==> IsDigit(t[k])
  }

  predicate AllGroups(parts: seq<string>)
  {
    forall j :: 0 <= j < |parts| ==> IsGroup(parts[j])
  }

  /** The reference reading of the pattern: `s.split('.')` gives four digit groups. */
  predicate IsDottedQuad(s: string)
  {
    var parts := SplitOnDots(s);
    |parts| == 4 && AllGroups(parts)
  }

  /** A prefix that ends before a non-digit is a digit group exactly when it is the digit run. */
  lemma GroupPrefix(s: string, i: nat)
    requires i <= |s| && (i < |s| ==> !IsDigit(s[i]))
    ensures IsGroup(s[..i]) <==> DigitRun(s) == i && 1 <= i <= 3
  {
    assert forall k :: 0 <= k < i ==> s[..i][k] == s[k];
  }

  /** Splitting a text with a dot peels off the part before its first dot. */
  lemma SplitAtFirstDot(s: string)
    requires FirstDot(s) < |s|
    ensures var i := FirstDot(s);
      |SplitOnDots(s)| >= 2 && SplitOnDots(s)[0] == s[..i] && SplitOnDots(s)[1..] == SplitOnDots(s[i + 1..])
  {
  }

  lemma AllGroupsTail(parts: seq<string>)
    requires |parts| >= 1
    ensures AllGroups(parts) <==> IsGroup(parts[0]) && AllGroups(parts[1..])
  {
    assert forall j :: 1 <= j < |parts| ==> parts[j] == parts[1..][j - 1];
  }

  /**
   * The matcher agrees with splitting on dots: it counts the parts when every
   * part is a digit group, and refuses the text otherwise.
   */
  lemma {:induction false} GroupCountSplit(s: string)
    ensures GroupCount(s) == if AllGroups(SplitOnDots(s)) then Some(|SplitOnDots(s)|) else None
    decreases |s|
  {
    var i := FirstDot(s);
    if i == |s| {
      GroupCountNoDot(s);
    } else {
      GroupCountSplit(s[i + 1..]);
      GroupCountAtDot(s);
    }
  }

  /** The case of `GroupCountSplit` for a text without a dot: it is one part. */
  lemma GroupCountNoDot(s: string)
    requires FirstDot(s) == |s|
    ensures GroupCount(s) == if AllGroups(SplitOnDots(s)) then Some(|SplitOnDots(s)|) else None
  {
    FirstIndexOfSpec(s, '.');
    GroupPrefix(s, |s|);
    assert s[..|s|] == s;
    assert DigitRun(s) < |s| ==> s[DigitRun(s)] != '.';
    assert SplitOnDots(s) == [s];
    AllGroupsTail([s]);
    assert [s][1..] == [];
  }

  /** The step of `GroupCountSplit` for a text with a dot: both sides peel off the part before it. */
  lemma GroupCountAtDot(s: string)
    requires FirstDot(s) < |s|
    requires var rest := SplitOnDots(s[FirstDot(s) + 1..]);
      GroupCount(s[FirstDot(s) + 1..]) == if AllGroups(rest) then Some(|rest|) else None
    ensures GroupCount(s) == if AllGroups(SplitOnDots(s)) then Some(|SplitOnDots(s)|) else None
  {
    FirstIndexOfSpec(s, '.');
    GroupPrefix(s, FirstDot(s));
    SplitAtFirstDot(s);
    AllGroupsTail(SplitOnDots(s));
  }

  /**
   * `_is_valid_ip` accepts exactly the addresses that split into four digit
   * groups once a final newline is dropped.
   */
  lemma IsValidIpIffDottedQuad(ip: string)
    ensures IsValidIp(ip) <==> IsDottedQuad(Anchored(ip))
  {
    GroupCountSplit(Anchored(ip));
  }

  /** Four digit groups are accepted with or without one final newline. */
  lemma AcceptsFinalNewline(ip: string)
    requires GroupCount(ip) == Some(4)
    ensures IsValidIp(ip) && IsValidIp(ip + "\n")
  {
    assert (ip + "\n")[..|ip|] == ip;
    CountedEndsInDigit(ip);
  }

  /** Text the matcher counts ends in a digit. */
  lemma {:induction false} CountedEndsInDigit(s: string)
    requires GroupCount(s).Some?
    ensures |s| > 0 && IsDigit(s[|s| - 1])
    decreases |s|
  {
    var n := DigitRun(s);
    if n < |s| {
      CountedEndsInDigit(s[n + 1..]);
    }
  }

  /** Joining parts that hold no dot and splitting the result again gives the parts back. */
  lemma {:induction false} SplitJoin(parts: seq<string>)
    requires |parts| >= 1
    requires forall j, k :: 0 <= j < |parts| && 0 <= k < |parts[j]| ==> parts[j][k] != '.'
    ensures SplitOnDots(JoinDots(parts)) == parts
  {
    var p := parts[0];
    if |parts| == 1 {
      FirstIndexOfAt(p, '.', |p|);
    } else {
      var s := JoinDots(parts);
      var rest := JoinDots(parts[1..]);
      assert s == p + "." + rest;
      assert forall k :: 0 <= k < |p| ==> s[k] == p[k];
      assert s[|p|] == '.';
      FirstIndexOfAt(s, '.', |p|);
      assert s[..|p|] == p && s[|p| + 1..] == rest;
      SplitJoin(parts[1..]);
    }
  }

  /**
   * Any digit groups joined by dots are counted, whatever their values: the
   * octets are never range-checked.
   */
  lemma AcceptsAnyGroups(parts: seq<string>)
    requires |parts| >= 1 && AllGroups(parts)
    ensures GroupCount(JoinDots(parts)) == Some(|parts|)
  {
    forall j, k | 0 <= j < |parts| && 0 <= k < |parts[j]| ensures parts[j][k] != '.' {
      assert IsGroup(parts[j]);
    }
    SplitJoin(parts);
    GroupCountSplit(JoinDots(parts));
  }

  /** The address the tests expect to be refused is accepted. */
  lemma AcceptsOctet256()
    ensures IsValidIp("192.168.1.256")
  {
    var parts := ["192", "168", "1", "256"];
    JoinOctets();
    assert AllGroups(parts) by {
      assert IsGroup(parts[0]) && IsGroup(parts[1]) && IsGroup(parts[2]) && IsGroup(parts[3]);
    }
    AcceptsAnyGroups(parts);
  }

  lemma JoinOctets()
    ensures JoinDots(["192", "168", "1", "256"]) == "192.168.1.256"
  {
    var parts := ["192", "168", "1", "256"];
    assert parts[1..] == ["168", "1", "256"];
    assert parts[2..] == ["1", "256"];
    assert parts[3..] == ["256"];
  }

  /** Three groups are refused. */
  lemma RejectsThreeGroups()
    ensures !IsValidIp("10.0.0")
  {
    assert Anchored("10.0.0") == "10.0.0";
    assert DigitRun("10.0.0") == 2;
    assert "10.0.0"[3..] == "0.0";
    assert DigitRun("0.0") == 1;
    assert "0.0"[2..] == "0";
    assert DigitRun("0") == 1;
  }

  /** An empty group is refused. */
  lemma RejectsEmptyGroup()
    ensures !IsValidIp("10..0.1")
  {
    assert Anchored("10..0.1") == "10..0.1";
    assert DigitRun("10..0.1") == 2;
    assert "10..0.1"[3..] == ".0.1";
    assert DigitRun(".0.1") == 0;
  }

  /** A group of four digits is refused. */
  lemma RejectsLongGroup()
    ensures !IsValidIp("1000.0.0.1")
  {
    assert Anchored("1000.0.0.1") == "1000.0.0.1";
    assert DigitRun("1000.0.0.1") == 4;
  }
}
