/** `is_valid_mac` (BLESPPUtils.py:20-24): the pattern
    `^([0-9A-Fa-f]{2}[:-]){5}([0-9A-Fa-f]{2})$` under Python's `re.match`. The match is
    anchored at the start by `re.match`; `$` matches at the very end or just before one
    final newline, so a well-formed address followed by a single "\n" is accepted too. */
module MacAddress {

  /** `[0-9A-Fa-f]`. */
  predicate IsHex(c: char)
  {
    '0' <= c <= '9' || 'A' <= c <= 'F' || 'a' <= c <= 'f'
  }

  /** `[:-]`. */
  predicate IsSep(c: char)
  {
    c == ':' || c == '-'
  }

  /** `s` is matched exactly by `([0-9A-Fa-f]{2}[:-]){k}([0-9A-Fa-f]{2})`, read group by
      group from the left as the regular expression reads it. */
  predicate Groups(s: string, k: nat)
    decreases k
  {
    if k == 0 then |s| == 2 && IsHex(s[0]) && IsHex(s[1])
    else |s| >= 3 && IsHex(s[0]) && IsHex(s[1]) && IsSep(s[2]) && Groups(s[3..], k - 1)
  }

  /** The body of the pattern: six groups, five separators. */
  predicate MacBody(s: string)
  {
    Groups(s, 5)
  }

  /** `is_valid_mac(mac)`: the body, either alone or followed by the one newline `$`
      lets through. */
  predicate IsValidMac(mac: string)
  {
    MacBody(mac) || (|mac| > 0 && mac[|mac| - 1] == '\n' && MacBody(mac[..|mac| - 1]))
  }

  /** Position by position: a separator wherever `i % 3 == 2`, a hex digit elsewhere. */
  predicate Positional(s: string, n: nat)
  {
    |s| == n && forall i | 0 <= i < n :: if i % 3 == 2 then IsSep(s[i]) else IsHex(s[i])
  }

  /** The group-by-group reading and the positional one agree, in both directions. */
  lemma {:induction false} GroupsPositional(s: string, k: nat)
    ensures Groups(s, k) <==> Positional(s, 3 * k + 2)
    decreases k
  {
    if k > 0 && |s| >= 3 {
      GroupsPositional(s[3..], k - 1);
      if Positional(s, 3 * k + 2) {
        forall i | 0 <= i < 3 * (k - 1) + 2
          ensures if i % 3 == 2 then IsSep(s[3..][i]) else IsHex(s[3..][i])
        {
          assert s[3..][i] == s[i + 3];
          assert (i + 3) % 3 == i % 3;
        }
      }
      if Groups(s, k) {
        forall i | 0 <= i < 3 * k + 2
          ensures if i % 3 == 2 then IsSep(s[i]) else IsHex(s[i])
        {
          if i >= 3 {
            assert s[i] == s[3..][i - 3];
            assert (i - 3) % 3 == i % 3;
          }
        }
      }
    }
  }

  /** `is_valid_mac` accepts exactly six two-hex-digit groups separated by ':' or '-',
      optionally followed by one newline. */
  lemma MacValidIff(mac: string)
    ensures IsValidMac(mac) <==>
      Positional(mac, 17) || (|mac| == 18 && mac[17] == '\n' && Positional(mac[..17], 17))
  {
    GroupsPositional(mac, 5);
    if |mac| > 0 {
      GroupsPositional(mac[..|mac| - 1], 5);
    }
  }

  /** Each separator is chosen on its own: replacing one of them by ':' or '-' keeps a
      valid address valid. */
  lemma SeparatorsIndependent(mac: string, i: nat, c: char)
    requires IsValidMac(mac) && i < 17 && i % 3 == 2 && IsSep(c)
    ensures IsValidMac(mac[i := c])
  {
    MacValidIff(mac);
    MacValidIff(mac[i := c]);
    if |mac| == 18 && mac[17] == '\n' && Positional(mac[..17], 17) {
      assert mac[i := c][..17] == mac[..17][i := c];
    }
  }

  /** A body has exactly 17 characters. */
  lemma MacBodyLength(s: string)
    requires MacBody(s)
    ensures |s| == 17
  {
    GroupsPositional(s, 5);
  }

  /** In a body, character `i` is a separator where `i % 3 == 2` and a hex digit elsewhere. */
  lemma MacBodyAt(s: string, i: nat)
    requires MacBody(s) && i < 17
    ensures if i % 3 == 2 then IsSep(s[i]) else IsHex(s[i])
  {
    GroupsPositional(s, 5);
  }

  /** "AA:BB:CC:DD:EE:FF" read group by group. */
  lemma PlainBody()
    ensures MacBody("AA:BB:CC:DD:EE:FF")
  {
    var s := "AA:BB:CC:DD:EE:FF";
    assert Groups(s[15..], 0);
    assert s[12..][3..] == s[15..];
    assert Groups(s[12..], 1);
    assert s[9..][3..] == s[12..];
    assert Groups(s[9..], 2);
    assert s[6..][3..] == s[9..];
    assert Groups(s[6..], 3);
    assert s[3..][3..] == s[6..];
    assert Groups(s[3..], 4);
  }

  /** Separators may be mixed. */
  lemma MixedSeparatorsAccepted()
    ensures IsValidMac("AA:bb-01:23:45:67")
  {
    var s := "AA:bb-01:23:45:67";
    assert Groups(s[15..], 0);
    assert s[12..][3..] == s[15..];
    assert Groups(s[12..], 1);
    assert s[9..][3..] == s[12..];
    assert Groups(s[9..], 2);
    assert s[6..][3..] == s[9..];
    assert Groups(s[6..], 3);
    assert s[3..][3..] == s[6..];
    assert Groups(s[3..], 4);
  }

  /** A single trailing newline is accepted. */
  lemma TrailingNewlineAccepted()
    ensures IsValidMac("AA:BB:CC:DD:EE:FF\n")
  {
    PlainBody();
    var t := "AA:BB:CC:DD:EE:FF\n";
    assert t[..|t| - 1] == "AA:BB:CC:DD:EE:FF";
  }

  /** A second trailing newline is refused. */
  lemma DoubleNewlineRefused()
    ensures !IsValidMac("AA:BB:CC:DD:EE:FF\n\n")
  {
    var t := "AA:BB:CC:DD:EE:FF\n\n";
    if MacBody(t) {
      MacBodyLength(t);
    }
    if MacBody(t[..|t| - 1]) {
      MacBodyLength(t[..|t| - 1]);
    }
  }

  /** Five groups are too few. */
  lemma ShortRefused()
    ensures !IsValidMac("AA:BB:CC:DD:EE")
  {
    var t := "AA:BB:CC:DD:EE";
    if MacBody(t) {
      MacBodyLength(t);
    }
    if |t| > 0 && MacBody(t[..|t| - 1]) {
      MacBodyLength(t[..|t| - 1]);
    }
  }

  /** 'G' is not a hex digit. */
  lemma NonHexRefused()
    ensures !IsValidMac("AA:BB:CC:DD:EE:FG")
  {
    var t := "AA:BB:CC:DD:EE:FG";
    if MacBody(t) {
      MacBodyAt(t, 16);
      assert false;
    }
    if MacBody(t[..|t| - 1]) {
      MacBodyLength(t[..|t| - 1]);
    }
  }

  /** '.' is not a separator. */
  lemma DotRefused()
    ensures !IsValidMac("AA.BB.CC.DD.EE.FF")
  {
    var t := "AA.BB.CC.DD.EE.FF";
    if MacBody(t) {
      MacBodyAt(t, 2);
      assert false;
    }
    if MacBody(t[..|t| - 1]) {
      MacBodyLength(t[..|t| - 1]);
    }
  }
}
