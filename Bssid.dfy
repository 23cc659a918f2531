/** The BSSID validator: six groups of two hexadecimal digits, in either case,
    separated by colons, and nothing else. */
module Bssid {
  import opened GoBytes

  /** The character class [0-9A-Fa-f]. */
  predicate IsHexDigit(b: byte)
  {
    '0' as byte <= b <= '9' as byte || 'A' as byte <= b <= 'F' as byte || 'a' as byte <= b <= 'f' as byte
  }

  const Colon: byte := ':' as byte

  /** The offsets of the five separators in a 17-byte BSSID. */
  const ColonPositions: set<int> := {2, 5, 8, 11, 14}

  /** The accepted language, position by position: 17 bytes, a colon at each
      separator offset and a hexadecimal digit everywhere else. */
  predicate IsValidBssid(s: GoString)
    ensures IsValidBssid(s) ==> |s| == 17
    ensures IsValidBssid(s) ==> forall i | i in ColonPositions :: s[i] == Colon
  {
    && |s| == 17
    && forall i | 0 <= i < 17 :: if i in ColonPositions then s[i] == Colon else IsHexDigit(s[i])
  }

  // ---- The anchored pattern (?i)^[0-9A-F]{2}(:[0-9A-F]{2}){5}$, read as a grammar.

  /** The upper-case class [0-9A-F] as the pattern writes it. */
  predicate InUpperHexClass(b: byte)
  {
    '0' as byte <= b <= '9' as byte || 'A' as byte <= b <= 'F' as byte
  }

  /** The ASCII case partner of a letter; any other byte is its own partner. */
  function OtherCase(b: byte): byte
  {
    if 'a' as byte <= b <= 'z' as byte then b - 32
    else if 'A' as byte <= b <= 'Z' as byte then b + 32
    else b
  }

  /** Under (?i) a byte matches a class when it or its case partner is in it. */
  predicate MatchesHexFolded(b: byte)
  {
    InUpperHexClass(b) || InUpperHexClass(OtherCase(b))
  }

  /** `[0-9A-F]{2}` at the front of s. */
  predicate StartsWithHexPair(s: GoString)
  {
    |s| >= 2 && MatchesHexFolded(s[0]) && MatchesHexFolded(s[1])
  }

  /** `(:[0-9A-F]{2}){n}$`: exactly n colon-prefixed pairs and then the end. */
  predicate ColonGroups(s: GoString, n: nat)
    decreases n
  {
    if n == 0 then s == []
    else |s| >= 3 && s[0] == Colon && StartsWithHexPair(s[1..]) && ColonGroups(s[3..], n - 1)
  }

  predicate MatchesPattern(s: GoString)
  {
    StartsWithHexPair(s) && ColonGroups(s[2..], 5)
  }

  lemma FoldedClassIsHexDigit(b: byte)
    ensures MatchesHexFolded(b) <==> IsHexDigit(b)
  {
  }

  /** n colon groups are exactly 3n bytes with a colon at every third offset. */
  lemma {:induction false} ColonGroupsShape(s: GoString, n: nat)
    ensures ColonGroups(s, n) <==>
      |s| == 3 * n && forall j | 0 <= j < |s| :: if j % 3 == 0 then s[j] == Colon else IsHexDigit(s[j])
  {
    if n > 0 && |s| >= 3 {
      ColonGroupsShape(s[3..], n - 1);
      FoldedClassIsHexDigit(s[1]);
      FoldedClassIsHexDigit(s[2]);
      var t := s[3..];
      if |t| == 3 * (n - 1) && forall j | 0 <= j < |t| :: if j % 3 == 0 then t[j] == Colon else IsHexDigit(t[j]) {
        if s[0] == Colon && IsHexDigit(s[1]) && IsHexDigit(s[2]) {
          forall j | 0 <= j < |s| ensures if j % 3 == 0 then s[j] == Colon else IsHexDigit(s[j]) {
            if j >= 3 {
              assert s[j] == t[j - 3];
              assert (j - 3) % 3 == j % 3;
            }
          }
        }
      } else {
        if |s| == 3 * n {
          var k :| 0 <= k < |t| && !(if k % 3 == 0 then t[k] == Colon else IsHexDigit(t[k]));
          assert s[k + 3] == t[k] && (k + 3) % 3 == k % 3;
        }
      }
    } else if n > 0 {
      assert !ColonGroups(s, n);
    }
  }

  lemma ColonPositionsAreEveryThird(i: int)
    requires 0 <= i < 17
    ensures i in ColonPositions <==> i % 3 == 2
  {
  }

  /** Shape of the 15 bytes after the first pair, as ColonGroupsShape states it. */
  predicate GroupsShaped(t: GoString)
  {
    |t| == 15 && forall j | 0 <= j < |t| :: if j % 3 == 0 then t[j] == Colon else IsHexDigit(t[j])
  }

  lemma ValidGivesShape(s: GoString)
    requires IsValidBssid(s)
    ensures GroupsShaped(s[2..])
  {
    var t := s[2..];
    forall j | 0 <= j < |t| ensures if j % 3 == 0 then t[j] == Colon else IsHexDigit(t[j]) {
      ColonPositionsAreEveryThird(j + 2);
      assert t[j] == s[j + 2];
    }
  }

  lemma ShapeGivesValid(s: GoString)
    requires |s| >= 2 && IsHexDigit(s[0]) && IsHexDigit(s[1]) && GroupsShaped(s[2..])
    ensures IsValidBssid(s)
  {
    var t := s[2..];
    forall i | 0 <= i < 17 ensures if i in ColonPositions then s[i] == Colon else IsHexDigit(s[i]) {
      ColonPositionsAreEveryThird(i);
      if i >= 2 {
        assert s[i] == t[i - 2];
      }
    }
  }

  /** The position-by-position predicate accepts exactly what the pattern accepts. */
  lemma ValidIffMatchesPattern(s: GoString)
    ensures IsValidBssid(s) <==> MatchesPattern(s)
  {
    if |s| >= 2 {
      ColonGroupsShape(s[2..], 5);
      FoldedClassIsHexDigit(s[0]);
      FoldedClassIsHexDigit(s[1]);
      if IsValidBssid(s) {
        ValidGivesShape(s);
      }
      if MatchesPattern(s) {
        ShapeGivesValid(s);
      }
    }
  }

  lemma ValidHasLength17(s: GoString)
    requires IsValidBssid(s)
    ensures |s| == 17
  {
  }

  // ---- Examples: upper case and lower case are accepted; five groups, or a
  // non-hexadecimal digit, are rejected.

  /** IsValidBssid spelled out as seventeen separate conditions. */
  lemma ValidFromPositions(s: GoString)
    requires |s| == 17
    requires IsHexDigit(s[0]) && IsHexDigit(s[1]) && s[2] == Colon
    requires IsHexDigit(s[3]) && IsHexDigit(s[4]) && s[5] == Colon
    requires IsHexDigit(s[6]) && IsHexDigit(s[7]) && s[8] == Colon
    requires IsHexDigit(s[9]) && IsHexDigit(s[10]) && s[11] == Colon
    requires IsHexDigit(s[12]) && IsHexDigit(s[13]) && s[14] == Colon
    requires IsHexDigit(s[15]) && IsHexDigit(s[16])
    ensures IsValidBssid(s)
  {
    forall i | 0 <= i < 17 ensures if i in ColonPositions then s[i] == Colon else IsHexDigit(s[i]) {
      assert i in {0, 1, 2, 3, 4, 5, 6, 7, 8, 9, 10, 11, 12, 13, 14, 15, 16};
    }
  }

  lemma UpperCaseAccepted()
    ensures IsValidBssid(Ascii("AA:BB:CC:DD:EE:FF"))
  {
    ValidFromPositions(Ascii("AA:BB:CC:DD:EE:FF"));
  }

  lemma LowerCaseAccepted()
    ensures IsValidBssid(Ascii("00:25:9c:cf:1c:ad"))
  {
    ValidFromPositions(Ascii("00:25:9c:cf:1c:ad"));
  }

  lemma FiveGroupsRejected()
    ensures !IsValidBssid(Ascii("AA:BB:CC:DD:EE"))
  {
  }

  lemma NonHexDigitRejected()
    ensures !IsValidBssid(Ascii("GG:BB:CC:DD:EE:FF"))
  {
    var s := Ascii("GG:BB:CC:DD:EE:FF");
    assert !IsHexDigit(s[0]);
  }
}
