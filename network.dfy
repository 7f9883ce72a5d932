/**
 * `Network.toHex`: formats bytes (a MAC address) as two upper-case hexadecimal digits each,
 * optionally separated by dashes.
 */
module Network {

  /** A Java `byte`: signed, from -128 to 127. */
  newtype JByte = x: int | -128 <= x < 128

  /** The unsigned value `%X` formats: a negative byte counts from 256. */
  function Unsigned(b: JByte): (u: int)
    ensures 0 <= u < 256
  {
    if b < 0 then b as int + 256 else b as int
  }

  /** An upper-case hexadecimal digit. */
  predicate IsHexDigit(c: char)
  {
    '0' <= c <= '9' || 'A' <= c <= 'F'
  }

  /** The upper-case digit for `d`. */
  function HexDigit(d: int): (c: char)
    requires 0 <= d < 16
    ensures IsHexDigit(c)
  {
    if d < 10 then ('0' as int + d) as char else ('A' as int + d - 10) as char
  }

  /** The value of an upper-case hexadecimal digit. */
  function DigitValue(c: char): (d: int)
    ensures 0 <= d < 16
  {
    if '0' <= c <= '9' then c as int - '0' as int
    else if 'A' <= c <= 'F' then c as int - 'A' as int + 10
    else 0
  }

  lemma DigitValueOfHexDigit(d: int)
    requires 0 <= d < 16
    ensures DigitValue(HexDigit(d)) == d
  {
  }

  /** The two hexadecimal digit values of `u`: how many sixteens it holds, and what is left over. */
  function Nibbles(u: int): (r: (int, int))
    requires 0 <= u < 256
    ensures 0 <= r.0 < 16 && 0 <= r.1 < 16 && r.0 * 16 + r.1 == u
  {
    if u < 16 then (0, u) else var n := Nibbles(u - 16); (n.0 + 1, n.1)
  }

  /** `%02X` of one byte: exactly two digits of its unsigned value. */
  function HexPair(b: JByte): (s: string)
    ensures |s| == 2 && IsHexDigit(s[0]) && IsHexDigit(s[1])
  {
    var n := Nibbles(Unsigned(b));
    [HexDigit(n.0), HexDigit(n.1)]
  }

  /** The two digits give the byte's unsigned value back. */
  lemma HexPairDecodes(b: JByte)
    ensures DigitValue(HexPair(b)[0]) * 16 + DigitValue(HexPair(b)[1]) == Unsigned(b)
  {
    var n := Nibbles(Unsigned(b));
    DigitValueOfHexDigit(n.0);
    DigitValueOfHexDigit(n.1);
  }

  /** Pieces of exactly two characters, each an upper-case hexadecimal digit. */
  predicate DigitPairs(pairs: seq<string>)
  {
    forall i :: 0 <= i < |pairs| ==> |pairs[i]| == 2 && IsHexDigit(pairs[i][0]) && IsHexDigit(pairs[i][1])
  }

  /** Each byte's two digits, in order. */
  function HexPairs(bytes: seq<JByte>): (pairs: seq<string>)
    ensures |pairs| == |bytes| && DigitPairs(pairs)
    ensures forall i :: 0 <= i < |bytes| ==> pairs[i] == HexPair(bytes[i])
  {
    seq(|bytes|, i requires 0 <= i < |bytes| => HexPair(bytes[i]))
  }

  /** What the loop appends for byte `i`: its digits, then a dash unless it is the last byte or there are no dashes. */
  function Piece(pairs: seq<string>, i: nat, dashDelim: bool): string
    requires i < |pairs|
  {
    pairs[i] + (if dashDelim && i < |pairs| - 1 then "-" else "")
  }

  /** The text for the first `k` bytes. */
  function Joined(pairs: seq<string>, k: nat, dashDelim: bool): string
    requires k <= |pairs|
  {
    if k == 0 then "" else Joined(pairs, k - 1, dashDelim) + Piece(pairs, k - 1, dashDelim)
  }

  /** `toHex`'s text for all the bytes. */
  function HexText(bytes: seq<JByte>, dashDelim: bool): string
  {
    Joined(HexPairs(bytes), |bytes|, dashDelim)
  }

  /** Where byte `i`'s digits start: two characters per earlier byte, three with dashes. */
  function Offset(dashDelim: bool, i: nat): nat
  {
    if dashDelim then 3 * i else 2 * i
  }

  /** The text for `k` pieces takes up `Offset(k)` characters, less the missing last dash. */
  lemma {:induction false} JoinedLength(pairs: seq<string>, k: nat, dashDelim: bool)
    requires DigitPairs(pairs) && k <= |pairs|
    ensures |Joined(pairs, k, dashDelim)| ==
            if dashDelim && k == |pairs| && k > 0 then 3 * k - 1 else Offset(dashDelim, k)
  {
    if k > 0 {
      JoinedLength(pairs, k - 1, dashDelim);
    }
  }

  /** Later pieces only append: the text for fewer is a prefix of the text for more. */
  lemma {:induction false} JoinedGrows(pairs: seq<string>, k: nat, m: nat, dashDelim: bool)
    requires k <= m <= |pairs|
    ensures Joined(pairs, k, dashDelim) <= Joined(pairs, m, dashDelim)
  {
    if k < m {
      JoinedGrows(pairs, k, m - 1, dashDelim);
    }
  }

  /** Piece `i`'s digits sit at `Offset(i)`, followed by its dash when it has one. */
  lemma JoinedLayout(pairs: seq<string>, k: nat, dashDelim: bool, i: nat)
    requires DigitPairs(pairs) && i < k <= |pairs|
    ensures var s := Joined(pairs, k, dashDelim);
            && Offset(dashDelim, i) + 2 <= |s|
            && s[Offset(dashDelim, i)..Offset(dashDelim, i) + 2] == pairs[i]
            && (dashDelim && i < |pairs| - 1 ==> 3 * i + 2 < |s| && s[3 * i + 2] == '-')
  {
    var s := Joined(pairs, k, dashDelim);
    var p := Joined(pairs, i + 1, dashDelim);
    LastPiece(pairs, i, dashDelim);
    JoinedGrows(pairs, i + 1, k, dashDelim);
    SameSlice(p, s, Offset(dashDelim, i), pairs[i], dashDelim && i < |pairs| - 1, 3 * i + 2);
  }

  /** The text for the first `i + 1` pieces ends with piece `i`, starting at `Offset(i)`. */
  lemma LastPiece(pairs: seq<string>, i: nat, dashDelim: bool)
    requires DigitPairs(pairs) && i < |pairs|
    ensures var p := Joined(pairs, i + 1, dashDelim);
            && Offset(dashDelim, i) + 2 <= |p|
            && p[Offset(dashDelim, i)..Offset(dashDelim, i) + 2] == pairs[i]
            && (dashDelim && i < |pairs| - 1 ==> 3 * i + 2 < |p| && p[3 * i + 2] == '-')
  {
    var prev := Joined(pairs, i, dashDelim);
    var piece := Piece(pairs, i, dashDelim);
    JoinedLength(pairs, i, dashDelim);
    var p := prev + piece;
    assert p == Joined(pairs, i + 1, dashDelim);
    assert p[|prev|..|prev| + 2] == piece[..2];
    if dashDelim && i < |pairs| - 1 {
      assert p[|prev| + 2] == piece[2];
    }
  }

  /** A slice of a prefix, and a dash in it, are the same in the longer sequence. */
  lemma SameSlice(p: string, s: string, at: nat, w: string, hasDash: bool, dashAt: nat)
    requires p <= s && at + |w| <= |p| && p[at..at + |w|] == w
    requires hasDash ==> dashAt < |p| && p[dashAt] == '-'
    ensures at + |w| <= |s| && s[at..at + |w|] == w
    ensures hasDash ==> dashAt < |s| && s[dashAt] == '-'
  {
    assert s[at..at + |w|] == p[at..at + |w|];
  }

  /** An upper-case hexadecimal digit, or a dash when dashes are asked for. */
  predicate HexChar(c: char, dashDelim: bool)
  {
    IsHexDigit(c) || (dashDelim && c == '-')
  }

  /** Every character is an upper-case hexadecimal digit or a dash, and there are dashes only when asked for. */
  lemma {:induction false} JoinedAlphabet(pairs: seq<string>, k: nat, dashDelim: bool)
    requires DigitPairs(pairs) && k <= |pairs|
    ensures forall j :: 0 <= j < |Joined(pairs, k, dashDelim)| ==> HexChar(Joined(pairs, k, dashDelim)[j], dashDelim)
  {
    if k > 0 {
      JoinedAlphabet(pairs, k - 1, dashDelim);
      var prev := Joined(pairs, k - 1, dashDelim);
      var piece := Piece(pairs, k - 1, dashDelim);
      var s := Joined(pairs, k, dashDelim);
      assert s == prev + piece;
      forall j | 0 <= j < |s|
        ensures HexChar(s[j], dashDelim)
      {
        if j < |prev| {
          assert s[j] == prev[j];
        } else {
          assert s[j] == piece[j - |prev|];
          if j - |prev| >= 2 {
            assert dashDelim && piece[2] == '-';
          }
        }
      }
    }
  }

  /** `toHex(mac, dashDelim)`: the loop appending each byte's piece in turn. */
  method ToHex(mac: array<JByte>, dashDelim: bool) returns (r: string)
    ensures r == HexText(mac[..], dashDelim)
  {
    var sb := "";
    ghost var bytes := mac[..];
    for i := 0 to mac.Length
      invariant sb == Joined(HexPairs(bytes), i, dashDelim)
    {
      var piece := HexPair(mac[i]) + (if dashDelim && i < mac.Length - 1 then "-" else "");
      NextPiece(bytes, i, dashDelim, piece);
      sb := sb + piece;
    }
    r := sb;
  }

  /** One more byte appends its digits and, when it has one, its dash. */
  lemma NextPiece(bytes: seq<JByte>, i: nat, dashDelim: bool, piece: string)
    requires i < |bytes| && piece == HexPair(bytes[i]) + (if dashDelim && i < |bytes| - 1 then "-" else "")
    ensures Joined(HexPairs(bytes), i + 1, dashDelim) == Joined(HexPairs(bytes), i, dashDelim) + piece
  {
  }

  /**
   * What `toHex` promises about its text: `2n` characters without dashes and `3n - 1` with them
   * (none for no bytes), each byte's two digits at its place decoding to its unsigned value, a
   * dash after every byte but the last when asked for, and nothing else.
   */
  lemma ToHexFormat(bytes: seq<JByte>, dashDelim: bool)
    ensures var s := HexText(bytes, dashDelim);
            && |s| == (if |bytes| == 0 then 0 else if dashDelim then 3 * |bytes| - 1 else 2 * |bytes|)
            && (forall j :: 0 <= j < |s| ==> HexChar(s[j], dashDelim))
            && forall i :: 0 <= i < |bytes| ==>
                 && DigitValue(s[Offset(dashDelim, i)]) * 16 + DigitValue(s[Offset(dashDelim, i) + 1]) == Unsigned(bytes[i])
                 && (dashDelim && i < |bytes| - 1 ==> s[3 * i + 2] == '-')
  {
    var pairs := HexPairs(bytes);
    var s := Joined(pairs, |bytes|, dashDelim);
    JoinedLength(pairs, |bytes|, dashDelim);
    JoinedAlphabet(pairs, |bytes|, dashDelim);
    forall i | 0 <= i < |bytes|
      ensures Offset(dashDelim, i) + 1 < |s|
      ensures DigitValue(s[Offset(dashDelim, i)]) * 16 + DigitValue(s[Offset(dashDelim, i) + 1]) == Unsigned(bytes[i])
      ensures dashDelim && i < |bytes| - 1 ==> 3 * i + 2 < |s| && s[3 * i + 2] == '-'
    {
      JoinedLayout(pairs, |bytes|, dashDelim, i);
      var at := Offset(dashDelim, i);
      assert s[at] == s[at..at + 2][0] && s[at + 1] == s[at..at + 2][1];
      HexPairDecodes(bytes[i]);
    }
  }
}
