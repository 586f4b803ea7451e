/** Unpadded base64url (section 5 of RFC 4648), as used for paths in S3 keys and in page cursors. */
module Base64Url {
  import opened ByteOrder

  /** The alphabet A-Z a-z 0-9 - _ in ASCII. */
  function Char64(d: byte): byte
    requires d < 64
  {
    if d < 26 then 65 + d
    else if d < 52 then 71 + d
    else if d < 62 then d - 4
    else if d == 62 then 45
    else 95
  }

  function Digit64(c: byte): byte {
    if 65 <= c <= 90 then c - 65
    else if 97 <= c <= 122 then c - 71
    else if 48 <= c <= 57 then c + 4
    else if c == 45 then 62
    else if c == 95 then 63
    else 0
  }

  lemma CharRoundTrip(d: byte)
    requires d < 64
    ensures Digit64(Char64(d)) == d && Char64(d) != 47
  {
  }

  function Encode(s: Bytes): Bytes {
    if |s| == 0 then []
    else if |s| == 1 then [Char64(s[0] / 4), Char64((s[0] % 4) * 16)]
    else if |s| == 2 then [Char64(s[0] / 4), Char64((s[0] % 4) * 16 + s[1] / 16), Char64((s[1] % 16) * 4)]
    else
      [Char64(s[0] / 4), Char64((s[0] % 4) * 16 + s[1] / 16), Char64((s[1] % 16) * 4 + s[2] / 64), Char64(s[2] % 64)]
      + Encode(s[3..])
  }

  /** Decoding by groups of four characters; a short last group carries one or two bytes. */
  function Decode(t: Bytes): Bytes {
    if |t| < 2 then []
    else
      var d0, d1 := Digit64(t[0]), Digit64(t[1]);
      var x := (d0 * 4 + d1 / 16) % 256;
      if |t| == 2 then [x]
      else
        var d2 := Digit64(t[2]);
        var y := ((d1 % 16) * 16 + d2 / 4) % 256;
        if |t| == 3 then [x, y]
        else [x, y, ((d2 % 4) * 64 + Digit64(t[3])) % 256] + Decode(t[4..])
  }

  /** Three bytes over four digits, put together again. */
  lemma Group(x: byte, y: byte, z: byte)
    ensures ((x / 4) * 4 + ((x % 4) * 16 + y / 16) / 16) % 256 == x
    ensures ((((x % 4) * 16 + y / 16) % 16) * 16 + ((y % 16) * 4 + z / 64) / 4) % 256 == y
    ensures ((((y % 16) * 4 + z / 64) % 4) * 64 + z % 64) % 256 == z
  {
  }

  lemma {:induction false} RoundTrip(s: Bytes)
    ensures Decode(Encode(s)) == s
  {
    hide Char64, Digit64;
    if |s| >= 3 {
      RoundTrip(s[3..]);
      assert Encode(s)[4..] == Encode(s[3..]);
      CharRoundTrip(s[0] / 4);
      CharRoundTrip((s[0] % 4) * 16 + s[1] / 16);
      CharRoundTrip((s[1] % 16) * 4 + s[2] / 64);
      CharRoundTrip(s[2] % 64);
      Group(s[0], s[1], s[2]);
      assert s == [s[0], s[1], s[2]] + s[3..];
    } else if |s| == 2 {
      CharRoundTrip(s[0] / 4);
      CharRoundTrip((s[0] % 4) * 16 + s[1] / 16);
      CharRoundTrip((s[1] % 16) * 4);
      Group(s[0], s[1], 0);
    } else if |s| == 1 {
      CharRoundTrip(s[0] / 4);
      CharRoundTrip((s[0] % 4) * 16);
      Group(s[0], 0, 0);
    }
  }

  lemma Injective(a: Bytes, b: Bytes)
    ensures Encode(a) == Encode(b) <==> a == b
  {
    RoundTrip(a);
    RoundTrip(b);
  }

  lemma {:induction false} HasNoSlash(s: Bytes)
    ensures forall i :: 0 <= i < |Encode(s)| ==> Encode(s)[i] != 47
  {
    if |s| >= 3 {
      HasNoSlash(s[3..]);
    }
  }
}
