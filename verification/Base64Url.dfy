/** Unpadded base64url, section 5 of RFC 4648, as `base64.RawURLEncoding` implements it. */
module Base64Url {
  import opened Options

  newtype byte = x: int | 0 <= x < 256

  type Bytes = seq<byte>

  type Sextet = x: int | 0 <= x < 64

  /** Table 2 of RFC 4648. */
  function CharOf(v: Sextet): char {
    if v < 26 then ('A' as int + v) as char
    else if v < 52 then ('a' as int + (v - 26)) as char
    else if v < 62 then ('0' as int + (v - 52)) as char
    else if v == 62 then '-'
    else '_'
  }

  function ValueOf(c: char): Option<Sextet> {
    if 'A' <= c <= 'Z' then Some(c as int - 'A' as int)
    else if 'a' <= c <= 'z' then Some(c as int - 'a' as int + 26)
    else if '0' <= c <= '9' then Some(c as int - '0' as int + 52)
    else if c == '-' then Some(62)
    else if c == '_' then Some(63)
    else None
  }

  function Val(c: char): Sextet
    requires ValueOf(c).Some?
  {
    ValueOf(c).value
  }

  // Three bytes as four sextets, and back.

  function S0(b0: byte): Sextet { b0 as int / 4 }
  function S1(b0: byte, b1: byte): Sextet { b0 as int % 4 * 16 + b1 as int / 16 }
  function S2(b1: byte, b2: byte): Sextet { b1 as int % 16 * 4 + b2 as int / 64 }
  function S3(b2: byte): Sextet { b2 as int % 64 }

  function B0(v0: Sextet, v1: Sextet): byte { (v0 * 4 + v1 / 16) as byte }
  function B1(v1: Sextet, v2: Sextet): byte { (v1 % 16 * 16 + v2 / 4) as byte }
  function B2(v2: Sextet, v3: Sextet): byte { (v2 % 4 * 64 + v3) as byte }

  /** The missing bytes of a last, short group count as zero bits. */
  function Encode(bs: Bytes): string
    decreases |bs|
  {
    if |bs| == 0 then ""
    else if |bs| == 1 then [CharOf(S0(bs[0])), CharOf(S1(bs[0], 0))]
    else if |bs| == 2 then [CharOf(S0(bs[0])), CharOf(S1(bs[0], bs[1])), CharOf(S2(bs[1], 0))]
    else
      [CharOf(S0(bs[0])), CharOf(S1(bs[0], bs[1])), CharOf(S2(bs[1], bs[2])), CharOf(S3(bs[2]))] + Encode(bs[3..])
  }

  /** Carriage returns and line feeds are skipped wherever they stand. */
  function Unwrapped(s: string): string {
    if s == "" then ""
    else if s[0] == '\r' || s[0] == '\n' then Unwrapped(s[1..])
    else [s[0]] + Unwrapped(s[1..])
  }

  predicate AllSextets(s: string) {
    forall i :: 0 <= i < |s| ==> ValueOf(s[i]).Some?
  }

  /** What is left of `n` characters after whole groups of four. */
  function Left(n: nat): (r: nat)
    ensures r == n % 4
  {
    if n < 4 then n else Left(n - 4)
  }

  /** Whole groups of four, then what is left; spare trailing bits are dropped unread. */
  function Groups(s: string): Bytes
    requires AllSextets(s) && Left(|s|) != 1
    decreases |s|
  {
    if |s| == 0 then []
    else if |s| == 2 then [B0(Val(s[0]), Val(s[1]))]
    else if |s| == 3 then [B0(Val(s[0]), Val(s[1])), B1(Val(s[1]), Val(s[2]))]
    else
      [B0(Val(s[0]), Val(s[1])), B1(Val(s[1]), Val(s[2])), B2(Val(s[2]), Val(s[3]))] + Groups(s[4..])
  }

  function Decode(s: string): Option<Bytes> {
    var u := Unwrapped(s);
    if AllSextets(u) && Left(|u|) != 1 then Some(Groups(u)) else None
  }

  // ---------------------------------------------------------------------------
  // Round trip
  // ---------------------------------------------------------------------------

  lemma CharRoundTrip(v: Sextet)
    ensures ValueOf(CharOf(v)) == Some(v) && CharOf(v) != '.'
  {
  }

  lemma BytesBack(b0: byte, b1: byte, b2: byte)
    ensures B0(S0(b0), S1(b0, b1)) == b0 && B1(S1(b0, b1), S2(b1, b2)) == b1 && B2(S2(b1, b2), S3(b2)) == b2
  {
  }

  lemma {:induction false} EncodedShape(bs: Bytes)
    ensures AllSextets(Encode(bs)) && Left(|Encode(bs)|) != 1
    decreases |bs|
  {
    hide ValueOf, CharOf, S0, S1, S2, S3;
    forall v: Sextet ensures ValueOf(CharOf(v)).Some? {
      CharRoundTrip(v);
    }
    if |bs| < 3 {
    } else {
      EncodedShape(bs[3..]);
    }
  }

  lemma {:induction false} GroupsOfEncode(bs: Bytes)
    requires AllSextets(Encode(bs)) && Left(|Encode(bs)|) != 1
    ensures Groups(Encode(bs)) == bs
    decreases |bs|
  {
    hide ValueOf, CharOf, S0, S1, S2, S3, B0, B1, B2;
    forall v: Sextet ensures ValueOf(CharOf(v)) == Some(v) {
      CharRoundTrip(v);
    }
    if |bs| == 1 {
      BytesBack(bs[0], 0, 0);
    } else if |bs| == 2 {
      BytesBack(bs[0], bs[1], 0);
    } else if |bs| >= 3 {
      EncodedShape(bs[3..]);
      GroupsOfEncode(bs[3..]);
      BytesBack(bs[0], bs[1], bs[2]);
      assert Encode(bs)[4..] == Encode(bs[3..]);
      assert bs == bs[..3] + bs[3..];
    }
  }

  lemma {:induction false} NothingToSkip(s: string)
    requires AllSextets(s)
    ensures Unwrapped(s) == s
    decreases |s|
  {
    if s == "" {
    } else {
      assert ValueOf(s[0]).Some?;
      NothingToSkip(s[1..]);
    }
  }

  /** Decoding undoes encoding, and an encoding never contains a dot. */
  lemma DecodeEncode(bs: Bytes)
    ensures Decode(Encode(bs)) == Some(bs)
    ensures '.' !in Encode(bs)
  {
    EncodedShape(bs);
    GroupsOfEncode(bs);
    NothingToSkip(Encode(bs));
    assert ValueOf('.') == None;
  }

  // ---------------------------------------------------------------------------
  // Known values
  // ---------------------------------------------------------------------------

  /** Three bytes and the four characters they become. */
  predicate Spells(b0: byte, b1: byte, b2: byte, s: string) {
    && |s| == 4 && s[0] == CharOf(S0(b0)) && s[1] == CharOf(S1(b0, b1))
    && s[2] == CharOf(S2(b1, b2)) && s[3] == CharOf(S3(b2))
  }

  lemma EncodeSpelled(b0: byte, b1: byte, b2: byte, s: string, rest: Bytes)
    requires Spells(b0, b1, b2, s)
    ensures Encode([b0, b1, b2] + rest) == s + Encode(rest)
  {
    EncodeMore(b0, b1, b2, rest);
    hide CharOf, S0, S1, S2, S3, Encode;
  }

  /** The longer examples of section 10 of RFC 4648, "foob", "fooba" and "foobar", without their
      padding, and one group with the two characters that make this alphabet the URL-safe one. */
  lemma KnownEncodings()
    ensures Encode([102, 111, 111, 98]) == "Zm9v" + "Yg"
    ensures Encode([102, 111, 111, 98, 97]) == "Zm9v" + "YmE"
    ensures Encode([102, 111, 111, 98, 97, 114]) == "Zm9v" + "YmFy"
    ensures Encode([251, 255, 191]) == "-_-_"
  {
    assert Spells(102, 111, 111, "Zm9v") && Spells(98, 97, 114, "YmFy") && Spells(251, 255, 191, "-_-_");
    assert Encode([98]) == "Yg" && Encode([98, 97]) == "YmE";
    hide Spells, CharOf, S0, S1, S2, S3;
    EncodeSpelled(102, 111, 111, "Zm9v", [98]);
    EncodeSpelled(102, 111, 111, "Zm9v", [98, 97]);
    EncodeSpelled(102, 111, 111, "Zm9v", [98, 97, 114]);
    EncodeSpelled(98, 97, 114, "YmFy", []);
    EncodeSpelled(251, 255, 191, "-_-_", []);
    hide Encode;
    assert [102, 111, 111] + [98] == [102, 111, 111, 98];
    assert [102, 111, 111] + [98, 97] == [102, 111, 111, 98, 97];
    assert [102, 111, 111] + [98, 97, 114] == [102, 111, 111, 98, 97, 114];
    assert [98, 97, 114] + [] == [98, 97, 114] && [251, 255, 191] + [] == [251, 255, 191];
    assert "YmFy" + Encode([]) == "YmFy" && "-_-_" + Encode([]) == "-_-_";
  }

  // ---------------------------------------------------------------------------
  // The other way round
  // ---------------------------------------------------------------------------

  predicate LowFourClear(v: Sextet) { v % 16 == 0 }
  predicate LowTwoClear(v: Sextet) { v % 4 == 0 }

  /** The bits of the last character that belong to no byte. */
  predicate SpareClear(s: string)
    requires AllSextets(s)
  {
    && (Left(|s|) == 2 ==> LowFourClear(Val(s[|s| - 1])))
    && (Left(|s|) == 3 ==> LowTwoClear(Val(s[|s| - 1])))
  }

  lemma CharBack(c: char)
    requires ValueOf(c).Some?
    ensures CharOf(Val(c)) == c
  {
  }

  lemma SextetsBack(v0: Sextet, v1: Sextet, v2: Sextet, v3: Sextet)
    ensures S0(B0(v0, v1)) == v0 && S1(B0(v0, v1), B1(v1, v2)) == v1
    ensures S2(B1(v1, v2), B2(v2, v3)) == v2 && S3(B2(v2, v3)) == v3
    ensures S1(B0(v0, v1), 0) == v1 <==> LowFourClear(v1)
    ensures S2(B1(v1, v2), 0) == v2 <==> LowTwoClear(v2)
  {
  }

  lemma CharsDiffer(a: Sextet, c: char)
    requires ValueOf(c).Some?
    ensures CharOf(a) == c <==> a == Val(c)
  {
    CharBack(c);
    CharRoundTrip(a);
  }

  lemma GroupsMore(s: string)
    requires AllSextets(s) && |s| >= 4 && Left(|s|) != 1
    ensures AllSextets(s[4..])
    ensures Groups(s) == [B0(Val(s[0]), Val(s[1])), B1(Val(s[1]), Val(s[2])), B2(Val(s[2]), Val(s[3]))] + Groups(s[4..])
  {
  }

  lemma EncodeMore(b0: byte, b1: byte, b2: byte, rest: Bytes)
    ensures Encode([b0, b1, b2] + rest)
         == [CharOf(S0(b0)), CharOf(S1(b0, b1)), CharOf(S2(b1, b2)), CharOf(S3(b2))] + Encode(rest)
  {
    assert ([b0, b1, b2] + rest)[3..] == rest;
    hide CharOf;
  }

  /** A whole group comes back as it was. */
  lemma WholeGroup(s: string)
    requires AllSextets(s) && |s| >= 4 && Left(|s|) != 1
    ensures AllSextets(s[4..]) && Encode(Groups(s)) == s[..4] + Encode(Groups(s[4..]))
  {
    hide ValueOf, CharOf, Val, S0, S1, S2, S3, B0, B1, B2, Encode, Groups, Left;
    GroupsMore(s);
    var b0, b1, b2 := B0(Val(s[0]), Val(s[1])), B1(Val(s[1]), Val(s[2])), B2(Val(s[2]), Val(s[3]));
    EncodeMore(b0, b1, b2, Groups(s[4..]));
    SextetsBack(Val(s[0]), Val(s[1]), Val(s[2]), Val(s[3]));
    CharBack(s[0]);
    CharBack(s[1]);
    CharBack(s[2]);
    CharBack(s[3]);
    assert s[..4] == [s[0], s[1], s[2], s[3]];
  }

  lemma SpareOfRest(s: string)
    requires AllSextets(s) && |s| >= 4 && Left(|s|) != 1
    ensures AllSextets(s[4..]) && SpareClear(s) == SpareClear(s[4..])
  {
    hide Val, ValueOf, LowFourClear, LowTwoClear;
  }

  lemma SameRest(front: string, one: string, two: string)
    ensures front + one == front + two <==> one == two
  {
    assert one == (front + one)[|front|..] && two == (front + two)[|front|..];
  }

  lemma ShortGroup(s: string)
    requires AllSextets(s) && 2 <= |s| <= 3
    ensures Encode(Groups(s)) == s <==> SpareClear(s)
  {
    hide ValueOf, CharOf, Val, S0, S1, S2, B0, B1, LowFourClear, LowTwoClear;
    var bs, last := Groups(s), if |s| == 3 then Val(s[2]) else 0;
    SextetsBack(Val(s[0]), Val(s[1]), last, 0);
    CharsDiffer(S0(bs[0]), s[0]);
    CharsDiffer(S1(bs[0], if |s| == 3 then bs[1] else 0), s[1]);
    if |s| == 3 {
      CharsDiffer(S2(bs[1], 0), s[2]);
    }
  }

  /** Encoding what was decoded gives the same characters back if and only if the spare bits
      were zero; otherwise several strings stand for the same bytes. */
  lemma {:induction false} EncodeGroups(s: string)
    requires AllSextets(s) && Left(|s|) != 1
    ensures Encode(Groups(s)) == s <==> SpareClear(s)
    decreases |s|
  {
    if |s| == 0 {
    } else if |s| < 4 {
      ShortGroup(s);
    } else {
      WholeGroup(s);
      EncodeGroups(s[4..]);
      SpareOfRest(s);
      SameRest(s[..4], Encode(Groups(s[4..])), s[4..]);
      hide *;
      assert s == s[..4] + s[4..];
    }
  }
}
