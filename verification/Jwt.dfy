/** Compact tokens, section 7.1 of RFC 7515, signed with HS256 only (section 3.2 of RFC 7518). */
module Jwt {
  import opened Base64Url
  import opened Options
  import opened Text

  const HEADER := "eyJhbGciOiJIUzI1NiIsInR5cCI6IkpXVCJ9"

  datatype Claims = Claims(sub: string, exp: int, jti: string, iat: int)

  /** HMAC-SHA256, and the JSON form of claims. `clean` tells claims whose strings are valid
      UTF-8, the ones JSON carries unchanged. */
  datatype Crypto = Crypto(
    mac: (Bytes, string) -> Bytes,
    enc: Claims -> Bytes,
    dec: Bytes -> Option<Claims>,
    clean: Claims -> bool)

  ghost predicate RoundTrips(k: Crypto) {
    forall c :: k.clean(c) ==> k.dec(k.enc(c)) == Some(c)
  }

  datatype Verdict = Ok(claims: Claims) | BadFormat | BadHeader | BadSignature | BadEncoding | BadClaims

  function Signature(k: Crypto, payload: string, secret: Bytes): string {
    Encode(k.mac(secret, HEADER + "." + payload))
  }

  function Sign(k: Crypto, c: Claims, secret: Bytes): string {
    var hp := HEADER + "." + Encode(k.enc(c));
    var sig := Encode(k.mac(secret, hp));
    hp + "." + sig
  }

  function Verify(k: Crypto, token: string, secret: Bytes): Verdict {
    var parts := Split(token, '.');
    if |parts| != 3 then BadFormat
    else if parts[0] != HEADER then BadHeader
    else
      var hp := parts[0] + "." + parts[1];
      var expected := Encode(k.mac(secret, hp));
      if parts[2] != expected then BadSignature
      else match Decode(parts[1])
        case None => BadEncoding
        case Some(payload) =>
          match k.dec(payload)
          case None => BadClaims
          case Some(c) => Ok(c)
  }

  /** The one token with this payload segment that the secret accepts. */
  function TokenOf(k: Crypto, payload: string, secret: Bytes): string {
    HEADER + "." + payload + "." + Signature(k, payload, secret)
  }

  lemma HeaderHasNoDot()
    ensures '.' !in HEADER
  {
    assert forall i :: 0 <= i < |HEADER| ==> HEADER[i] != '.';
  }

  /** Three dot-free parts are split apart again. */
  lemma ThreeParts(a: string, b: string, c: string)
    requires '.' !in a && '.' !in b && '.' !in c
    ensures Split(a + "." + b + "." + c, '.') == [a, b, c]
  {
    assert a + "." + b + "." + c == a + ['.'] + (b + ['.'] + c);
    SplitFirst(a, b + ['.'] + c, '.');
    SplitFirst(b, c, '.');
    SplitWhole(c, '.');
  }

  lemma Rejoined(token: string)
    requires |Split(token, '.')| == 3
    ensures var parts := Split(token, '.');
            token == parts[0] + "." + parts[1] + "." + parts[2] && '.' !in parts[1]
  {
    hide Split;
    var parts := Split(token, '.');
    SplitParts(token, '.');
    assert parts[1..][1..] == [parts[2]];
    assert Join(parts[1..], '.') == parts[1] + ['.'] + parts[2];
    assert token == parts[0] + ['.'] + (parts[1] + ['.'] + parts[2]);
  }

  lemma TokenParts(k: Crypto, payload: string, secret: Bytes)
    requires '.' !in payload
    ensures Split(TokenOf(k, payload, secret), '.') == [HEADER, payload, Signature(k, payload, secret)]
  {
    HeaderHasNoDot();
    DecodeEncode(k.mac(secret, HEADER + "." + payload));
    ThreeParts(HEADER, payload, Signature(k, payload, secret));
  }

  /** Verifying a token signed with the same secret gives its claims back. */
  lemma VerifySigned(k: Crypto, c: Claims, secret: Bytes)
    requires RoundTrips(k) && k.clean(c)
    ensures Verify(k, Sign(k, c, secret), secret) == Ok(c)
  {
    var payload := Encode(k.enc(c));
    DecodeEncode(k.enc(c));
    assert Sign(k, c, secret) == TokenOf(k, payload, secret);
    TokenParts(k, payload, secret);
  }

  /** Exactly what is accepted: the fixed header, a dot-free payload segment that decodes to
      the claims, and the MAC of just those under the secret. */
  lemma Accepted(k: Crypto, token: string, secret: Bytes, c: Claims)
    ensures Verify(k, token, secret) == Ok(c) <==>
              exists payload :: && '.' !in payload && token == TokenOf(k, payload, secret)
                                && Decode(payload).Some? && k.dec(Decode(payload).value) == Some(c)
  {
    if Verify(k, token, secret) == Ok(c) {
      Rejoined(token);
      assert token == TokenOf(k, Split(token, '.')[1], secret);
    }
    if payload :| && '.' !in payload && token == TokenOf(k, payload, secret)
                  && Decode(payload).Some? && k.dec(Decode(payload).value) == Some(c)
    {
      TokenParts(k, payload, secret);
    }
  }

  /** A token signed under one secret passes under another only where the MAC cannot tell the two
      apart: so an access token is no refresh token, nor the other way round. */
  lemma SecretsSeparate(k: Crypto, c: Claims, one: Bytes, two: Bytes)
    ensures var hp := HEADER + "." + Encode(k.enc(c));
            (Verify(k, Sign(k, c, one), two) == Verify(k, Sign(k, c, one), one)
             && Verify(k, Sign(k, c, one), two) != BadSignature)
            <==> k.mac(one, hp) == k.mac(two, hp)
  {
    var payload := Encode(k.enc(c));
    DecodeEncode(k.enc(c));
    assert Sign(k, c, one) == TokenOf(k, payload, one);
    TokenParts(k, payload, one);
    DecodeEncode(k.mac(one, HEADER + "." + payload));
    DecodeEncode(k.mac(two, HEADER + "." + payload));
  }

  /** So an accepted token is fixed by its payload segment and the secret. */
  lemma AcceptedIsUnique(k: Crypto, one: string, two: string, secret: Bytes)
    requires Verify(k, one, secret).Ok? && Verify(k, two, secret).Ok?
    requires Split(one, '.')[1] == Split(two, '.')[1]
    ensures one == two && Verify(k, one, secret) == Verify(k, two, secret)
  {
    Rejoined(one);
    Rejoined(two);
  }
}
