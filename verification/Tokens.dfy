/** Self-issued tokens: base64url without padding, and signed claims with an expiry
    (autosys/app_server/auth.py). */
module Tokens {
  import opened Options
  import opened Permutations

  type byte = x: int | 0 <= x < 256

  // ----- base64url (section 5 of RFC 4648)

  function Char(v: int): char
    requires 0 <= v < 64
  {
    if v < 26 then ('A' as int + v) as char
    else if v < 52 then ('a' as int + v - 26) as char
    else if v < 62 then ('0' as int + v - 52) as char
    else if v == 62 then '-' else '_'
  }

  /** `urlsafe_b64decode` maps '-' and '_' to '+' and '/', which are also taken as is. */
  function Value(c: char): (v: Option<int>)
    ensures v.Some? ==> 0 <= v.value < 64
  {
    if 'A' <= c <= 'Z' then Some(c as int - 'A' as int)
    else if 'a' <= c <= 'z' then Some(c as int - 'a' as int + 26)
    else if '0' <= c <= '9' then Some(c as int - '0' as int + 52)
    else if c == '-' || c == '+' then Some(62)
    else if c == '_' || c == '/' then Some(63)
    else None
  }

  lemma ValueOfChar(v: int)
    requires 0 <= v < 64
    ensures Value(Char(v)) == Some(v) && Char(v) != '=' && Char(v) != '.'
  {
  }

  /** Four characters for three bytes. */
  function Quad(a: byte, b: byte, c: byte): string {
    [Char(a / 4), Char(a % 4 * 16 + b / 16), Char(b % 16 * 4 + c / 64), Char(c % 64)]
  }

  function Standard(data: seq<byte>): string {
    if |data| == 0 then ""
    else if |data| == 1 then Quad(data[0], 0, 0)[..2] + "=="
    else if |data| == 2 then Quad(data[0], data[1], 0)[..3] + "="
    else Quad(data[0], data[1], data[2]) + Standard(data[3..])
  }

  /** `rstrip("=")` */
  function Strip(s: string): string {
    if |s| > 0 && s[|s| - 1] == '=' then Strip(s[..|s| - 1]) else s
  }

  function Encode(data: seq<byte>): string {
    Strip(Standard(data))
  }

  function Pads(n: nat): string {
    if n == 0 then "" else "=" + Pads(n - 1)
  }

  /** The decoder of the standard library, in its lenient mode: `quad` characters of the
      current four are read, `left` are the bits not yet written, and characters outside
      the alphabet are skipped. */
  function Scan(s: string, quad: nat, left: int, pads: nat): Option<seq<byte>>
    requires quad < 4 && 0 <= left < (if quad == 1 then 64 else if quad == 2 then 16 else if quad == 3 then 4 else 1)
  {
    if |s| == 0 then (if quad == 0 then Some([]) else None)
    else if s[0] == '=' then
      if quad >= 2 && quad + pads + 1 >= 4 then Some([])
      else Scan(s[1..], quad, left, if quad >= 2 then pads + 1 else pads)
    else
      var v := Value(s[0]);
      if v.None? then Scan(s[1..], quad, left, pads)
      else if quad == 0 then Scan(s[1..], 1, v.value, 0)
      else if quad == 1 then Put(left * 4 + v.value / 16, Scan(s[1..], 2, v.value % 16, 0))
      else if quad == 2 then Put(left * 16 + v.value / 4, Scan(s[1..], 3, v.value % 4, 0))
      else Put(left * 64 + v.value, Scan(s[1..], 0, 0, 0))
  }

  function Put(b: byte, rest: Option<seq<byte>>): Option<seq<byte>> {
    if rest.Some? then Some([b] + rest.value) else None
  }

  function Decode(s: string): Option<seq<byte>> {
    Scan(s + Pads((4 - |s| % 4) % 4), 0, 0, 0)
  }

  /** The characters of an encoding: the standard one without its padding. */
  function Raw(data: seq<byte>): string {
    if |data| == 0 then ""
    else if |data| == 1 then Quad(data[0], 0, 0)[..2]
    else if |data| == 2 then Quad(data[0], data[1], 0)[..3]
    else Quad(data[0], data[1], data[2]) + Raw(data[3..])
  }

  predicate Plain(s: string) {
    forall i :: 0 <= i < |s| ==> s[i] != '=' && s[i] != '.'
  }

  lemma QuadIsPlain(a: byte, b: byte, c: byte)
    ensures Plain(Quad(a, b, c))
  {
    ValueOfChar(a / 4);
    ValueOfChar(a % 4 * 16 + b / 16);
    ValueOfChar(b % 16 * 4 + c / 64);
    ValueOfChar(c % 64);
  }

  lemma SamePads(n: nat)
    ensures (4 - n % 4) % 4 == (4 - (4 + n) % 4) % 4
  {
  }

  /** Four more plain characters in front change nothing about the padding. */
  lemma QuadInFront(quad: string, rest: string, standard: string)
    requires |quad| == 4 && Plain(quad) && Plain(rest) && standard == rest + Pads((4 - |rest| % 4) % 4)
    ensures Plain(quad + rest) && quad + standard == quad + rest + Pads((4 - |quad + rest| % 4) % 4)
  {
    SamePads(|rest|);
    ConcatAssociates(quad, rest, Pads((4 - |rest| % 4) % 4));
  }

  lemma OneByte(a: byte)
    ensures |Quad(a, 0, 0)[..2]| == 2 && Plain(Quad(a, 0, 0)[..2]) && "==" == Pads(2)
  {
    QuadIsPlain(a, 0, 0);
    assert Pads(2) == "=" + Pads(1);
  }

  lemma TwoBytes(a: byte, b: byte)
    ensures |Quad(a, b, 0)[..3]| == 3 && Plain(Quad(a, b, 0)[..3]) && "=" == Pads(1)
  {
    QuadIsPlain(a, b, 0);
    assert Pads(1) == "=" + Pads(0);
  }

  lemma {:induction false} RawFacts(data: seq<byte>)
    ensures Plain(Raw(data)) && Standard(data) == Raw(data) + Pads((4 - |Raw(data)| % 4) % 4)
  {
    if |data| == 0 {
    } else if |data| == 1 {
      OneByte(data[0]);
    } else if |data| == 2 {
      TwoBytes(data[0], data[1]);
    } else {
      QuadIsPlain(data[0], data[1], data[2]);
      RawFacts(data[3..]);
      QuadInFront(Quad(data[0], data[1], data[2]), Raw(data[3..]), Standard(data[3..]));
    }
  }

  lemma {:induction false} StripPads(s: string, n: nat)
    requires Plain(s)
    ensures Strip(s + Pads(n)) == s
  {
    if n == 0 {
      assert s + Pads(0) == s;
    } else {
      PadsLast(n);
      assert (s + Pads(n))[..|s + Pads(n)| - 1] == s + Pads(n - 1);
      StripPads(s, n - 1);
    }
  }

  lemma {:induction false} PadsLast(n: nat)
    requires n > 0
    ensures |Pads(n)| == n && Pads(n)[n - 1] == '=' && Pads(n)[..n - 1] == Pads(n - 1)
  {
    if n > 1 {
      PadsLast(n - 1);
      assert Pads(n)[..n - 1] == "=" + Pads(n - 1)[..n - 2];
    }
  }

  /** Stripping removes padding only, and the padding that decoding adds by the length
      modulo four is exactly what was stripped. */
  lemma PaddingIsRestored(data: seq<byte>)
    ensures Standard(data) == Encode(data) + Pads((4 - |Encode(data)| % 4) % 4)
    ensures Encode(data) == Raw(data) && Plain(Encode(data))
  {
    RawFacts(data);
    StripPads(Raw(data), (4 - |Raw(data)| % 4) % 4);
  }

  lemma Digits16(high: int, low: int)
    requires 0 <= low < 16
    ensures (high * 16 + low) / 16 == high && (high * 16 + low) % 16 == low
  {
  }

  lemma Digits4(high: int, low: int)
    requires 0 <= low < 4
    ensures (high * 4 + low) / 4 == high && (high * 4 + low) % 4 == low
  {
  }

  lemma ScanQuad(a: byte, b: byte, c: byte, rest: string)
    ensures Scan(Quad(a, b, c) + rest, 0, 0, 0) == Put(a, Put(b, Put(c, Scan(rest, 0, 0, 0))))
  {
    var s0 := Quad(a, b, c) + rest;
    var s1, s2, s3 := s0[1..], s0[2..], s0[3..];
    ValueOfChar(a / 4);
    ValueOfChar(a % 4 * 16 + b / 16);
    ValueOfChar(b % 16 * 4 + c / 64);
    ValueOfChar(c % 64);
    Digits16(a % 4, b / 16);
    Digits4(b % 16, c / 64);
    assert s3[1..] == rest && s2[1..] == s3 && s1[1..] == s2;
    assert Scan(s3, 3, c / 64, 0) == Put(c, Scan(rest, 0, 0, 0));
    assert Scan(s2, 2, b / 16, 0) == Put(b, Scan(s3, 3, c / 64, 0));
    assert Scan(s1, 1, a / 4, 0) == Put(a, Scan(s2, 2, b / 16, 0));
  }

  lemma ScanOne(a: byte)
    ensures Scan(Quad(a, 0, 0)[..2] + "==", 0, 0, 0) == Some([a])
  {
    var c0, c1 := Char(a / 4), Char(a % 4 * 16);
    var s := [c0, c1, '=', '='];
    assert Quad(a, 0, 0)[..2] + "==" == s;
    ValueOfChar(a / 4);
    ValueOfChar(a % 4 * 16);
    Digits16(a % 4, 0);
    assert s[1..] == [c1, '=', '='] && [c1, '=', '='][1..] == ['=', '='] && ['=', '='][1..] == ['='];
    assert Scan(['='], 2, 0, 1) == Some([]);
    assert Scan(['=', '='], 2, 0, 0) == Some([]);
    assert Scan([c1, '=', '='], 1, a / 4, 0) == Put(a, Some([]));
    assert Scan(s, 0, 0, 0) == Put(a, Some([]));
    assert [a] + [] == [a];
  }

  lemma ScanTwo(a: byte, b: byte)
    ensures Scan(Quad(a, b, 0)[..3] + "=", 0, 0, 0) == Some([a, b])
  {
    var c0, c1, c2 := Char(a / 4), Char(a % 4 * 16 + b / 16), Char(b % 16 * 4);
    var s := [c0, c1, c2, '='];
    assert Quad(a, b, 0)[..3] + "=" == s;
    ValueOfChar(a / 4);
    ValueOfChar(a % 4 * 16 + b / 16);
    ValueOfChar(b % 16 * 4);
    Digits16(a % 4, b / 16);
    Digits4(b % 16, 0);
    assert s[1..] == [c1, c2, '='] && [c1, c2, '='][1..] == [c2, '='] && [c2, '='][1..] == ['='];
    assert Scan(['='], 3, 0, 0) == Some([]);
    assert Scan([c2, '='], 2, b / 16, 0) == Put(b, Some([]));
    assert Scan([c1, c2, '='], 1, a / 4, 0) == Put(a, Put(b, Some([])));
    assert Scan(s, 0, 0, 0) == Put(a, Put(b, Some([])));
    assert [a] + ([b] + []) == [a, b];
  }

  lemma {:induction false} ScanStandard(data: seq<byte>)
    ensures Scan(Standard(data), 0, 0, 0) == Some(data)
  {
    if |data| == 0 {
    } else if |data| == 1 {
      ScanOne(data[0]);
      assert data == [data[0]];
    } else if |data| == 2 {
      ScanTwo(data[0], data[1]);
      assert data == [data[0], data[1]];
    } else {
      ScanStandard(data[3..]);
      ScanQuad(data[0], data[1], data[2], Standard(data[3..]));
      assert data == [data[0]] + ([data[1]] + ([data[2]] + data[3..]));
    }
  }

  /** Decoding undoes encoding, for every byte string. */
  lemma DecodeEncode(data: seq<byte>)
    ensures Decode(Encode(data)) == Some(data)
  {
    PaddingIsRestored(data);
    ScanStandard(data);
  }

  // ----- signed tokens

  /** What a claim can be; `Other` stands for null, lists and objects. */
  datatype Claim = Text(text: string) | Number(number: real) | Flag(flag: bool) | Other

  type Claims = map<string, Claim>

  /** HMAC-SHA256 under the configured secret, and JSON.  They are arbitrary functions;
      where it matters, reading back what was written gives the same claims. */
  datatype Primitives = Primitives(mac: string -> seq<byte>, dumps: Claims -> seq<byte>,
      loads: seq<byte> -> Option<Claims>)

  /** JSON reads back what it wrote of these claims. */
  predicate ReadsBack(p: Primitives, claims: Claims) {
    p.loads(p.dumps(claims)) == Some(claims)
  }

  datatype Error = Malformed | BadSignature | NotJson | Expired | BadExpiry | WrongAudience

  datatype Result = Ok(claims: Claims) | Err(error: Error)

  /** `token.split(".")` */
  function Split(s: string): (parts: seq<string>)
    ensures |parts| > 0
  {
    if |s| == 0 then [""]
    else
      var rest := Split(s[1..]);
      if s[0] == '.' then [""] + rest else [[s[0]] + rest[0]] + rest[1..]
  }

  function Join(header: string, payload: string): string {
    header + "." + payload
  }

  function Sign(p: Primitives, signed: string): string {
    Encode(p.mac(signed))
  }

  const HEADER: Claims := map["alg" := Text("HS256"), "typ" := Text("JWT")]

  /** `int(time.time())`, for a clock past the epoch. */
  function Seconds(time: real): int {
    time.Floor
  }

  /** The claims of a token issued at `time`. */
  function Stamped(claims: Claims, ttl: int, time: real): Claims {
    claims["iat" := Number(Seconds(time) as real)]["exp" := Number((Seconds(time) + ttl) as real)]
  }

  function EncodeJwt(p: Primitives, claims: Claims, ttl: int, time: real): string {
    var header := Encode(p.dumps(HEADER));
    var payload := Encode(p.dumps(Stamped(claims, ttl, time)));
    Join(Join(header, payload), Sign(p, Join(header, payload)))
  }

  /** What a claim compares as; a boolean is one or zero. */
  function Instant(c: Claim): Option<real> {
    match c
    case Number(number) => Some(number)
    case Flag(flag) => Some(if flag then 1.0 else 0.0)
    case _ => None
  }

  /** `claims.get("exp", 0) < time.time()`; the comparison raises for other claims. */
  function CheckExpiry(claims: Claims, now: real): Result {
    var expiry := if "exp" in claims then Instant(claims["exp"]) else Some(0.0);
    if expiry.None? then Err(BadExpiry)
    else if expiry.value < now then Err(Expired)
    else Ok(claims)
  }

  function DecodeJwt(p: Primitives, token: string, now: real): Result {
    var parts := Split(token);
    if |parts| != 3 then Err(Malformed)
    else if parts[2] != Sign(p, Join(parts[0], parts[1])) then Err(BadSignature)
    else
      var payload := Decode(parts[1]);
      if payload.None? then Err(NotJson)
      else
        var claims := p.loads(payload.value);
        if claims.None? then Err(NotJson) else CheckExpiry(claims.value, now)
  }

  lemma {:induction false} SplitPlain(s: string)
    requires Plain(s)
    ensures Split(s) == [s]
  {
    if |s| > 0 {
      SplitPlain(s[1..]);
      assert [s[0]] + s[1..] == s;
    }
  }

  lemma {:induction false} SplitDot(s: string, rest: string)
    requires Plain(s)
    ensures Split(s + ("." + rest)) == [s] + Split(rest)
  {
    var t := s + ("." + rest);
    if |s| == 0 {
      assert t == "." + rest && t[1..] == rest;
    } else {
      SplitDot(s[1..], rest);
      assert t[1..] == s[1..] + ("." + rest);
      assert Split(t[1..])[0] == s[1..] && Split(t[1..])[1..] == Split(rest);
      assert [s[0]] + s[1..] == s;
    }
  }

  /** Three plain parts joined by dots split into these three parts. */
  lemma ThreeParts(a: string, b: string, c: string)
    requires Plain(a) && Plain(b) && Plain(c)
    ensures Split(Join(Join(a, b), c)) == [a, b, c]
  {
    assert Join(Join(a, b), c) == a + ("." + (b + ("." + c)));
    SplitDot(a, b + ("." + c));
    SplitDot(b, c);
    SplitPlain(c);
  }

  /** A token always splits into exactly three parts, and decodes to its own claims up to
      and including the instant of its expiry, whatever the signing function is. */
  lemma TokenRoundTrip(p: Primitives, claims: Claims, ttl: int, time: real, now: real)
    requires ReadsBack(p, Stamped(claims, ttl, time))
    ensures |Split(EncodeJwt(p, claims, ttl, time))| == 3
    ensures DecodeJwt(p, EncodeJwt(p, claims, ttl, time), now)
              == if now <= (Seconds(time) + ttl) as real then Ok(Stamped(claims, ttl, time)) else Err(Expired)
  {
    var header := Encode(p.dumps(HEADER));
    var data := p.dumps(Stamped(claims, ttl, time));
    PaddingIsRestored(p.dumps(HEADER));
    PaddingIsRestored(data);
    PaddingIsRestored(p.mac(Join(header, Encode(data))));
    ThreeParts(header, Encode(data), Sign(p, Join(header, Encode(data))));
    DecodeEncode(data);
  }

  function Rejoin(parts: seq<string>): string
    requires |parts| > 0
  {
    if |parts| == 1 then parts[0] else parts[0] + ("." + Rejoin(parts[1..]))
  }

  lemma {:induction false} RejoinSplit(s: string)
    ensures Rejoin(Split(s)) == s
  {
    if |s| > 0 {
      var rest, parts := Split(s[1..]), Split(s);
      RejoinSplit(s[1..]);
      if s[0] == '.' {
        assert parts[1..] == rest;
        assert "" + ("." + s[1..]) == s;
      } else if |rest| == 1 {
        assert [s[0]] + s[1..] == s;
      } else {
        assert parts[1..] == rest[1..];
        assert [s[0]] + rest[0] + ("." + Rejoin(rest[1..])) == [s[0]] + (rest[0] + ("." + Rejoin(rest[1..])));
        assert [s[0]] + s[1..] == s;
      }
    }
  }

  /** Every accepted string is a header and a payload followed by the encoded HMAC of the
      two. */
  lemma AcceptedIsSigned(p: Primitives, token: string, now: real) returns (signed: string)
    requires DecodeJwt(p, token, now).Ok?
    ensures |Split(token)| == 3 && signed == Split(token)[0] + "." + Split(token)[1]
    ensures token == signed + "." + Encode(p.mac(signed))
  {
    var parts := Split(token);
    RejoinSplit(token);
    signed := Join(parts[0], parts[1]);
    var tail := parts[1..];
    assert tail[1..] == [parts[2]] && Rejoin(tail[1..]) == parts[2];
    assert Rejoin(tail) == parts[1] + ("." + parts[2]);
    assert Rejoin(parts) == parts[0] + ("." + Rejoin(tail));
    assert parts[0] + ("." + (parts[1] + ("." + parts[2]))) == Join(signed, parts[2]);
  }

  /** The third part of an accepted string decodes to the HMAC of all that is before it. */
  lemma SignatureCoversTheRest(p: Primitives, token: string, now: real)
    requires DecodeJwt(p, token, now).Ok?
    ensures var parts := Split(token); |parts| == 3 && Decode(parts[2]) == Some(p.mac(parts[0] + "." + parts[1]))
  {
    DecodeEncode(p.mac(Split(token)[0] + "." + Split(token)[1]));
  }

  ghost predicate Injective(mac: string -> seq<byte>) {
    forall a, b :: mac(a) == mac(b) ==> a == b
  }

  /** If no two texts have the same HMAC, an accepted string cannot be changed and keep its
      signature. */
  lemma SameSignatureSameToken(p: Primitives, token: string, now: real, other: string, later: real)
    requires Injective(p.mac) && DecodeJwt(p, token, now).Ok? && DecodeJwt(p, other, later).Ok?
    requires Split(token)[|Split(token)| - 1] == Split(other)[|Split(other)| - 1]
    ensures token == other
  {
    var a := AcceptedIsSigned(p, token, now);
    var b := AcceptedIsSigned(p, other, later);
    SignatureCoversTheRest(p, token, now);
    SignatureCoversTheRest(p, other, later);
    assert p.mac(a) == p.mac(b);
  }

  /** An accepted string carries the claims in its second part, and they have not expired:
      without an expiry they have after the epoch, and an expiry that is not a number is
      never accepted. */
  lemma AcceptedIsUnexpired(p: Primitives, token: string, now: real)
    requires DecodeJwt(p, token, now).Ok?
    ensures |Split(token)| == 3 && Decode(Split(token)[1]).Some?
    ensures var claims := DecodeJwt(p, token, now).claims;
      && p.loads(Decode(Split(token)[1]).value) == Some(claims)
      && ("exp" !in claims ==> now <= 0.0)
      && ("exp" in claims ==>
            match claims["exp"]
            case Number(number) => now <= number
            case Flag(flag) => now <= 0.0 || (flag && now <= 1.0)
            case _ => false)
  {
  }

  /** Section 4.1.4 of RFC 7519 rejects a token on its expiry; this decoder differs from
      it at that one instant. */
  lemma DiffersFromRfcIff(p: Primitives, claims: Claims, ttl: int, time: real, now: real)
    requires ReadsBack(p, Stamped(claims, ttl, time))
    ensures (DecodeJwt(p, EncodeJwt(p, claims, ttl, time), now).Ok? <==> now < (Seconds(time) + ttl) as real) <==>
              now != (Seconds(time) + ttl) as real
  {
    TokenRoundTrip(p, claims, ttl, time, now);
  }

  // ----- session and state tokens

  const SESSION_AUD := Text("wcc-session")
  const SESSION_ISS := Text("autosys-simulator")
  const STATE_AUD := Text("wcc-oidc-state")
  const STATE_TTL := 600

  predicate Has(claims: Claims, name: string, value: Claim) {
    name in claims && claims[name] == value
  }

  function SessionClaims(username: string, role: string): Claims {
    map["sub" := Text(username), "role" := Text(role), "iss" := SESSION_ISS, "aud" := SESSION_AUD]
  }

  function StateClaims(state: string, nonce: string, codeVerifier: string, nextPath: string): Claims {
    map["aud" := STATE_AUD, "state" := Text(state), "nonce" := Text(nonce), "code_verifier" := Text(codeVerifier),
        "next" := Text(nextPath)]
  }

  function DecodeSession(p: Primitives, token: string, now: real): Result {
    var r := DecodeJwt(p, token, now);
    if r.Err? then r
    else if !Has(r.claims, "iss", SESSION_ISS) || !Has(r.claims, "aud", SESSION_AUD) then Err(WrongAudience)
    else r
  }

  function DecodeState(p: Primitives, token: string, now: real): Result {
    var r := DecodeJwt(p, token, now);
    if r.Err? then r
    else if !Has(r.claims, "aud", STATE_AUD) then Err(WrongAudience)
    else r
  }

  /** A session token decodes as a session token until it expires, and at no time as a
      state token; a state token the other way round. */
  lemma SessionsAreNotStates(p: Primitives, username: string, role: string, ttl: int, time: real, now: real)
    requires ReadsBack(p, Stamped(SessionClaims(username, role), ttl, time))
    ensures var token := EncodeJwt(p, SessionClaims(username, role), ttl, time);
      && DecodeSession(p, token, now) ==
           (if now <= (Seconds(time) + ttl) as real then Ok(Stamped(SessionClaims(username, role), ttl, time)) else
               Err(Expired))
      && DecodeState(p, token, now).Err?
  {
    TokenRoundTrip(p, SessionClaims(username, role), ttl, time, now);
  }

  lemma StatesAreNotSessions(p: Primitives, state: string, nonce: string, verifier: string, next: string, time: real,
                             now: real)
    requires ReadsBack(p, Stamped(StateClaims(state, nonce, verifier, next), STATE_TTL, time))
    ensures var token := EncodeJwt(p, StateClaims(state, nonce, verifier, next), STATE_TTL, time);
      && DecodeState(p, token, now) ==
           (if now <= (Seconds(time) + STATE_TTL) as real
            then Ok(Stamped(StateClaims(state, nonce, verifier, next), STATE_TTL, time)) else Err(Expired))
      && DecodeSession(p, token, now).Err?
  {
    TokenRoundTrip(p, StateClaims(state, nonce, verifier, next), STATE_TTL, time, now);
  }

  /** Of the tokens of this application, whatever their claims, exactly those issued as
      sessions are accepted as such, and exactly those issued for a state as that. */
  lemma AudienceDecides(p: Primitives, claims: Claims, ttl: int, time: real, now: real)
    requires ReadsBack(p, Stamped(claims, ttl, time)) && now <= (Seconds(time) + ttl) as real
    ensures var token := EncodeJwt(p, claims, ttl, time);
      && (DecodeSession(p, token, now).Ok? <==>
            && "iss" in claims && claims["iss"] == Text("autosys-simulator")
            && "aud" in claims && claims["aud"] == Text("wcc-session"))
      && (DecodeState(p, token, now).Ok? <==> "aud" in claims && claims["aud"] == Text("wcc-oidc-state"))
  {
    TokenRoundTrip(p, claims, ttl, time, now);
  }

  /** Claims issued at `time`: those given, the time in whole seconds, and the expiry. */
  ghost predicate IssuedAt(issued: Claims, claims: Claims, ttl: int, time: real) {
    && (forall name :: name != "iat" && name != "exp" ==> (name in issued <==> name in claims))
    && (forall name :: name != "iat" && name != "exp" && name in claims ==> issued[name] == claims[name])
    && "iat" in issued && "exp" in issued && issued["iat"].Number? && issued["exp"].Number?
    && issued["iat"].number <= time < issued["iat"].number + 1.0
    && issued["exp"].number == issued["iat"].number + ttl as real
  }

  /** A token lives its time: it decodes up to a second before `ttl` is over at the least,
      and not at all after it; and it carries its claims, besides the times of its issue
      and its expiry. */
  lemma TokenLives(p: Primitives, claims: Claims, ttl: int, time: real, now: real)
    requires ReadsBack(p, Stamped(claims, ttl, time))
    ensures var r := DecodeJwt(p, EncodeJwt(p, claims, ttl, time), now);
      && (now <= time + ttl as real - 1.0 ==> r.Ok?)
      && (now > time + ttl as real ==> r == Err(Expired))
      && (r.Ok? ==> IssuedAt(r.claims, claims, ttl, time))
  {
    TokenRoundTrip(p, claims, ttl, time, now);
  }

  /** No string at all, whoever made it, is accepted as both. */
  lemma NeverBoth(p: Primitives, token: string, now: real, later: real)
    ensures !(DecodeSession(p, token, now).Ok? && DecodeState(p, token, later).Ok?)
  {
  }
}
