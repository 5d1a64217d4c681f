/** UTF-8 (sections 3 and 4 of RFC 3629), and the truncation that keeps it valid. */
module Utf8 {
  import opened Outcomes

  type byte = b: int | 0 <= b < 256

  /** What a Python string holds: any code point, surrogates included. */
  type CodePoint = c: int | 0 <= c < 0x11_0000

  predicate Surrogate(c: CodePoint) {
    0xD800 <= c < 0xE000
  }

  predicate Encodable(s: seq<CodePoint>) {
    forall i :: 0 <= i < |s| ==> !Surrogate(s[i])
  }

  function Size(c: CodePoint): nat {
    if c < 0x80 then 1 else if c < 0x800 then 2 else if c < 0x1_0000 then 3 else 4
  }

  function EncodeOne(c: CodePoint): (r: seq<byte>)
    ensures |r| == Size(c)
  {
    if c < 0x80 then [c]
    else if c < 0x800 then [0xC0 + c / 64, 0x80 + c % 64]
    else if c < 0x1_0000 then [0xE0 + c / 64 / 64, 0x80 + c / 64 % 64, 0x80 + c % 64]
    else [0xF0 + c / 64 / 64 / 64, 0x80 + c / 64 / 64 % 64, 0x80 + c / 64 % 64, 0x80 + c % 64]
  }

  function EncodeAll(s: seq<CodePoint>): seq<byte> {
    if s == [] then [] else EncodeOne(s[0]) + EncodeAll(s[1..])
  }

  /** str.encode: a surrogate raises. */
  function Encode(s: seq<CodePoint>): Result<seq<byte>> {
    if Encodable(s) then Ok(EncodeAll(s)) else Raised
  }

  /** The examples of section 7 of RFC 3629, code point by code point. */
  lemma Rfc3629Examples()
    ensures EncodeOne(0x41) == [0x41] && EncodeOne(0x2262) == [0xE2, 0x89, 0xA2] && EncodeOne(0x0391) == [0xCE, 0x91]
    ensures EncodeOne(0xD55C) == [0xED, 0x95, 0x9C] && EncodeOne(0xAD6D) == [0xEA, 0xB5, 0xAD] && EncodeOne(0xC5B4) == [0xEC, 0x96, 0xB4]
    ensures EncodeOne(0x65E5) == [0xE6, 0x97, 0xA5] && EncodeOne(0x672C) == [0xE6, 0x9C, 0xAC] && EncodeOne(0x8A9E) == [0xE8, 0xAA, 0x9E]
    ensures EncodeOne(0xFEFF) == [0xEF, 0xBB, 0xBF] && EncodeOne(0x233B4) == [0xF0, 0xA3, 0x8E, 0xB4]
  {
  }

  predicate Tail(b: byte) {
    0x80 <= b < 0xC0
  }

  /** How many bytes the code point at the front takes, 0 when the bytes are not valid there. */
  function FrontSize(bs: seq<byte>): nat
    requires bs != []
  {
    var b := bs[0];
    if b < 0x80 then 1
    else if 0xC2 <= b < 0xE0 then (if |bs| >= 2 && Tail(bs[1]) then 2 else 0)
    else if 0xE0 <= b < 0xF0 then
      (if |bs| >= 3 && Tail(bs[1]) && Tail(bs[2]) && (b == 0xE0 ==> bs[1] >= 0xA0) && (b == 0xED ==> bs[1] < 0xA0) then 3 else 0)
    else if 0xF0 <= b < 0xF5 then
      (if |bs| >= 4 && Tail(bs[1]) && Tail(bs[2]) && Tail(bs[3]) && (b == 0xF0 ==> bs[1] >= 0x90) && (b == 0xF4 ==> bs[1] < 0x90)
       then 4 else 0)
    else 0
  }

  function Payload(b: byte): int {
    b as int - 0x80
  }

  /** Six payload bits per byte after the lead's. */
  function Joined(lead: int, tail: seq<byte>): int {
    if tail == [] then lead else Joined(lead, tail[..|tail| - 1]) * 64 + Payload(tail[|tail| - 1])
  }

  lemma JoinedOne(lead: int, tail: seq<byte>)
    ensures |tail| == 1 ==> Joined(lead, tail) == lead * 64 + Payload(tail[0])
    ensures |tail| == 2 ==> Joined(lead, tail) == (lead * 64 + Payload(tail[0])) * 64 + Payload(tail[1])
    ensures |tail| == 3 ==> Joined(lead, tail) == ((lead * 64 + Payload(tail[0])) * 64 + Payload(tail[1])) * 64 + Payload(tail[2])
  {
    if |tail| == 2 {
      assert tail[..1] == [tail[0]];
    } else if |tail| == 3 {
      assert tail[..2][..1] == [tail[0]];
    }
  }

  function LeadBits(b: byte, n: nat): int {
    if n == 1 then b else if n == 2 then b - 0xC0 else if n == 3 then b - 0xE0 else b - 0xF0
  }

  lemma FrontInRange(bs: seq<byte>)
    requires bs != [] && 0 < FrontSize(bs) <= |bs|
    ensures 0 <= Joined(LeadBits(bs[0], FrontSize(bs)), bs[1..FrontSize(bs)]) < 0x11_0000
  {
    JoinedOne(LeadBits(bs[0], FrontSize(bs)), bs[1..FrontSize(bs)]);
  }

  function Front(bs: seq<byte>): CodePoint
    requires bs != [] && 0 < FrontSize(bs) <= |bs|
  {
    FrontInRange(bs);
    Joined(LeadBits(bs[0], FrontSize(bs)), bs[1..FrontSize(bs)])
  }

  /** bytes.decode, strict: Raised for anything that is not UTF-8. */
  function Decode(bs: seq<byte>): Result<seq<CodePoint>> {
    if bs == [] then Ok([])
    else
      var n := FrontSize(bs);
      if n == 0 || n > |bs| then Raised
      else
        var rest := Decode(bs[n..]);
        if rest.Ok? then Ok([Front(bs)] + rest.value) else Raised
  }

  lemma Euclid(c: nat)
    ensures c == c / 64 * 64 + c % 64 && 0 <= c % 64 < 64
    ensures c < 0x800 ==> c / 64 < 32
    ensures c < 0x1_0000 ==> c / 64 / 64 < 16
    ensures c < 0x11_0000 ==> c / 64 / 64 / 64 < 5
  {
  }

  lemma FrontSizeOfEncoded(c: CodePoint, rest: seq<byte>)
    requires !Surrogate(c)
    ensures FrontSize(EncodeOne(c) + rest) == Size(c)
  {
    var bs := EncodeOne(c) + rest;
    if 0x800 <= c < 0x1_0000 {
      assert bs[0] == 0xE0 + c / 64 / 64 && bs[1] == 0x80 + c / 64 % 64 && bs[2] == 0x80 + c % 64;
    } else if c >= 0x1_0000 {
      assert bs[0] == 0xF0 + c / 64 / 64 / 64 && bs[1] == 0x80 + c / 64 / 64 % 64;
      assert bs[2] == 0x80 + c / 64 % 64 && bs[3] == 0x80 + c % 64;
    }
  }

  /** A code point is recovered from its bytes, whatever follows. */
  lemma FrontOfEncoded(c: CodePoint, rest: seq<byte>)
    requires !Surrogate(c)
    ensures FrontSize(EncodeOne(c) + rest) == Size(c) && Front(EncodeOne(c) + rest) == c
  {
    var bs := EncodeOne(c) + rest;
    FrontSizeOfEncoded(c, rest);
    JoinedOne(LeadBits(bs[0], Size(c)), bs[1..Size(c)]);
    Euclid(c);
    Euclid(c / 64);
    Euclid(c / 64 / 64);
    assert bs[1..Size(c)] == EncodeOne(c)[1..];
  }

  /** The first bytes of a code point are never the whole of one. */
  lemma CutIsInvalid(c: CodePoint, n: nat)
    requires !Surrogate(c) && 0 < n < Size(c)
    ensures FrontSize(EncodeOne(c)[..n]) == 0
  {
  }

  lemma {:induction false} DecodeInvertsEncode(s: seq<CodePoint>)
    requires Encodable(s)
    ensures Decode(EncodeAll(s)) == Ok(s)
  {
    if s != [] {
      DecodeCons(s[0], EncodeAll(s[1..]));
      DecodeInvertsEncode(s[1..]);
      assert [s[0]] + s[1..] == s;
    }
  }

  lemma DecodeCons(c: CodePoint, rest: seq<byte>)
    requires !Surrogate(c)
    ensures Decode(EncodeOne(c) + rest) == if Decode(rest).Ok? then Ok([c] + Decode(rest).value) else Raised
  {
    hide EncodeOne, FrontSize, Front;
    FrontOfEncoded(c, rest);
    assert (EncodeOne(c) + rest)[Size(c)..] == rest;
  }

  lemma EncodedFront(bs: seq<byte>)
    requires bs != [] && 0 < FrontSize(bs) <= |bs|
    ensures !Surrogate(Front(bs)) && Size(Front(bs)) == FrontSize(bs)
    ensures EncodeOne(Front(bs)) == bs[..FrontSize(bs)]
  {
    var n := FrontSize(bs);
    var lead := LeadBits(bs[0], n);
    JoinedOne(lead, bs[1..n]);
    if n >= 2 { SixBits(lead, Payload(bs[1])); }
    if n >= 3 { SixBits(lead * 64 + Payload(bs[1]), Payload(bs[2])); }
    if n == 4 { SixBits((lead * 64 + Payload(bs[1])) * 64 + Payload(bs[2]), Payload(bs[3])); }
  }

  lemma SixBits(high: int, low: int)
    requires 0 <= low < 64
    ensures (high * 64 + low) / 64 == high && (high * 64 + low) % 64 == low
  {
  }

  /** Strict decoding accepts nothing but encodings. */
  lemma {:induction false} EncodeInvertsDecode(bs: seq<byte>)
    requires Decode(bs).Ok?
    ensures Encodable(Decode(bs).value) && EncodeAll(Decode(bs).value) == bs
  {
    hide EncodeOne, FrontSize, Front;
    if bs != [] {
      var n := FrontSize(bs);
      EncodedFront(bs);
      EncodeInvertsDecode(bs[n..]);
      var s := Decode(bs).value;
      assert s[1..] == Decode(bs[n..]).value;
      assert bs[..n] + bs[n..] == bs;
    }
  }

  /** ---- cutting an encoding ---- */

  /** The bytes of the first k code points. */
  function Width(s: seq<CodePoint>, k: nat): nat
    requires k <= |s|
  {
    if k == 0 then 0 else Width(s, k - 1) + Size(s[k - 1])
  }

  /** The most code points whose bytes fit. */
  function Fitting(s: seq<CodePoint>, room: nat): (k: nat)
    ensures k <= |s| && Width(s, k) <= room
    ensures k < |s| ==> Width(s, k + 1) > room
  {
    FittingFrom(s, room, 0)
  }

  function FittingFrom(s: seq<CodePoint>, room: nat, k: nat): (r: nat)
    requires k <= |s| && Width(s, k) <= room
    ensures k <= r <= |s| && Width(s, r) <= room
    ensures r < |s| ==> Width(s, r + 1) > room
    decreases |s| - k
  {
    if k < |s| && Width(s, k + 1) <= room then FittingFrom(s, room, k + 1) else k
  }

  lemma {:induction false} WidthGrows(s: seq<CodePoint>, j: nat, k: nat)
    requires j <= k <= |s|
    ensures Width(s, j) + (k - j) <= Width(s, k)
    decreases k - j
  {
    if j < k { WidthGrows(s, j, k - 1); }
  }

  /** `Fitting` is the largest prefix that fits, not just one that cannot grow by one. */
  lemma FittingIsLargest(s: seq<CodePoint>, room: nat, j: nat)
    requires j <= |s| && Width(s, j) <= room
    ensures j <= Fitting(s, room)
  {
    var k := Fitting(s, room);
    if j > k { WidthGrows(s, k + 1, j); }
  }

  lemma {:induction false} EncodePrefix(s: seq<CodePoint>, k: nat)
    requires k <= |s|
    ensures |EncodeAll(s[..k])| == Width(s, k)
    ensures Width(s, k) <= |EncodeAll(s)| && EncodeAll(s)[..Width(s, k)] == EncodeAll(s[..k])
    ensures EncodeAll(s) == EncodeAll(s[..k]) + EncodeAll(s[k..])
  {
    hide EncodeOne;
    if k == 0 {
      assert s[..0] == [] && s[0..] == s;
    } else {
      assert s[..k][1..] == s[1..][..k - 1] && s[1..][k - 1..] == s[k..];
      EncodePrefix(s[1..], k - 1);
      WidthShift(s, k);
      assert EncodeAll(s[..k]) == EncodeOne(s[0]) + EncodeAll(s[1..][..k - 1]);
    }
  }

  lemma {:induction false} WidthShift(s: seq<CodePoint>, k: nat)
    requires 0 < k <= |s|
    ensures Width(s, k) == Size(s[0]) + Width(s[1..], k - 1)
  {
    if k > 1 { WidthShift(s, k - 1); }
  }

  /** Decoding after a run of whole code points. */
  lemma {:induction false} DecodeAfter(s: seq<CodePoint>, rest: seq<byte>)
    requires Encodable(s)
    ensures Decode(EncodeAll(s) + rest) == if Decode(rest).Ok? then Ok(s + Decode(rest).value) else Raised
  {
    hide EncodeOne, FrontSize, Front;
    if s == [] {
      assert EncodeAll(s) + rest == rest;
      if Decode(rest).Ok? { assert [] + Decode(rest).value == Decode(rest).value; }
    } else {
      assert EncodeAll(s) + rest == EncodeOne(s[0]) + (EncodeAll(s[1..]) + rest);
      DecodeAfter(s[1..], rest);
      DecodeCons(s[0], EncodeAll(s[1..]) + rest);
      hide Decode;
      if Decode(rest).Ok? { assert [s[0]] + (s[1..] + Decode(rest).value) == s + Decode(rest).value; }
    }
  }

  /** A prefix that ends inside code point k does not decode; one that ends before it gives the first k. */
  lemma CutDecodes(s: seq<CodePoint>, k: nat, m: nat)
    requires Encodable(s) && k <= |s| && Width(s, k) <= m <= |EncodeAll(s)|
    requires k < |s| ==> m < Width(s, k + 1)
    ensures Decode(EncodeAll(s)[..m]) == if m == Width(s, k) then Ok(s[..k]) else Raised
  {
    EncodePrefix(s, k);
    var whole, over := EncodeAll(s[..k]), m - Width(s, k);
    if k == |s| {
      assert s[k..] == [] && m == Width(s, k);
    }
    if over == 0 {
      DecodeInvertsEncode(s[..k]);
    } else {
      var rest := EncodeAll(s[k..]);
      assert rest == EncodeOne(s[k]) + EncodeAll(s[k..][1..]);
      assert EncodeAll(s)[..m] == whole + rest[..over];
      assert rest[..over] == EncodeOne(s[k])[..over];
      CutIsInvalid(s[k], over);
      DecodeAfter(s[..k], rest[..over]);
    }
  }

  /** ---- trim_utf8_bytes ---- */

  const Dots: seq<CodePoint> := [0x2E, 0x2E, 0x2E]

  function Repeat(c: CodePoint, n: nat): seq<CodePoint> {
    seq(n, _ => c)
  }

  /** What the truncation promises: the longest prefix of code points that leaves room for three dots. */
  function Trimmed(s: seq<CodePoint>, limit: int): seq<CodePoint> {
    if |EncodeAll(s)| <= limit then s
    else if limit <= 3 then Repeat(0x2E, Max(limit, 0))
    else s[..Fitting(s, limit - 3)] + Dots
  }

  /** The result is `Trimmed`, and the loop gives up at most three bytes of its cut. */
  method TrimUtf8Bytes(text: seq<CodePoint>, limit: int) returns (r: Result<(seq<CodePoint>, bool)>, ghost dropped: nat)
    ensures r.Raised? <==> !Encodable(text)
    ensures r.Ok? ==> r.value == (Trimmed(text, limit), |EncodeAll(text)| > limit)
    ensures r.Ok? && |EncodeAll(text)| <= limit ==> r.value.0 == text
    ensures r.Ok? && |EncodeAll(text)| > limit && limit <= 3 ==> r.value.0 == seq(Max(limit, 0), _ => 0x2E)
    ensures dropped <= 3
  {
    hide EncodeAll, Decode, Width;
    dropped := 0;
    var encoding := Encode(text);
    if encoding.Raised? {
      return Raised, 0;
    }
    var encoded := encoding.value;
    if |encoded| <= limit {
      return Ok((text, false)), 0;
    }
    if limit <= 3 {
      return Ok((Repeat(0x2E, Max(limit, 0)), true)), 0;
    }
    var cut := limit - 3;
    var truncated := encoded[..cut];
    ghost var k := Fitting(text, cut);
    FittingIsShort(text, cut);
    while truncated != []
      invariant Width(text, k) <= |truncated| <= cut && truncated == encoded[..|truncated|]
      invariant dropped == cut - |truncated|
      decreases |truncated|
    {
      CutDecodes(text, k, |truncated|);
      var decoded := Decode(truncated);
      if decoded.Ok? {
        return Ok((decoded.value + Dots, true)), dropped;
      }
      truncated := truncated[..|truncated| - 1];
      dropped := dropped + 1;
    }
    NothingWide(text, k);
    assert text[..0] + Dots == Dots;
    r := Ok((Dots, true));
  }

  lemma NothingWide(s: seq<CodePoint>, k: nat)
    requires k <= |s| && Width(s, k) == 0
    ensures k == 0
  {
    WidthGrows(s, 0, k);
  }

  lemma FittingIsShort(s: seq<CodePoint>, cut: nat)
    requires cut < |EncodeAll(s)|
    ensures var k := Fitting(s, cut); k < |s| && cut - Width(s, k) <= 3 && cut < Width(s, k + 1)
  {
    EncodePrefix(s, |s|);
    assert s[..|s|] == s;
  }

  /** Whatever the text, the trimmed one is encodable and within a limit of zero or more. */
  lemma TrimmedFits(s: seq<CodePoint>, limit: nat)
    requires Encodable(s)
    ensures Encodable(Trimmed(s, limit)) && |EncodeAll(Trimmed(s, limit))| <= limit
  {
    if |EncodeAll(s)| > limit {
      if limit <= 3 {
        DotsEncoded(limit);
      } else {
        var k := Fitting(s, limit - 3);
        DotsEncoded(3);
        assert Repeat(0x2E, 3) == Dots;
        EncodePrefix(s, k);
        var t := s[..k] + Dots;
        EncodePrefix(t, k);
        assert t[..k] == s[..k] && t[k..] == Dots;
      }
    }
  }

  lemma {:induction false} DotsEncoded(n: nat)
    ensures |EncodeAll(Repeat(0x2E, n))| == n
  {
    if n > 0 {
      DotsEncoded(n - 1);
      assert Repeat(0x2E, n)[1..] == Repeat(0x2E, n - 1);
    }
  }

  /** No longer prefix with three dots would fit. */
  lemma TrimmedIsMaximal(s: seq<CodePoint>, limit: int, j: nat)
    requires Encodable(s) && limit > 3 && |EncodeAll(s)| > limit && j <= |s|
    requires |EncodeAll(s[..j])| + 3 <= limit
    ensures var k := |Trimmed(s, limit)| - 3; j <= k <= |s| && Trimmed(s, limit) == s[..k] + [0x2E, 0x2E, 0x2E]
  {
    EncodePrefix(s, j);
    FittingIsLargest(s, limit - 3, j);
  }

  /** ---- the size of the posted comment ---- */

  const MAX_COMMENT_BODY_BYTES := 60000

  /** The room left for the review once header, note and two line ends are in. */
  function Available(header: nat, note: nat): nat {
    Max(MAX_COMMENT_BODY_BYTES - header - note - 2, 0)
  }

  /** render_comment_body when the whole body is too long: header, line end, what is left of the
      review, note, line end. The header does not start with a space and the note does not end
      with one, so stripping changes nothing. */
  function TruncatedBody(header: seq<CodePoint>, review: seq<CodePoint>, note: seq<CodePoint>): seq<CodePoint> {
    header + [0x0A] + Trimmed(review, Available(|EncodeAll(header)|, |EncodeAll(note)|)) + note + [0x0A]
  }

  lemma {:induction false} EncodeConcat(a: seq<CodePoint>, b: seq<CodePoint>)
    ensures EncodeAll(a + b) == EncodeAll(a) + EncodeAll(b)
  {
    EncodePrefix(a + b, |a|);
    assert (a + b)[..|a|] == a && (a + b)[|a|..] == b;
  }

  /** The comment fits the limit exactly when header and note alone do. */
  lemma CommentFits(header: seq<CodePoint>, review: seq<CodePoint>, note: seq<CodePoint>)
    requires Encodable(review)
    ensures |EncodeAll(TruncatedBody(header, review, note))| <= 60000
       <==> |EncodeAll(header)| + |EncodeAll(note)| + 2 <= 60000
  {
    var available := Available(|EncodeAll(header)|, |EncodeAll(note)|);
    var middle := Trimmed(review, available);
    TrimmedFits(review, available);
    EncodeConcat(header + [0x0A] + middle + note, [0x0A]);
    EncodeConcat(header + [0x0A] + middle, note);
    EncodeConcat(header + [0x0A], middle);
    EncodeConcat(header, [0x0A]);
    assert EncodeAll([0x0A]) == [0x0A] by { assert [0x0A as CodePoint][1..] == []; }
  }
}
