/** `application/x-www-form-urlencoded` encoding as `java.net.URLEncoder`
    performs it with UTF-8 (HTML 4.01, section 17.13.4.1), the query string
    the connector posts, and a decoder that undoes both. */
module FormEncoding {
  import opened Wrappers

  type Byte = b: int | 0 <= b < 256

  /** The characters URLEncoder copies unchanged. */
  predicate Unreserved(c: char) {
    ('a' <= c <= 'z') || ('A' <= c <= 'Z') || ('0' <= c <= '9')
    || c == '.' || c == '-' || c == '*' || c == '_'
  }

  /** The characters that can occur in URLEncoder's output. */
  predicate FormSafe(c: char) {
    Unreserved(c) || c == '+' || c == '%'
  }

  /** The UTF-8 encoding of one Unicode scalar value. */
  function Utf8(c: char): seq<Byte> {
    var cp := c as int;
    if cp < 0x80 then [cp]
    else if cp < 0x800 then [0xC0 + cp / 64, 0x80 + cp % 64]
    else if cp < 0x1_0000 then [0xE0 + cp / 4096, 0x80 + (cp / 64) % 64, 0x80 + cp % 64]
    else [0xF0 + cp / 262144, 0x80 + (cp / 4096) % 64, 0x80 + (cp / 64) % 64, 0x80 + cp % 64]
  }

  /** An upper-case hexadecimal digit. */
  function HexDigit(d: int): (c: char)
    requires 0 <= d < 16
    ensures Unreserved(c)
  {
    if d < 10 then ('0' as int + d) as char else ('A' as int + d - 10) as char
  }

  function HexValue(c: char): (r: Option<int>)
    ensures r.Some? ==> 0 <= r.value < 16
  {
    if '0' <= c <= '9' then Some(c as int - '0' as int)
    else if 'A' <= c <= 'F' then Some(c as int - 'A' as int + 10)
    else if 'a' <= c <= 'f' then Some(c as int - 'a' as int + 10)
    else None
  }

  /** "%XY" for one byte. */
  function Escape(b: Byte): string {
    ['%', HexDigit(b / 16), HexDigit(b % 16)]
  }

  function EscapeAll(bs: seq<Byte>): (r: string)
    ensures |r| == 3 * |bs|
    ensures forall i :: 0 <= i < |r| ==> FormSafe(r[i])
  {
    if bs == [] then "" else Escape(bs[0]) + EscapeAll(bs[1..])
  }

  function EncodeChar(c: char): (r: string)
    ensures forall i :: 0 <= i < |r| ==> FormSafe(r[i])
  {
    if Unreserved(c) then [c]
    else if c == ' ' then "+"
    else EscapeAll(Utf8(c))
  }

  /** `URLEncoder.encode(s, "UTF-8")`. Its output never holds the '&' and '='
      that separate the pairs of a query. */
  function Encode(s: string): (r: string)
    ensures forall i :: 0 <= i < |r| ==> FormSafe(r[i])
    ensures '&' !in r && '=' !in r
  {
    if s == [] then "" else EncodeChar(s[0]) + Encode(s[1..])
  }

  /** Text of unreserved characters is its own encoding. */
  lemma {:induction false} EncodeUnreserved(s: string)
    requires forall i :: 0 <= i < |s| ==> Unreserved(s[i])
    ensures Encode(s) == s
  {
    if s != [] {
      EncodeUnreserved(s[1..]);
      assert [s[0]] + s[1..] == s;
    }
  }

  // ------------------------------------------------------------- decoding

  /** The byte written as "%XY" at index `i` of `s`, if there is one. */
  function ByteAt(s: string, i: nat): Option<Byte> {
    if i + 3 <= |s| && s[i] == '%' then
      match (HexValue(s[i + 1]), HexValue(s[i + 2]))
      case (Some(h), Some(l)) => Some(16 * h + l)
      case _ => None
    else None
  }

  predicate Continuation(b: Byte) {
    0x80 <= b < 0xC0
  }

  /** Folds `k` escaped continuation bytes, starting at index `i`, into `acc`. */
  function Continuations(s: string, i: nat, k: nat, acc: int): Option<int>
    decreases k
  {
    if k == 0 then Some(acc)
    else
      match ByteAt(s, i)
      case Some(b) => if Continuation(b) then Continuations(s, i + 3, k - 1, acc * 64 + (b - 0x80)) else None
      case None => None
  }

  /** How many continuation bytes follow a lead byte, and the code-point
      bits the lead byte itself carries; -1 for a byte that cannot lead. */
  function Lead(b0: Byte): (int, int) {
    if b0 < 0x80 then (0, b0)
    else if 0xC0 <= b0 < 0xE0 then (1, b0 - 0xC0)
    else if 0xE0 <= b0 < 0xF0 then (2, b0 - 0xE0)
    else if 0xF0 <= b0 < 0xF8 then (3, b0 - 0xF0)
    else (-1, 0)
  }

  predicate IsScalar(cp: int) {
    (0 <= cp < 0xD800) || (0xE000 <= cp <= 0x10_FFFF)
  }

  /** The character a run of escaped UTF-8 bytes at the start of `s` stands
      for, and the length of the run. */
  function DecodeEscape(s: string): Option<(char, nat)> {
    match ByteAt(s, 0)
    case None => None
    case Some(b0) =>
      var (k, lead) := Lead(b0);
      if k < 0 then None
      else
        match Continuations(s, 3, k, lead)
        case Some(cp) => if IsScalar(cp) then Some((cp as char, 3 * (k + 1))) else None
        case None => None
  }

  function Prepend(c: char, rest: Option<string>): Option<string> {
    match rest
    case Some(t) => Some([c] + t)
    case None => None
  }

  /** Form decoding: '+' is a space, "%XY" runs are UTF-8, anything else is itself. */
  function Decode(s: string): Option<string>
    decreases |s|
  {
    if s == [] then Some("")
    else if s[0] == '+' then Prepend(' ', Decode(s[1..]))
    else if s[0] == '%' then
      match DecodeEscape(s)
      case Some((c, n)) => if 0 < n <= |s| then Prepend(c, Decode(s[n..])) else None
      case None => None
    else Prepend(s[0], Decode(s[1..]))
  }

  lemma HexRoundTrip(d: int)
    requires 0 <= d < 16
    ensures HexValue(HexDigit(d)) == Some(d)
  {
  }

  /** The escape of `b`, after any prefix `p`, reads back as `b`. */
  lemma ByteAtEscape(b: Byte, t: string)
    ensures ByteAt(Escape(b) + t, 0) == Some(b)
  {
    var s := Escape(b) + t;
    assert s[0] == '%' && s[1] == HexDigit(b / 16) && s[2] == HexDigit(b % 16);
    HexRoundTrip(b / 16);
    HexRoundTrip(b % 16);
  }

  /** A prefix does not change what is read after it. */
  lemma ByteAtShift(e: string, u: string, i: nat)
    ensures ByteAt(e + u, |e| + i) == ByteAt(u, i)
  {
    var s := e + u;
    if i + 3 <= |u| {
      assert s[|e| + i] == u[i] && s[|e| + i + 1] == u[i + 1] && s[|e| + i + 2] == u[i + 2];
    }
  }

  /** The `j`-th escape of a run reads back as the `j`-th byte. */
  lemma {:induction false} ByteAtEscapeAll(bs: seq<Byte>, t: string, j: nat)
    requires j < |bs|
    ensures ByteAt(EscapeAll(bs) + t, 3 * j) == Some(bs[j])
  {
    var e := Escape(bs[0]);
    var rest := EscapeAll(bs[1..]) + t;
    assert EscapeAll(bs) == e + EscapeAll(bs[1..]);
    assert EscapeAll(bs) + t == e + rest;
    if j == 0 {
      ByteAtEscape(bs[0], rest);
    } else {
      ByteAtEscapeAll(bs[1..], t, j - 1);
      ByteAtShift(e, rest, 3 * (j - 1));
      assert |e| + 3 * (j - 1) == 3 * j;
      assert bs[1..][j - 1] == bs[j];
    }
  }

  /** Six bits per continuation byte, most significant first. */
  function Fold(acc: int, cs: seq<Byte>): int
    decreases |cs|
  {
    if cs == [] then acc else Fold(acc * 64 + (cs[0] as int - 0x80), cs[1..])
  }

  lemma {:induction false} ContinuationsEscapeAll(bs: seq<Byte>, t: string, j: nat, acc: int)
    requires 1 <= j <= |bs|
    requires forall m :: j <= m < |bs| ==> Continuation(bs[m])
    ensures Continuations(EscapeAll(bs) + t, 3 * j, |bs| - j, acc) == Some(Fold(acc, bs[j..]))
    decreases |bs| - j
  {
    if j < |bs| {
      ByteAtEscapeAll(bs, t, j);
      ContinuationsEscapeAll(bs, t, j + 1, acc * 64 + (bs[j] as int - 0x80));
      assert bs[j..][1..] == bs[j + 1..];
    } else {
      assert bs[j..] == [];
    }
  }

  /** The bytes of a character carry, past the lead byte's marker, exactly
      its code point. */
  lemma Utf8Fold(c: char)
    ensures |Utf8(c)| - 1 == Lead(Utf8(c)[0]).0
    ensures forall m :: 1 <= m < |Utf8(c)| ==> Continuation(Utf8(c)[m])
    ensures Fold(Lead(Utf8(c)[0]).1, Utf8(c)[1..]) == c as int
  {
    var cp := c as int;
    var bs := Utf8(c);
    if cp < 0x80 {
      assert bs[1..] == [];
    } else if cp < 0x800 {
      assert bs[1..][1..] == [];
    } else if cp < 0x1_0000 {
      Utf8Fold3(cp);
    } else {
      Utf8Fold4(cp);
    }
  }

  lemma Utf8Fold3(cp: int)
    requires 0x800 <= cp < 0x1_0000
    ensures Fold(cp / 4096, [0x80 + (cp / 64) % 64, 0x80 + cp % 64]) == cp
  {
    var b1: Byte, b2: Byte := 0x80 + (cp / 64) % 64, 0x80 + cp % 64;
    var q := cp / 64;
    assert [b1, b2][1..] == [b2];
    assert [b2][1..] == [];
    var a1 := cp / 4096 * 64 + q % 64;
    assert Fold(cp / 4096, [b1, b2]) == Fold(a1, [b2]);
    assert Fold(a1, [b2]) == Fold(a1 * 64 + cp % 64, []);
    assert cp / 4096 == q / 64;
    assert q / 64 * 64 + q % 64 == q;
    assert q * 64 + cp % 64 == cp;
  }

  lemma Utf8Fold4(cp: int)
    requires 0x1_0000 <= cp <= 0x10_FFFF
    ensures Fold(cp / 262144, [0x80 + (cp / 4096) % 64, 0x80 + (cp / 64) % 64, 0x80 + cp % 64]) == cp
  {
    var b1: Byte, b2: Byte, b3: Byte := 0x80 + (cp / 4096) % 64, 0x80 + (cp / 64) % 64, 0x80 + cp % 64;
    var q := cp / 64;
    var r := cp / 4096;
    assert [b1, b2, b3][1..] == [b2, b3];
    assert [b2, b3][1..] == [b3];
    assert [b3][1..] == [];
    var a1 := cp / 262144 * 64 + r % 64;
    var a2 := a1 * 64 + q % 64;
    assert Fold(cp / 262144, [b1, b2, b3]) == Fold(a1, [b2, b3]);
    assert Fold(a1, [b2, b3]) == Fold(a2, [b3]);
    assert Fold(a2, [b3]) == Fold(a2 * 64 + cp % 64, []);
    assert cp / 262144 == r / 64;
    assert r == q / 64;
    assert r / 64 * 64 + r % 64 == r;
    assert q / 64 * 64 + q % 64 == q;
    assert q * 64 + cp % 64 == cp;
  }

  /** The escaped UTF-8 of a character decodes to that character. */
  lemma DecodeEscapeUtf8(c: char, t: string)
    ensures DecodeEscape(EscapeAll(Utf8(c)) + t) == Some((c, |EscapeAll(Utf8(c))|))
  {
    var bs := Utf8(c);
    ByteAtEscapeAll(bs, t, 0);
    Utf8Fold(c);
    ContinuationsEscapeAll(bs, t, 1, Lead(bs[0]).1);
  }

  /** Decoding reads one encoded character off the front of the text. */
  lemma DecodeEncodeChar(c: char, t: string)
    ensures Decode(EncodeChar(c) + t) == Prepend(c, Decode(t))
  {
    var s := EncodeChar(c) + t;
    if Unreserved(c) {
      assert s[1..] == t;
    } else if c == ' ' {
      assert s[1..] == t;
    } else {
      DecodeEscapeUtf8(c, t);
      var n := |EscapeAll(Utf8(c))|;
      assert s[n..] == t;
    }
  }

  /** Decoding undoes URLEncoder: `decode(encode(s)) == s`. */
  lemma {:induction false} DecodeEncode(s: string)
    ensures Decode(Encode(s)) == Some(s)
  {
    if s != [] {
      DecodeEncodeChar(s[0], Encode(s[1..]));
      DecodeEncode(s[1..]);
      assert [s[0]] + s[1..] == s;
    }
  }

  // ---------------------------------------------------------------- query

  /** One query parameter: its name, and its value where it is not null. */
  type Param = (string, Option<string>)

  /** `Enc(key)=Enc(value)`, a null value written as nothing. */
  function EncodePair(p: Param): string {
    Encode(p.0) + "=" + (match p.1 case Some(v) => Encode(v) case None => "")
  }

  /** The pairs joined by '&', with no separator after the last. */
  function Query(ps: seq<Param>): string
    requires |ps| > 0
  {
    if |ps| == 1 then EncodePair(ps[0]) else EncodePair(ps[0]) + "&" + Query(ps[1..])
  }

  /** Appending a parameter appends "&" and its pair. */
  lemma {:induction false} QuerySnoc(ps: seq<Param>, p: Param)
    requires |ps| > 0
    ensures Query(ps + [p]) == Query(ps) + "&" + EncodePair(p)
  {
    var head, tail := EncodePair(ps[0]), ps[1..];
    assert (ps + [p])[0] == ps[0];
    assert (ps + [p])[1..] == tail + [p];
    if |ps| == 1 {
      assert tail + [p] == [p];
      assert Query(ps) == head;
    } else {
      QuerySnoc(tail, p);
      assert Query(ps) == head + "&" + Query(tail);
    }
  }

  /** Cuts text at every `sep`; always at least one part. */
  function Split(s: string, sep: char): (parts: seq<string>)
    ensures |parts| > 0
    decreases |s|
  {
    if s == [] then [""]
    else
      var rest := Split(s[1..], sep);
      if s[0] == sep then [""] + rest else [[s[0]] + rest[0]] + rest[1..]
  }

  /** The text before the first `sep` and the text after it. */
  function SplitFirst(s: string, sep: char): Option<(string, string)>
    decreases |s|
  {
    if s == [] then None
    else if s[0] == sep then Some(("", s[1..]))
    else
      match SplitFirst(s[1..], sep)
      case Some((a, b)) => Some(([s[0]] + a, b))
      case None => None
  }

  function DecodePair(segment: string): Option<(string, string)> {
    match SplitFirst(segment, '=')
    case None => None
    case Some((k, v)) =>
      match (Decode(k), Decode(v))
      case (Some(key), Some(value)) => Some((key, value))
      case _ => None
  }

  function DecodePairs(segments: seq<string>): Option<seq<(string, string)>> {
    if segments == [] then Some([])
    else
      match (DecodePair(segments[0]), DecodePairs(segments[1..]))
      case (Some(p), Some(rest)) => Some([p] + rest)
      case _ => None
  }

  /** What a form decoder on the server reads from a query string. */
  function ParseQuery(q: string): Option<seq<(string, string)>> {
    DecodePairs(Split(q, '&'))
  }

  /** The name and value a server receives for each parameter: a null value
      arrives as the empty string. */
  function Received(ps: seq<Param>): seq<(string, string)> {
    if ps == [] then [] else [(ps[0].0, ps[0].1.GetOr(""))] + Received(ps[1..])
  }

  lemma {:induction false} SplitNoSep(a: string, sep: char)
    requires sep !in a
    ensures Split(a, sep) == [a]
    decreases |a|
  {
    if a != [] {
      SplitNoSep(a[1..], sep);
      assert [a[0]] + a[1..] == a;
    }
  }

  lemma {:induction false} SplitCons(a: string, sep: char, rest: string)
    requires sep !in a
    ensures Split(a + [sep] + rest, sep) == [a] + Split(rest, sep)
    decreases |a|
  {
    var s := a + [sep] + rest;
    if a == [] {
      assert s[1..] == rest;
    } else {
      assert s[1..] == a[1..] + [sep] + rest;
      SplitCons(a[1..], sep, rest);
      assert [a[0]] + a[1..] == a;
    }
  }

  lemma {:induction false} SplitFirstAt(a: string, sep: char, b: string)
    requires sep !in a
    ensures SplitFirst(a + [sep] + b, sep) == Some((a, b))
    decreases |a|
  {
    var s := a + [sep] + b;
    if a == [] {
      assert s[1..] == b;
    } else {
      assert s[1..] == a[1..] + [sep] + b;
      SplitFirstAt(a[1..], sep, b);
      assert [a[0]] + a[1..] == a;
    }
  }

  /** A posted pair reads back as its name and its value (empty for null). */
  lemma DecodeEncodePair(p: Param)
    ensures DecodePair(EncodePair(p)) == Some((p.0, p.1.GetOr("")))
  {
    var v := match p.1 case Some(x) => x case None => "";
    assert Encode("") == "";
    assert EncodePair(p) == Encode(p.0) + ['='] + Encode(v);
    SplitFirstAt(Encode(p.0), '=', Encode(v));
    DecodeEncode(p.0);
    DecodeEncode(v);
  }

  /** The query the connector builds parses back, pair by pair and in
      order, into the names and values it was built from. */
  lemma {:induction false} ParseQueryRoundTrip(ps: seq<Param>)
    requires |ps| > 0
    ensures ParseQuery(Query(ps)) == Some(Received(ps))
  {
    DecodeEncodePair(ps[0]);
    var first := EncodePair(ps[0]);
    assert '&' !in first;
    if |ps| == 1 {
      SplitNoSep(first, '&');
      assert [first][1..] == [];
      assert Received(ps[1..]) == [];
      var p := (ps[0].0, ps[0].1.GetOr(""));
      assert DecodePairs([]) == Some([]);
      assert [p] + [] == [p];
    } else {
      SplitCons(first, '&', Query(ps[1..]));
      assert first + "&" + Query(ps[1..]) == first + ['&'] + Query(ps[1..]);
      ParseQueryRoundTrip(ps[1..]);
    }
  }
}
