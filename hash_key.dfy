/**
 * `generate_hash_key` of backend/db/utils.py: the Data Vault hash key of a
 * business key, the lowercase hex MD5 digest of the UTF-8 encoding of
 * `"|".join(str(v) for v in values)`. MD5 itself is a parameter: any function
 * from bytes to a 16-byte digest.
 */
module HashKey {

  import opened Wrappers
  import opened Text

  newtype byte = x: int | 0 <= x < 256

  /** An MD5 digest: sixteen bytes. */
  type Digest = d: seq<byte> | |d| == 16 witness seq(16, i => 0)

  /** The values callers pass as business-key components. */
  datatype PyValue = PyStr(s: string) | PyInt(i: int) | PyBool(b: bool) | PyNone

  // ---------------------------------------------------------------------------
  // str(v)

  /** The decimal numeral of a natural number, without leading zeros. */
  function Decimal(n: nat): (r: string)
    ensures |r| >= 1 && AllDigits(r)
    ensures r[0] == '0' ==> n == 0
  {
    if n < 10 then [DigitChar(n)] else Decimal(n / 10) + [DigitChar(n % 10)]
  }

  /** `str(n)` denotes n. */
  lemma {:induction false} DecimalValue(n: nat)
    ensures Value(Decimal(n)) == n
  {
    var r := Decimal(n);
    if n >= 10 {
      DecimalValue(n / 10);
      assert r[..|r| - 1] == Decimal(n / 10);
    }
  }

  /** Python's `str(v)`. */
  function Str(v: PyValue): string {
    match v
    case PyStr(s) => s
    case PyInt(i) => if i < 0 then "-" + Decimal(-i) else Decimal(i)
    case PyBool(b) => if b then "True" else "False"
    case PyNone => "None"
  }

  /** Only a string value can put the delimiter into the combined key. */
  lemma StrOfNonString(v: PyValue)
    requires !v.PyStr?
    ensures Avoids(Str(v), {'|'})
  {
    if v.PyInt? {
      var d := Decimal(if v.i < 0 then -v.i else v.i);
      assert forall k :: 0 <= k < |d| ==> IsDigit(d[k]);
    }
  }

  // ---------------------------------------------------------------------------
  // "|".join and its inverse

  /** `"|".join(parts)` */
  function Join(parts: seq<string>): string {
    if parts == [] then ""
    else if |parts| == 1 then parts[0]
    else parts[0] + "|" + Join(parts[1..])
  }

  /** `s.split("|")`: the pieces between delimiters, always at least one. */
  function Split(s: string): (r: seq<string>)
    ensures |r| >= 1
    ensures forall k :: 0 <= k < |r| ==> Avoids(r[k], {'|'})
    decreases |s|
  {
    match SplitFirst(s, {'|'})
    case None => [s]
    case Some((piece, rest)) => [piece] + Split(rest)
  }

  /** Joining what a split produced gives back the text. */
  lemma {:induction false} JoinSplit(s: string)
    ensures Join(Split(s)) == s
    decreases |s|
  {
    match SplitFirst(s, {'|'})
    case None =>
    case Some((piece, rest)) =>
      JoinSplit(rest);
      assert Split(s)[1..] == Split(rest);
  }

  /** Splitting a join of delimiter-free pieces gives back the pieces. */
  lemma {:induction false} SplitJoin(parts: seq<string>)
    requires |parts| >= 1
    requires forall k :: 0 <= k < |parts| ==> Avoids(parts[k], {'|'})
    ensures Split(Join(parts)) == parts
    decreases |parts|
  {
    if |parts| == 1 {
      assert SplitFirst(parts[0], {'|'}).None?;
    } else {
      SplitFirstOf(parts[0], '|', Join(parts[1..]), {'|'});
      SplitJoin(parts[1..]);
      assert [parts[0]] + parts[1..] == parts;
    }
  }

  /** The string that gets hashed: each value's str(), delimited by `|`, in argument order. */
  function Combined(values: seq<PyValue>): string {
    Join(seq(|values|, k requires 0 <= k < |values| => Str(values[k])))
  }

  // ---------------------------------------------------------------------------
  // str.encode(): UTF-8

  function EncodeChar(c: char): (r: seq<byte>)
    ensures 1 <= |r| <= 4
    ensures (c as int < 0x80) == (|r| == 1)
  {
    var n := c as int;
    if n < 0x80 then [n as byte]
    else if n < 0x800 then [(0xC0 + n / 0x40) as byte, (0x80 + n % 0x40) as byte]
    else if n < 0x10000 then
      [(0xE0 + n / 0x1000) as byte, (0x80 + n / 0x40 % 0x40) as byte, (0x80 + n % 0x40) as byte]
    else
      [(0xF0 + n / 0x40000) as byte, (0x80 + n / 0x1000 % 0x40) as byte,
       (0x80 + n / 0x40 % 0x40) as byte, (0x80 + n % 0x40) as byte]
  }

  /** `s.encode()`: the UTF-8 bytes of the text. */
  function Utf8(s: string): (r: seq<byte>)
    ensures |s| <= |r| <= 4 * |s|
  {
    if s == [] then [] else EncodeChar(s[0]) + Utf8(s[1..])
  }

  /** ASCII text encodes to one byte per character, its code point. */
  lemma {:induction false} Utf8Ascii(s: string)
    requires forall k :: 0 <= k < |s| ==> s[k] as int < 0x80
    ensures |Utf8(s)| == |s|
    ensures forall k :: 0 <= k < |s| ==> Utf8(s)[k] as int == s[k] as int
  {
    if s != [] {
      Utf8Ascii(s[1..]);
    }
  }

  /** How many bytes the encoded sequence led by `b` takes. */
  function SequenceLength(b: byte): nat {
    if b < 0x80 then 1 else if b < 0xE0 then 2 else if b < 0xF0 then 3 else 4
  }

  /** The code point one encoded sequence carries. */
  function CodePoint(bs: seq<byte>): int
    requires 1 <= |bs| <= 4
  {
    if |bs| == 1 then bs[0] as int
    else if |bs| == 2 then (bs[0] as int - 0xC0) * 0x40 + (bs[1] as int - 0x80)
    else if |bs| == 3 then (bs[0] as int - 0xE0) * 0x1000 + (bs[1] as int - 0x80) * 0x40 + (bs[2] as int - 0x80)
    else (bs[0] as int - 0xF0) * 0x40000 + (bs[1] as int - 0x80) * 0x1000 + (bs[2] as int - 0x80) * 0x40 + (bs[3] as int - 0x80)
  }

  /** The code points a Dafny (and Python) string can hold: Unicode scalar values. */
  predicate IsScalar(n: int) {
    0 <= n < 0xD800 || 0xE000 <= n < 0x11_0000
  }

  /** `bytes.decode()`: UTF-8 bytes read back into text; None where they are not a well-formed encoding. */
  function Decode(bs: seq<byte>): Option<string>
    decreases |bs|
  {
    if bs == [] then Some([])
    else
      var w := SequenceLength(bs[0]);
      if |bs| < w || !IsScalar(CodePoint(bs[..w])) then None
      else match Decode(bs[w..])
        case None => None
        case Some(rest) => Some([CodePoint(bs[..w]) as char] + rest)
  }

  /** The lead byte of a character's encoding announces its length, and the bytes carry its code point. */
  lemma EncodeCharDecodes(c: char)
    ensures SequenceLength(EncodeChar(c)[0]) == |EncodeChar(c)|
    ensures CodePoint(EncodeChar(c)) == c as int
  {
    var n := c as int;
    if n < 0x80 {
    } else if n < 0x800 {
      assert n == n / 0x40 * 0x40 + n % 0x40;
    } else if n < 0x10000 {
      assert n / 0x40 == n / 0x1000 * 0x40 + n / 0x40 % 0x40;
      assert n == n / 0x40 * 0x40 + n % 0x40;
    } else {
      assert n / 0x1000 == n / 0x40000 * 0x40 + n / 0x1000 % 0x40;
      assert n / 0x40 == n / 0x1000 * 0x40 + n / 0x40 % 0x40;
      assert n == n / 0x40 * 0x40 + n % 0x40;
    }
  }

  /** Decoding what `encode()` wrote gives back the text. */
  lemma {:induction false} DecodeUtf8(s: string)
    ensures Decode(Utf8(s)) == Some(s)
  {
    if s != [] {
      var e := EncodeChar(s[0]);
      var bs := Utf8(s);
      EncodeCharDecodes(s[0]);
      DecodeUtf8(s[1..]);
      assert bs[0] == e[0] && bs[..|e|] == e && bs[|e|..] == Utf8(s[1..]);
      assert [s[0]] + s[1..] == s;
    }
  }

  /** Different texts encode to different bytes, so the combined string reaches MD5 without loss. */
  lemma Utf8Injective(s: string, t: string)
    ensures Utf8(s) == Utf8(t) <==> s == t
  {
    DecodeUtf8(s);
    DecodeUtf8(t);
  }

  // ---------------------------------------------------------------------------
  // hexdigest()

  predicate IsLowerHex(c: char) {
    '0' <= c <= '9' || 'a' <= c <= 'f'
  }

  /** The lowercase hex digit of a nibble. */
  function HexDigit(n: nat): (c: char)
    requires n < 16
    ensures IsLowerHex(c)
  {
    if n < 10 then ('0' as int + n) as char else ('a' as int + n - 10) as char
  }

  /** `digest.hexdigest()`: two lowercase hex digits per byte, high nibble first. */
  function Hex(d: seq<byte>): (r: string)
    ensures |r| == 2 * |d|
    ensures forall k :: 0 <= k < |r| ==> IsLowerHex(r[k])
  {
    if d == [] then []
    else [HexDigit(d[0] as int / 16), HexDigit(d[0] as int % 16)] + Hex(d[1..])
  }

  function NibbleOf(c: char): nat
    requires IsLowerHex(c)
  {
    if c <= '9' then c as int - '0' as int else c as int - 'a' as int + 10
  }

  /** Reading lowercase hex back into bytes. */
  function Unhex(s: string): (r: seq<byte>)
    requires |s| % 2 == 0
    requires forall k :: 0 <= k < |s| ==> IsLowerHex(s[k])
    ensures 2 * |r| == |s|
  {
    if s == [] then []
    else [(16 * NibbleOf(s[0]) + NibbleOf(s[1])) as byte] + Unhex(s[2..])
  }

  /** hexdigest loses nothing: the digest can be read back from its hex text. */
  lemma {:induction false} UnhexHex(d: seq<byte>)
    ensures Unhex(Hex(d)) == d
  {
    if d != [] {
      var h := Hex(d);
      assert h[2..] == Hex(d[1..]);
      assert NibbleOf(h[0]) == d[0] as int / 16 && NibbleOf(h[1]) == d[0] as int % 16;
      UnhexHex(d[1..]);
    }
  }

  // ---------------------------------------------------------------------------
  // generate_hash_key

  /** `generate_hash_key(*values)`, with `md5` standing for hashlib's MD5. */
  function GenerateHashKey(values: seq<PyValue>, md5: seq<byte> -> Digest): (key: string)
    ensures |key| == 32
    ensures forall k :: 0 <= k < |key| ==> IsLowerHex(key[k])
  {
    Hex(md5(Utf8(Combined(values))))
  }

  /** The key is exactly the MD5 digest of the UTF-8 bytes of the combined string, written in hex. */
  lemma KeyIsDigest(values: seq<PyValue>, md5: seq<byte> -> Digest)
    ensures Unhex(GenerateHashKey(values, md5)) == md5(Utf8(Combined(values)))
  {
    UnhexHex(md5(Utf8(Combined(values))));
  }

  /** One value: its str() with no delimiter. No values: the empty string. */
  lemma CombinedOfFew(v: PyValue)
    ensures Combined([v]) == Str(v)
    ensures Combined([]) == ""
  {
  }

  /** The combined string lists the values' str() in order: splitting it recovers them when none contains `|`. */
  lemma CombinedRecoversValues(values: seq<PyValue>)
    requires |values| >= 1
    requires forall k :: 0 <= k < |values| ==> Avoids(Str(values[k]), {'|'})
    ensures Split(Combined(values)) == seq(|values|, k requires 0 <= k < |values| => Str(values[k]))
  {
    SplitJoin(seq(|values|, k requires 0 <= k < |values| => Str(values[k])));
  }

  /**
   * Among non-empty argument lists whose str() forms avoid `|`, equal combined
   * strings mean equal str() forms, argument for argument.
   */
  lemma CombinedInjective(a: seq<PyValue>, b: seq<PyValue>)
    requires |a| >= 1 && |b| >= 1
    requires forall k :: 0 <= k < |a| ==> Avoids(Str(a[k]), {'|'})
    requires forall k :: 0 <= k < |b| ==> Avoids(Str(b[k]), {'|'})
    requires Combined(a) == Combined(b)
    ensures |a| == |b| && forall k :: 0 <= k < |a| ==> Str(a[k]) == Str(b[k])
  {
    CombinedRecoversValues(a);
    CombinedRecoversValues(b);
    var sa := seq(|a|, k requires 0 <= k < |a| => Str(a[k]));
    var sb := seq(|b|, k requires 0 <= k < |b| => Str(b[k]));
    assert |sa| == |sb|;
    forall k | 0 <= k < |a|
      ensures Str(a[k]) == Str(b[k])
    {
      assert sa[k] == sb[k];
    }
  }

  /** The join is not injective: ("a|b") and ("a", "b") share a key. */
  lemma DelimiterCollision(md5: seq<byte> -> Digest)
    ensures GenerateHashKey([PyStr("a|b")], md5) == GenerateHashKey([PyStr("a"), PyStr("b")], md5)
  {
    var values := [PyStr("a"), PyStr("b")];
    assert seq(|values|, k requires 0 <= k < |values| => Str(values[k])) == ["a", "b"];
    assert Join(["a", "b"]) == "a" + "|" + Join(["b"]);
  }

  /** No values and a single empty string share a key. */
  lemma EmptyCollision(md5: seq<byte> -> Digest)
    ensures GenerateHashKey([], md5) == GenerateHashKey([PyStr("")], md5)
  {
  }

  /** str() forgets the type: the number 1 and the string "1" share a key. */
  lemma TypeCollision(md5: seq<byte> -> Digest)
    ensures GenerateHashKey([PyInt(1)], md5) == GenerateHashKey([PyStr("1")], md5)
  {
    assert Str(PyInt(1)) == "1";
  }
}
