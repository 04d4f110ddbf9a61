/**
 * Twelve-byte object ids and their hexadecimal form.
 *
 * The document store's ObjectID type is not part of the shown repository; this module
 * stands in for the two operations the core relies on: `Hex` (24 lower-case hex digits,
 * used as the key of every registry and store) and `FromHex` (the parser the yodel
 * handler calls, which accepts exactly 24 hex digits of either case).
 */
module Ids {
  import opened Wrappers

  newtype byte = x: int | 0 <= x < 256

  type ObjectId = s: seq<byte> | |s| == 12 witness [0, 0, 0, 0, 0, 0, 0, 0, 0, 0, 0, 0]

  /** The all-zero id, which the code treats as "no id". */
  const NilObjectId: ObjectId := [0, 0, 0, 0, 0, 0, 0, 0, 0, 0, 0, 0]

  function HexDigit(d: int): (c: char)
    requires 0 <= d < 16
    ensures '0' <= c <= '9' || 'a' <= c <= 'f'
  {
    if d < 10 then ('0' as int + d) as char else ('a' as int + d - 10) as char
  }

  /** The value of one hex digit; both cases are accepted. */
  function DigitValue(c: char): (r: Option<int>)
    ensures r.Some? ==> 0 <= r.value < 16
    ensures r.Some? <==> ('0' <= c <= '9' || 'a' <= c <= 'f' || 'A' <= c <= 'F')
  {
    if '0' <= c <= '9' then Some(c as int - '0' as int)
    else if 'a' <= c <= 'f' then Some(c as int - 'a' as int + 10)
    else if 'A' <= c <= 'F' then Some(c as int - 'A' as int + 10)
    else None
  }

  function HexBytes(bs: seq<byte>): (s: string)
    ensures |s| == 2 * |bs|
  {
    if bs == [] then ""
    else [HexDigit(bs[0] as int / 16), HexDigit(bs[0] as int % 16)] + HexBytes(bs[1..])
  }

  function Hex(id: ObjectId): (s: string)
    ensures |s| == 24
  {
    HexBytes(id)
  }

  /** Every character is a hex digit. */
  predicate AllHex(s: string)
  {
    forall i | 0 <= i < |s| :: DigitValue(s[i]).Some?
  }

  /** The byte value spelled by the `k`-th pair of hex digits. */
  function PairValue(s: string, k: int): int
    requires AllHex(s) && 0 <= k && 2 * k + 1 < |s|
  {
    DigitValue(s[2 * k]).value * 16 + DigitValue(s[2 * k + 1]).value
  }

  /** Decodes pairs of hex digits into bytes; fails on any non-hex character. */
  function DecodeHexBytes(s: string): (r: Option<seq<byte>>)
    requires |s| % 2 == 0
    ensures r.Some? ==> 2 * |r.value| == |s|
    decreases |s|
  {
    if s == [] then Some([])
    else
      var hi, lo := DigitValue(s[0]), DigitValue(s[1]);
      if hi.None? || lo.None? then None
      else
        match DecodeHexBytes(s[2..])
        case None => None
        case Some(rest) => Some([(hi.value * 16 + lo.value) as byte] + rest)
  }

  /** Decoding succeeds exactly on all-hex input, and byte `k` is the value of pair `k`. */
  lemma {:induction false} DecodeHexBytesSpec(s: string)
    requires |s| % 2 == 0
    ensures DecodeHexBytes(s).Some? <==> AllHex(s)
    ensures DecodeHexBytes(s).Some? ==> forall k | 0 <= k < |s| / 2 :: DecodeHexBytes(s).value[k] as int == PairValue(s, k)
    decreases |s|
  {
    if s != [] {
      var t := s[2..];
      assert forall i | 0 <= i < |t| :: t[i] == s[i + 2];
      DecodeHexBytesSpec(t);
      if DigitValue(s[0]).Some? && DigitValue(s[1]).Some? {
        assert AllHex(s) <==> AllHex(t) by {
          if AllHex(t) {
            forall i | 0 <= i < |s| ensures DigitValue(s[i]).Some? {
              if i >= 2 { assert s[i] == t[i - 2]; }
            }
          }
        }
        if AllHex(s) {
          var r := DecodeHexBytes(s).value;
          var rest := DecodeHexBytes(t).value;
          forall k | 0 <= k < |s| / 2 ensures r[k] as int == PairValue(s, k) {
            if k > 0 {
              assert r[k] == rest[k - 1];
              assert s[2 * k] == t[2 * (k - 1)] && s[2 * k + 1] == t[2 * (k - 1) + 1];
            }
          }
        }
      } else {
        assert !AllHex(s) by {
          if DigitValue(s[0]).None? { assert !DigitValue(s[0]).Some?; } else { assert !DigitValue(s[1]).Some?; }
        }
      }
    }
  }

  /** Parses an id: exactly 24 hex digits of either case, otherwise no id. */
  function FromHex(s: string): (r: Option<ObjectId>)
    ensures r.Some? <==> |s| == 24 && AllHex(s)
    ensures r.Some? ==> forall k | 0 <= k < 12 :: r.value[k] as int == PairValue(s, k)
  {
    if |s| != 24 then None
    else
      DecodeHexBytesSpec(s);
      match DecodeHexBytes(s)
      case None => None
      case Some(bs) => Some(bs)
  }

  lemma {:induction false} DecodeHexBytesRoundTrip(bs: seq<byte>)
    ensures DecodeHexBytes(HexBytes(bs)) == Some(bs)
  {
    if bs != [] {
      var b := bs[0] as int;
      var s := HexBytes(bs);
      assert s[0] == HexDigit(b / 16) && s[1] == HexDigit(b % 16);
      assert s[2..] == HexBytes(bs[1..]);
      DecodeHexBytesRoundTrip(bs[1..]);
      assert DigitValue(HexDigit(b / 16)) == Some(b / 16);
      assert DigitValue(HexDigit(b % 16)) == Some(b % 16);
      assert [bs[0]] + bs[1..] == bs;
    }
  }

  /** Parsing the hex form of an id gives the id back. */
  lemma HexRoundTrip(id: ObjectId)
    ensures FromHex(Hex(id)) == Some(id)
  {
    DecodeHexBytesRoundTrip(id);
  }

  /** Distinct ids have distinct hex forms, so hex keys never collide. */
  lemma HexInjective(a: ObjectId, b: ObjectId)
    ensures Hex(a) == Hex(b) <==> a == b
  {
    HexRoundTrip(a);
    HexRoundTrip(b);
  }
}
