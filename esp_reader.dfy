/**
 * The card reader on the ESP32 (`ESP/LaundryEsp.py`): a UID is read only when both
 * the request and the anticollision step of the MFRC522 report success, and is
 * rendered as two lower-case hex digits per byte, joined with ':'.
 */
module EspReader {
  import opened Options

  type Byte = x: int | 0 <= x < 256

  const HexDigits: string := "0123456789abcdef"

  /** The lower-case hex digit of `d`. */
  function HexDigit(d: int): (c: char)
    requires 0 <= d < 16
    ensures HexValue(c) == Some(d)
  {
    HexDigits[d]
  }

  /** The value of a lower-case hex digit; None for any other character. */
  function HexValue(c: char): (r: Option<int>)
    ensures r.Some? ==> 0 <= r.value < 16
    ensures r.Some? <==> '0' <= c <= '9' || 'a' <= c <= 'f'
  {
    if '0' <= c <= '9' then Some(c as int - '0' as int)
    else if 'a' <= c <= 'f' then Some(c as int - 'a' as int + 10)
    else None
  }

  /** `"%02x" % b`: exactly two digits, zero-padded, never a ':'. */
  function Hex2(b: Byte): (s: string)
    ensures |s| == 2 && s[0] != ':' && s[1] != ':'
    ensures ParsePair(s) == Some(b)
  {
    [HexDigit(b / 16), HexDigit(b % 16)]
  }

  /** The byte written by two hex digits, if both are digits. */
  function ParsePair(s: string): (r: Option<Byte>)
    requires |s| == 2
  {
    match (HexValue(s[0]), HexValue(s[1]))
    case (Some(hi), Some(lo)) => Some(hi * 16 + lo)
    case _ => None
  }

  /**
   * `":".join("%02x" % b for b in raw_uid)`: n ≥ 1 bytes give 3n − 1 characters
   * (two digits per byte and one ':' between neighbours).
   */
  function FormatUid(raw: seq<Byte>): (s: string)
    ensures |s| == if raw == [] then 0 else 3 * |raw| - 1
    decreases |raw|
  {
    if raw == [] then ""
    else if |raw| == 1 then Hex2(raw[0])
    else Hex2(raw[0]) + ":" + FormatUid(raw[1..])
  }

  /**
   * The layout of a formatted UID: byte `i`, in input order, occupies positions 3i and
   * 3i+1 as its two hex digits, and each byte but the last is followed by ':'.
   */
  lemma {:induction false} FormatLayout(raw: seq<Byte>)
    ensures forall i :: 0 <= i < |raw| ==>
      FormatUid(raw)[3 * i] == Hex2(raw[i])[0] && FormatUid(raw)[3 * i + 1] == Hex2(raw[i])[1]
    ensures forall i :: 0 <= i < |raw| - 1 ==> FormatUid(raw)[3 * i + 2] == ':'
    decreases |raw|
  {
    if |raw| > 1 {
      var rest := FormatUid(raw[1..]);
      var s := FormatUid(raw);
      assert s == Hex2(raw[0]) + ":" + rest;
      FormatLayout(raw[1..]);
      forall i | 1 <= i < |raw|
        ensures s[3 * i] == Hex2(raw[i])[0] && s[3 * i + 1] == Hex2(raw[i])[1]
      {
        assert s[3 * i] == rest[3 * (i - 1)] && s[3 * i + 1] == rest[3 * (i - 1) + 1];
        assert raw[1..][i - 1] == raw[i];
      }
      forall i | 1 <= i < |raw| - 1
        ensures s[3 * i + 2] == ':'
      {
        assert s[3 * i + 2] == rest[3 * (i - 1) + 2];
      }
    }
  }

  /** Splits a formatted UID back into its bytes; None unless every group is two hex digits. */
  function ParseUid(s: string): (r: Option<seq<Byte>>)
    decreases |s|
  {
    if s == [] then Some([])
    else if |s| == 2 then
      match ParsePair(s)
      case Some(b) => Some([b])
      case None => None
    else if |s| > 3 && s[2] == ':' then
      match (ParsePair(s[..2]), ParseUid(s[3..]))
      case (Some(b), Some(rest)) => if rest == [] then None else Some([b] + rest)
      case _ => None
    else None
  }

  /** Parsing a formatted UID gives back the bytes read from the card. */
  lemma {:induction false} ParseFormat(raw: seq<Byte>)
    ensures ParseUid(FormatUid(raw)) == Some(raw)
    decreases |raw|
  {
    if |raw| == 1 {
      assert FormatUid(raw) == Hex2(raw[0]);
      assert [raw[0]] == raw;
    } else if |raw| > 1 {
      var s := FormatUid(raw);
      assert s == Hex2(raw[0]) + ":" + FormatUid(raw[1..]);
      assert s[..2] == Hex2(raw[0]);
      assert ParsePair(s[..2]) == Some(raw[0]);
      assert s[2] == ':';
      assert s[3..] == FormatUid(raw[1..]);
      ParseFormat(raw[1..]);
      assert [raw[0]] + raw[1..] == raw;
    }
  }

  /** Different UIDs are never rendered as the same card id. */
  lemma FormatInjective(a: seq<Byte>, b: seq<Byte>)
    ensures FormatUid(a) == FormatUid(b) <==> a == b
  {
    if FormatUid(a) == FormatUid(b) {
      ParseFormat(a);
      ParseFormat(b);
    }
  }

  /**
   * `read_rfid_id`: a card id exactly when the request and the anticollision step both
   * succeed, and then one that parses back to the UID bytes.
   */
  function ReadRfidId(requestOk: bool, anticollOk: bool, rawUid: seq<Byte>): (r: Option<string>)
    ensures r.Some? <==> requestOk && anticollOk
    ensures r.Some? ==> ParseUid(r.value) == Some(rawUid)
    ensures r.Some? ==> |r.value| == if rawUid == [] then 0 else 3 * |rawUid| - 1
  {
    if requestOk && anticollOk then
      ParseFormat(rawUid);
      Some(FormatUid(rawUid))
    else None
  }
}
