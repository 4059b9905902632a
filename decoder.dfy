/**
 * Decoding of characteristic values in DeviceActivity: the little-endian
 * 16-bit reads of the combined environment characteristic, the heart-rate
 * read, the hex rendering used for every other characteristic, and the
 * dispatch between the three.
 *
 * A value that the Java code reads through `getIntValue` past the end of the
 * payload comes back as `null` and the unboxing that follows throws; here that
 * is `None`. A `null` payload behaves like an empty one on every path (the
 * numeric reads throw either way, the hex path attaches nothing either way), so
 * payloads are plain sequences.
 */
module CharacteristicDecoder {
  import opened Wrappers

  /** One octet of a characteristic value, as `getIntValue(FORMAT_UINT8, _)` sees it: unsigned. */
  type byte = x: int | 0 <= x < 256

  /** A UUID, in the lower-case text form `UUID.toString()` yields; two UUIDs are equal iff these are. */
  type Uuid = string

  /** UUID_COMBINE_DATA_CHAR: the combined temperature/humidity/air-quality characteristic. */
  const COMBINE_DATA_CHAR: Uuid := "3bd91530-ec56-9cf3-b2df-f2e239d01013"

  /** Offset of the Kelvin-to-Celsius shift, in hundredths of a degree. */
  const KELVIN_OFFSET := 27315

  datatype Characteristic = Characteristic(uuid: Uuid, properties: int, value: seq<byte>)

  /** What `broadcastUpdate(ACTION_DATA_AVAILABLE, c)` puts into its intent. */
  datatype Extras =
    | HeartRateData(heartRate: int)
      // EXTRA_DATA, holding the decimal rendering of heartRate
    | CombinedData(temperatureNumerator: int, humidity: int, airQuality: int)
      // EXTRA_TEMP is temperatureNumerator / 100 in floating point; EXTRA_HUMILITY; EXTRA_AIR
    | HexData(hex: string)
      // the hex part of EXTRA_DATA
    | NoData
      // an intent with no extra at all

  /** getIntValue(FORMAT_UINT8, offset): null when the byte is missing. */
  function UInt8At(value: seq<byte>, offset: nat): (r: Option<int>)
    ensures r.Some? <==> offset < |value|
    ensures r.Some? ==> 0 <= r.value < 256
  {
    if offset + 1 > |value| then None else Some(value[offset])
  }

  /** getIntValue(FORMAT_UINT16, offset): low byte first; null when either byte is missing. */
  function UInt16At(value: seq<byte>, offset: nat): (r: Option<int>)
    ensures r.Some? <==> offset + 2 <= |value|
    ensures r.Some? ==> 0 <= r.value < 0x1_0000
  {
    if offset + 2 > |value| then None else Some(value[offset] + 256 * (value[offset + 1] as int))
  }

  /** The two little-endian bytes of a 16-bit unsigned value. */
  function U16Bytes(x: int): (bs: seq<byte>)
    requires 0 <= x < 0x1_0000
    ensures |bs| == 2
  {
    [x % 256, x / 256]
  }

  /**
   * shortUnsignedAtOffset: two unsigned byte reads combined as `(upper << 8) + lower`.
   * The upper byte is below 256, so the shift is a multiplication by 256 and no
   * bit leaves the 32-bit int.
   */
  function ShortUnsignedAtOffset(value: seq<byte>, offset: nat): (r: Option<int>)
    ensures r.Some? <==> offset + 2 <= |value|
    ensures r.Some? ==> 0 <= r.value < 0x1_0000
    ensures r.Some? ==> U16Bytes(r.value) == value[offset..offset + 2]
  {
    var lower := UInt8At(value, offset);
    var upper := UInt8At(value, offset + 1);
    if upper.None? || lower.None? then None  // unboxing a null Integer throws
    else Some(upper.value * 256 + lower.value)
  }

  /** Java's `/` on int: the quotient truncated toward zero. */
  function JavaDiv(a: int, b: int): (q: int)
    requires b != 0
    ensures a >= 0 && b > 0 ==> q * b <= a < q * b + b
    ensures a < 0 && b > 0 ==> q * b - b < a <= q * b
    ensures a >= 0 && b < 0 ==> q * b <= a < q * b - b
    ensures a < 0 && b < 0 ==> q * b + b < a <= q * b
  {
    var m := (if a < 0 then -a else a) / (if b < 0 then -b else b);
    if (a < 0) == (b < 0) then m else -m
  }

  /** The integer part of extractCombinedTemperature: the raw value at offset 0 less 27315. */
  function CombinedTemperatureNumerator(value: seq<byte>): (r: Option<int>)
    ensures r.Some? <==> |value| >= 2
    ensures r.Some? ==> r.value + KELVIN_OFFSET == value[0] + 256 * (value[1] as int)
    ensures r.Some? ==> -KELVIN_OFFSET <= r.value <= 0xFFFF - KELVIN_OFFSET
  {
    match ShortUnsignedAtOffset(value, 0)
    case None => None
    case Some(raw) => Some(raw - KELVIN_OFFSET)
  }

  /** extractCombinedHumidity: the raw value at offset 2 divided by 100, truncated. */
  function CombinedHumidity(value: seq<byte>): (r: Option<int>)
    ensures r.Some? <==> |value| >= 4
    ensures r.Some? ==> 0 <= r.value <= 655
    ensures r.Some? ==> 100 * r.value <= value[2] + 256 * (value[3] as int) < 100 * r.value + 100
  {
    match ShortUnsignedAtOffset(value, 2)
    case None => None
    case Some(raw) => Some(JavaDiv(raw, 100))
  }

  /** extractCombinedAirQuality: the raw value at offset 4, unchanged. */
  function CombinedAirQuality(value: seq<byte>): (r: Option<int>)
    ensures r.Some? <==> |value| >= 6
    ensures r.Some? ==> r.value == value[4] + 256 * (value[5] as int)
  {
    ShortUnsignedAtOffset(value, 4)
  }

  /**
   * The heart-rate branch: bit 0 of the characteristic's properties (not of
   * payload byte 0) selects a UINT16 or a UINT8 read at offset 1. Dafny's `%`
   * is Euclidean, so `properties % 2` is bit 0 of the two's-complement int for
   * negative values too.
   */
  function HeartRateValue(properties: int, value: seq<byte>): (r: Option<int>)
    ensures properties % 2 == 1 ==> (r.Some? <==> |value| >= 3)
    ensures properties % 2 == 1 && r.Some? ==> r.value == value[1] + 256 * (value[2] as int)
    ensures properties % 2 == 0 ==> (r.Some? <==> |value| >= 2)
    ensures properties % 2 == 0 && r.Some? ==> r.value == value[1]
  {
    var format16 := properties % 2 != 0;
    if format16 then UInt16At(value, 1) else UInt8At(value, 1)
  }

  /** An upper-case hex digit, as `%X` writes one. */
  predicate IsHexDigit(c: char)
  {
    '0' <= c <= '9' || 'A' <= c <= 'F'
  }

  /** The upper-case hex digit of a value below 16; it reads back as that value. */
  function HexDigit(d: int): (c: char)
    requires 0 <= d < 16
    ensures IsHexDigit(c)
    ensures DigitValue(c) == d
  {
    if d < 10 then ('0' as int + d) as char else ('A' as int + d - 10) as char
  }

  /** String.format("%02X ", b): two upper-case hex digits and a space, reading back as b. */
  function HexPair(b: byte): (s: string)
    ensures |s| == 3
    ensures IsHexDigit(s[0]) && IsHexDigit(s[1]) && s[2] == ' '
    ensures 16 * DigitValue(s[0]) + DigitValue(s[1]) == b
  {
    [HexDigit(b / 16), HexDigit(b % 16), ' ']
  }

  /** The hex rendering of a payload: one HexPair per byte, in byte order. */
  function HexString(data: seq<byte>): (s: string)
    ensures |s| == 3 * |data|
  {
    if data == [] then "" else HexString(data[..|data| - 1]) + HexPair(data[|data| - 1])
  }

  /** The value of an upper-case hex digit. */
  function DigitValue(c: char): (d: int)
    ensures 0 <= d < 16
  {
    if '0' <= c <= '9' then c as int - '0' as int
    else if 'A' <= c <= 'F' then c as int - 'A' as int + 10
    else 0
  }

  /** Reads a hex rendering back: the byte of each three-character group. */
  function ParseHex(s: string): (data: seq<byte>)
    ensures |data| == |s| / 3
  {
    if |s| < 3 then []
    else ParseHex(s[..|s| - 3]) + [16 * DigitValue(s[|s| - 3]) + DigitValue(s[|s| - 2])]
  }

  /**
   * The dispatch of broadcastUpdate(action, characteristic): heart rate first,
   * then the combined characteristic, then the hex fallback. None stands for
   * the exception a too-short payload raises on the first two paths.
   */
  function Decode(heartRateUuid: Uuid, c: Characteristic): (r: Option<Extras>)
    ensures c.uuid == heartRateUuid ==>
      (r.Some? <==> |c.value| >= if c.properties % 2 == 1 then 3 else 2)
    ensures c.uuid == heartRateUuid && r.Some? ==>
      r.value == HeartRateData(if c.properties % 2 == 1 then c.value[1] + 256 * (c.value[2] as int)
                               else c.value[1])
    ensures c.uuid != heartRateUuid && c.uuid == COMBINE_DATA_CHAR ==>
      (r.Some? <==> |c.value| >= 6)
    ensures c.uuid != heartRateUuid && c.uuid == COMBINE_DATA_CHAR && r.Some? ==>
      r.value == CombinedData(c.value[0] + 256 * (c.value[1] as int) - KELVIN_OFFSET,
                              (c.value[2] + 256 * (c.value[3] as int)) / 100,
                              c.value[4] + 256 * (c.value[5] as int))
    ensures c.uuid != heartRateUuid && c.uuid != COMBINE_DATA_CHAR ==>
      r == if |c.value| == 0 then Some(NoData) else Some(HexData(HexString(c.value)))
  {
    if c.uuid == heartRateUuid then
      match HeartRateValue(c.properties, c.value)
      case None => None
      case Some(bpm) => Some(HeartRateData(bpm))
    else if c.uuid == COMBINE_DATA_CHAR then
      var temperature := CombinedTemperatureNumerator(c.value);
      var humidity := CombinedHumidity(c.value);
      var airQuality := CombinedAirQuality(c.value);
      if temperature.None? || humidity.None? || airQuality.None? then None
      else Some(CombinedData(temperature.value, humidity.value, airQuality.value))
    else if |c.value| > 0 then
      Some(HexData(HexString(c.value)))
    else
      Some(NoData)
  }

  /** The hex rendering places the pair of byte i at characters 3i..3i+3. */
  lemma {:induction false} HexStringAt(data: seq<byte>, i: nat)
    requires i < |data|
    ensures HexString(data)[3 * i..3 * i + 3] == HexPair(data[i])
  {
    var init := data[..|data| - 1];
    if i < |data| - 1 {
      HexStringAt(init, i);
      assert HexString(data)[3 * i..3 * i + 3] == HexString(init)[3 * i..3 * i + 3];
    }
  }

  /** Parsing one more pair appends that pair's byte. */
  lemma ParseHexSnoc(s: string, b: byte)
    ensures ParseHex(s + HexPair(b)) == ParseHex(s) + [b]
  {
    var p := HexPair(b);
    var t := s + p;
    assert |t| - 3 == |s|;
    assert t[..|s|] == s;
    assert t[|s|] == p[0] && t[|s| + 1] == p[1];
  }

  /** Reading the hex rendering back yields the payload: the rendering loses nothing. */
  lemma {:induction false} HexRoundTrip(data: seq<byte>)
    ensures ParseHex(HexString(data)) == data
  {
    if data != [] {
      var init, last := data[..|data| - 1], data[|data| - 1];
      calc {
        ParseHex(HexString(data));
        ParseHex(HexString(init) + HexPair(last));
        { ParseHexSnoc(HexString(init), last); }
        ParseHex(HexString(init)) + [last];
        { HexRoundTrip(init); }
        init + [last];
        data;
      }
    }
  }

  /** The hex loop of broadcastUpdate: a StringBuilder that receives "%02X " per byte. */
  method FormatHex(data: seq<byte>) returns (s: string)
    ensures s == HexString(data)
  {
    s := "";
    var i := 0;
    while i < |data|
      invariant 0 <= i <= |data|
      invariant s == HexString(data[..i])
    {
      assert data[..i + 1][..i] == data[..i];
      s := s + HexPair(data[i]);
      i := i + 1;
    }
    assert data[..i] == data;
  }

  /** broadcastUpdate(action, characteristic), computing the extras it attaches. */
  method BroadcastUpdate(heartRateUuid: Uuid, c: Characteristic) returns (r: Option<Extras>)
    ensures r == Decode(heartRateUuid, c)
  {
    if c.uuid == heartRateUuid {
      var heartRate := HeartRateValue(c.properties, c.value);
      r := if heartRate.None? then None else Some(HeartRateData(heartRate.value));
    } else if c.uuid == COMBINE_DATA_CHAR {
      var temperature := CombinedTemperatureNumerator(c.value);
      var humidity := CombinedHumidity(c.value);
      var airQuality := CombinedAirQuality(c.value);
      if temperature.None? || humidity.None? || airQuality.None? {
        r := None;
      } else {
        r := Some(CombinedData(temperature.value, humidity.value, airQuality.value));
      }
    } else {
      var data := c.value;
      if |data| > 0 {
        var hex := FormatHex(data);
        r := Some(HexData(hex));
      } else {
        r := Some(NoData);
      }
    }
  }

  /** The combined path reads nothing beyond byte 5: later bytes do not change the result. */
  lemma CombinedReadsSixBytes(heartRateUuid: Uuid, c: Characteristic, tail: seq<byte>)
    requires c.uuid != heartRateUuid && c.uuid == COMBINE_DATA_CHAR && |c.value| >= 6
    ensures Decode(heartRateUuid, c.(value := c.value + tail)) == Decode(heartRateUuid, c)
  {
  }

  /** The heart-rate value does not depend on payload byte 0, where the format flag of a Heart Rate Measurement lives. */
  lemma HeartRateIgnoresByte0(properties: int, value: seq<byte>, b: byte)
    requires |value| > 0
    ensures HeartRateValue(properties, value[0 := b]) == HeartRateValue(properties, value)
  {
  }

  /** The little-endian read inverts U16Bytes wherever the pair sits in the payload. */
  lemma ShortUnsignedRoundTrip(prefix: seq<byte>, x: int, suffix: seq<byte>)
    requires 0 <= x < 0x1_0000
    ensures ShortUnsignedAtOffset(prefix + U16Bytes(x) + suffix, |prefix|) == Some(x)
  {
    var v := prefix + U16Bytes(x) + suffix;
    assert v[|prefix|..|prefix| + 2] == U16Bytes(x);
  }

  /** Two unsigned UINT8 reads combined agree with one UINT16 read at the same offset. */
  lemma ShortUnsignedIsUInt16(value: seq<byte>, offset: nat)
    ensures ShortUnsignedAtOffset(value, offset) == UInt16At(value, offset)
  {
  }

  /** A worked payload: raw temperature 0x6B64, humidity 0x13B8, air quality 0x002A. */
  lemma CombinedExample(heartRateUuid: Uuid)
    requires heartRateUuid != COMBINE_DATA_CHAR
    ensures Decode(heartRateUuid, Characteristic(COMBINE_DATA_CHAR, 0, [0x64, 0x6B, 0xB8, 0x13, 0x2A, 0x00]))
         == Some(CombinedData(177, 50, 42))
  {
  }

  /** A worked heart-rate read: properties 0x01 select UINT16, bytes 1..2 are 0x4B 0x00. */
  lemma HeartRateExample(heartRateUuid: Uuid)
    ensures Decode(heartRateUuid, Characteristic(heartRateUuid, 0x01, [0x01, 0x4B, 0x00]))
         == Some(HeartRateData(75))
  {
  }
}
