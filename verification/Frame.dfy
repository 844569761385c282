/**
 The APDU and ASDU codec of an IEC 60870-5-104 link: frame recognition, the
 7-bit-shifted sequence numbers, the builders and the information-object parser.

 An octet is an integer in [0, 256); a mask or a shift of the original is written
 as the division and remainder it stands for, so that every width and wrap-around
 is explicit.  A short float stays the four octets it travels in.
 */
module Frame {
  import opened Wrappers

  type Octet = x: int | 0 <= x < 0x100
  type Word = x: int | 0 <= x < 0x1_0000

  const START_BYTE: Octet := 0x68
  const MAX_APDU_LENGTH := 255

  const TYPE_SINGLE_POINT: Octet := 1
  const TYPE_SCALED_VALUE: Octet := 11
  const TYPE_SHORT_FLOAT: Octet := 13

  datatype Format = I | S | U | Unknown

  datatype Quality = Quality(invalid: bool, notTopical: bool, substituted: bool, blocked: bool, overflow: bool)

  datatype Element = SinglePoint(state: bool) | Scaled(value: int) | ShortFloat(raw: seq<Octet>)

  datatype InfoObject = InfoObject(address: int, element: Element, quality: Quality)

  datatype AsduInfo = AsduInfo(
    typeId: Octet, sequence: bool, objectCount: nat, causeOfTransmission: nat,
    negativeConfirm: bool, test: bool, commonAddress: Word, objects: seq<InfoObject>)

  // ---------------------------------------------------------------- integers

  function WordAt(data: seq<Octet>, offset: nat): Word
    requires offset + 2 <= |data|
  {
    data[offset] as int + 0x100 * (data[offset + 1] as int)
  }

  function WordBytes(value: Word): seq<Octet> {
    [value % 0x100, value / 0x100]
  }

  /** The cast of an unsigned 16-bit value to a signed one. */
  function ToSigned(raw: Word): int {
    if raw < 0x8000 then raw else raw - 0x1_0000
  }

  function IoaAt(data: seq<Octet>, offset: nat): int
    requires offset + 3 <= |data|
  {
    data[offset] as int + 0x100 * (data[offset + 1] as int) + 0x1_0000 * (data[offset + 2] as int)
  }

  /** Only the low 24 bits of an address are written, whatever its sign or size. */
  function IoaBytes(address: int): seq<Octet> {
    [address % 0x100, address / 0x100 % 0x100, address / 0x1_0000 % 0x100]
  }

  function QualityOf(octet: Octet, overflowBit: bool): Quality {
    Quality(octet / 0x80 % 2 == 1, octet / 0x40 % 2 == 1, octet / 0x20 % 2 == 1, octet / 0x10 % 2 == 1,
            overflowBit && octet % 2 == 1)
  }

  // ------------------------------------------------------- frame recognition

  predicate IsValidApdu(frame: seq<Octet>) {
    && 6 <= |frame| <= MAX_APDU_LENGTH
    && frame[0] == START_BYTE
    && frame[1] >= 4
    && frame[1] as int + 2 == |frame|
  }

  function FormatOf(frame: seq<Octet>): Format {
    if !IsValidApdu(frame) then Unknown
    else if frame[2] % 2 == 0 then I
    else if frame[2] % 4 == 1 then S
    else U
  }

  function FixedU(control: Octet): seq<Octet> {
    [START_BYTE, 4, control, 0, 0, 0]
  }

  const STARTDT_ACT := FixedU(0x07)
  const STARTDT_CON := FixedU(0x0b)
  const TESTFR_ACT := FixedU(0x43)
  const TESTFR_CON := FixedU(0x83)

  predicate IsFixedU(frame: seq<Octet>, control: Octet) {
    && IsValidApdu(frame) && frame[1] == 4
    && frame[2] == control && frame[3] == 0 && frame[4] == 0 && frame[5] == 0
  }

  function SendSequence(frame: seq<Octet>): nat {
    if FormatOf(frame) != I then 0 else WordAt(frame, 2) / 2
  }

  function ReceiveSequence(frame: seq<Octet>): nat {
    if !IsValidApdu(frame) then 0 else WordAt(frame, 4) / 2
  }

  // ----------------------------------------------------------------- builders

  /** A sequence number shifted left by one and cut to sixteen bits. */
  function Shifted(sequence: Word): Word {
    sequence * 2 % 0x1_0000
  }

  function SFormat(receiveSequence: Word): seq<Octet> {
    [START_BYTE, 4, 1, 0] + WordBytes(Shifted(receiveSequence))
  }

  function IFormat(sendSequence: Word, receiveSequence: Word, asdu: seq<Octet>): seq<Octet> {
    [START_BYTE, (|asdu| + 4) % 0x100] + WordBytes(Shifted(sendSequence)) + WordBytes(Shifted(receiveSequence)) + asdu
  }

  /** One information object, SQ = 0, cause of transmission 3 (spontaneous). */
  function AsduHeader(typeId: Octet, commonAddress: Word, address: int): seq<Octet> {
    [typeId, 1, 3, 0] + WordBytes(commonAddress) + IoaBytes(address)
  }

  function SinglePointAsdu(commonAddress: Word, address: int, state: bool, quality: Octet): seq<Octet> {
    AsduHeader(TYPE_SINGLE_POINT, commonAddress, address) + [(if state then 1 else 0) + quality / 0x10 * 0x10]
  }

  function FloatAsdu(commonAddress: Word, address: int, raw: seq<Octet>, quality: Octet): seq<Octet>
    requires |raw| == 4
  {
    AsduHeader(TYPE_SHORT_FLOAT, commonAddress, address) + raw + [quality]
  }

  function ScaledAsdu(commonAddress: Word, address: int, value: int, quality: Octet): seq<Octet> {
    AsduHeader(TYPE_SCALED_VALUE, commonAddress, address) + WordBytes(value % 0x1_0000) + [quality]
  }

  method BuildIFormat(sendSequence: Word, receiveSequence: Word, asdu: seq<Octet>) returns (frame: seq<Octet>)
    ensures frame == IFormat(sendSequence, receiveSequence, asdu)
  {
    frame := [];
    frame := frame + [START_BYTE];
    frame := frame + [(|asdu| + 4) % 0x100];
    var send := sendSequence * 2 % 0x1_0000;
    var receive := receiveSequence * 2 % 0x1_0000;
    frame := frame + [send % 0x100];
    frame := frame + [send / 0x100 % 0x100];
    frame := frame + [receive % 0x100];
    frame := frame + [receive / 0x100 % 0x100];
    frame := frame + asdu;
  }

  method BuildAsduHeader(typeId: Octet, commonAddress: Word, address: int) returns (asdu: seq<Octet>)
    ensures asdu == AsduHeader(typeId, commonAddress, address)
  {
    asdu := [];
    asdu := asdu + [typeId];
    asdu := asdu + [0x01];
    asdu := asdu + [0x03];
    asdu := asdu + [0x00];
    asdu := asdu + [commonAddress % 0x100];
    asdu := asdu + [commonAddress / 0x100 % 0x100];
    asdu := asdu + [address % 0x100];
    asdu := asdu + [address / 0x100 % 0x100];
    asdu := asdu + [address / 0x1_0000 % 0x100];
  }

  method BuildSinglePointAsdu(commonAddress: Word, address: int, state: bool, quality: Octet) returns (asdu: seq<Octet>)
    ensures asdu == SinglePointAsdu(commonAddress, address, state, quality)
  {
    asdu := BuildAsduHeader(TYPE_SINGLE_POINT, commonAddress, address);
    asdu := asdu + [(if state then 1 else 0) + quality / 0x10 * 0x10];
  }

  method BuildFloatMeasurementAsdu(commonAddress: Word, address: int, raw: seq<Octet>, quality: Octet)
    returns (asdu: seq<Octet>)
    requires |raw| == 4
    ensures asdu == FloatAsdu(commonAddress, address, raw, quality)
  {
    asdu := BuildAsduHeader(TYPE_SHORT_FLOAT, commonAddress, address);
    asdu := asdu + raw;
    asdu := asdu + [quality];
  }

  method BuildScaledMeasurementAsdu(commonAddress: Word, address: int, value: int, quality: Octet)
    returns (asdu: seq<Octet>)
    requires -0x8000 <= value < 0x8000
    ensures asdu == ScaledAsdu(commonAddress, address, value, quality)
  {
    asdu := BuildAsduHeader(TYPE_SCALED_VALUE, commonAddress, address);
    asdu := asdu + [value % 0x100];
    asdu := asdu + [value / 0x100 % 0x100];
    asdu := asdu + [quality];
  }

  // ------------------------------------------------------------------- parser

  /** Octets of one information element; 0 stands for a type the parser does not know. */
  function ElementSize(typeId: Octet): nat {
    if typeId == TYPE_SINGLE_POINT then 1
    else if typeId == TYPE_SCALED_VALUE then 3
    else if typeId == TYPE_SHORT_FLOAT then 5
    else 0
  }

  function DecodeObject(typeId: Octet, address: int, element: seq<Octet>): InfoObject
    requires ElementSize(typeId) > 0 && |element| == ElementSize(typeId)
  {
    if typeId == TYPE_SINGLE_POINT then
      InfoObject(address, SinglePoint(element[0] % 2 == 1), QualityOf(element[0], false))
    else if typeId == TYPE_SCALED_VALUE then
      InfoObject(address, Scaled(ToSigned(WordAt(element, 0))), QualityOf(element[2], true))
    else
      InfoObject(address, ShortFloat(element[..4]), QualityOf(element[4], true))
  }

  /** The objects of a list in which every element carries its own address. */
  function DecodeAddressed(typeId: Octet, count: nat, data: seq<Octet>): seq<InfoObject> {
    var size := ElementSize(typeId);
    if count == 0 || size == 0 || |data| < 3 + size then []
    else [DecodeObject(typeId, IoaAt(data, 0), data[3..3 + size])]
         + DecodeAddressed(typeId, count - 1, data[3 + size..])
  }

  /** The objects of a list with one base address and consecutive elements. */
  function DecodeConsecutive(typeId: Octet, address: int, count: nat, data: seq<Octet>): seq<InfoObject>
    decreases count
  {
    var size := ElementSize(typeId);
    if count == 0 || size == 0 || |data| < size then []
    else [DecodeObject(typeId, address, data[..size])] + DecodeConsecutive(typeId, address + 1, count - 1, data[size..])
  }

  function DecodeObjects(asdu: seq<Octet>): seq<InfoObject>
    requires |asdu| >= 6
  {
    if asdu[1] < 0x80 then DecodeAddressed(asdu[0], asdu[1], asdu[6..])
    else if |asdu| < 9 then []
    else DecodeConsecutive(asdu[0], IoaAt(asdu, 6), asdu[1] % 0x80, asdu[9..])
  }

  function DecodeAsdu(asdu: seq<Octet>): Option<AsduInfo> {
    if |asdu| < 6 then None
    else Some(AsduInfo(asdu[0], asdu[1] >= 0x80, asdu[1] % 0x80, asdu[2] % 0x40,
                       asdu[2] / 0x40 % 2 == 1, asdu[2] / 0x80 == 1, WordAt(asdu, 4), DecodeObjects(asdu)))
  }

  function DecodeFrame(frame: seq<Octet>): Option<AsduInfo> {
    if FormatOf(frame) != I || |frame| < 12 then None else DecodeAsdu(frame[6..])
  }

  function FrameObjects(frame: seq<Octet>): seq<InfoObject> {
    match DecodeFrame(frame)
    case None => []
    case Some(info) => info.objects
  }

  /** What the loop of ParseAsduInfo still has to produce at a given offset. */
  ghost function Outstanding(asdu: seq<Octet>, sequence: bool, baseAddress: int, index: nat, count: nat, offset: nat)
    : seq<InfoObject>
    requires |asdu| >= 6 && index <= count && offset <= |asdu|
  {
    if sequence then DecodeConsecutive(asdu[0], baseAddress + index, count - index, asdu[offset..])
    else DecodeAddressed(asdu[0], count - index, asdu[offset..])
  }

  /** One turn of the loop: it stops exactly when the next object does not fit, and otherwise yields that object. */
  lemma OutstandingStep(asdu: seq<Octet>, sequence: bool, baseAddress: int, index: nat, count: nat, offset: nat)
    requires |asdu| >= 6 && index <= count && offset <= |asdu|
    ensures var size, head := ElementSize(asdu[0]), if sequence then offset else offset + 3;
            var outstanding := Outstanding(asdu, sequence, baseAddress, index, count, offset);
            if index == count || size == 0 || head + size > |asdu| then outstanding == []
            else
              var address := if sequence then baseAddress + index else IoaAt(asdu, offset);
              outstanding == [DecodeObject(asdu[0], address, asdu[head..head + size])]
                             + Outstanding(asdu, sequence, baseAddress, index + 1, count, head + size)
  {
    hide DecodeObject;
    var size, head, rest := ElementSize(asdu[0]), if sequence then offset else offset + 3, asdu[offset..];
    if size != 0 && head + size <= |asdu| {
      assert rest[head - offset..head - offset + size] == asdu[head..head + size];
      assert rest[head - offset + size..] == asdu[head + size..];
    }
  }

  method ReadObject(typeId: Octet, address: int, asdu: seq<Octet>, offset: nat) returns (decoded: InfoObject)
    requires 0 < ElementSize(typeId) <= |asdu| - offset
    ensures decoded == DecodeObject(typeId, address, asdu[offset..offset + ElementSize(typeId)])
  {
    if typeId == TYPE_SINGLE_POINT {
      var siq := asdu[offset];
      decoded := InfoObject(address, SinglePoint(siq % 2 == 1), QualityOf(siq, false));
    } else if typeId == TYPE_SCALED_VALUE {
      decoded := InfoObject(address, Scaled(ToSigned(WordAt(asdu, offset))), QualityOf(asdu[offset + 2], true));
    } else {
      assert asdu[offset..offset + 5][..4] == asdu[offset..offset + 4];
      decoded := InfoObject(address, ShortFloat(asdu[offset..offset + 4]), QualityOf(asdu[offset + 4], true));
    }
  }

  /** The offset-driven object loop: one pass over the octets, reading every field in place. */
  method ReadObjects(asdu: seq<Octet>, sequence: bool, baseAddress: int, objectCount: nat, start: nat)
    returns (objects: seq<InfoObject>)
    requires 6 <= start <= |asdu|
    ensures objects == Outstanding(asdu, sequence, baseAddress, 0, objectCount, start)
  {
    hide *;
    objects := [];
    var offset, index := start, 0;
    while index < objectCount
      invariant 0 <= index <= objectCount && 6 <= offset <= |asdu|
      invariant objects + Outstanding(asdu, sequence, baseAddress, index, objectCount, offset)
             == Outstanding(asdu, sequence, baseAddress, 0, objectCount, start)
    {
      OutstandingStep(asdu, sequence, baseAddress, index, objectCount, offset);
      var address := baseAddress + index;
      if !sequence {
        if offset + 3 > |asdu| {
          break;
        }
        address := IoaAt(asdu, offset);
        offset := offset + 3;
      }
      var size := ElementSize(asdu[0]);
      if size == 0 || offset + size > |asdu| {
        break;
      }
      var decoded := ReadObject(asdu[0], address, asdu, offset);
      offset := offset + size;
      objects := objects + [decoded];
      index := index + 1;
    }
    if index == objectCount {
      OutstandingStep(asdu, sequence, baseAddress, index, objectCount, offset);
    }
  }

  method ParseAsduInfo(frame: seq<Octet>) returns (result: Option<AsduInfo>)
    ensures result == DecodeFrame(frame)
  {
    if FormatOf(frame) != I || |frame| < 12 {
      return None;
    }
    var asdu := frame[6..];
    var typeId, vsq := asdu[0], asdu[1];
    var info := AsduInfo(typeId, vsq >= 0x80, vsq % 0x80, asdu[2] % 0x40, asdu[2] / 0x40 % 2 == 1,
                         asdu[2] / 0x80 == 1, WordAt(asdu, 4), []);
    var offset, baseAddress := 6, 0;
    if info.sequence {
      if offset + 3 > |asdu| {
        return Some(info);
      }
      baseAddress := IoaAt(asdu, offset);
      offset := offset + 3;
    }
    var objects := ReadObjects(asdu, info.sequence, baseAddress, info.objectCount, offset);
    return Some(info.(objects := objects));
  }
}
