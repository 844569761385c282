/**
 The layout of frames and ASDUs, octet by octet: what the builders write where, and where the parser reads each field of
 each object, down to the bits of its quality.
 */
module WireFormat {
  import opened Frame
  import opened FrameProperties

  // ------------------------------------------------------------------ builders

  /** Sequence numbers travel shifted left by one, low octet first, behind start octet and length. */
  lemma IFormatOctets(send: Word, receive: Word, asdu: seq<Octet>)
    ensures var frame := IFormat(send, receive, asdu);
            && |frame| == 6 + |asdu| && frame[6..] == asdu
            && frame[0] == 0x68 && frame[1] == (|asdu| + 4) % 0x100
            && frame[2] as int + 0x100 * frame[3] as int == 2 * send % 0x1_0000
            && frame[4] as int + 0x100 * frame[5] as int == 2 * receive % 0x1_0000
  {
    var frame := IFormat(send, receive, asdu);
    assert frame[2] == Shifted(send) % 0x100 && frame[3] == Shifted(send) / 0x100;
    assert frame[4] == Shifted(receive) % 0x100 && frame[5] == Shifted(receive) / 0x100;
  }

  /** One spontaneous object: type, SQ = 0 with one element, cause 3, common address and address low octet first. */
  lemma HeaderOctets(typeId: Octet, commonAddress: Word, address: int)
    ensures var asdu := AsduHeader(typeId, commonAddress, address);
            && |asdu| == 9 && asdu[..4] == [typeId, 1, 3, 0]
            && asdu[4] as int + 0x100 * asdu[5] as int == commonAddress
            && asdu[6] as int + 0x100 * asdu[7] as int + 0x1_0000 * asdu[8] as int == address % 0x100_0000
  {
    LowThreeOctets(address);
  }

  /** What stands behind the header in each of the three ASDUs. */
  lemma ElementOctets(commonAddress: Word, address: int, state: bool, value: int, raw: seq<Octet>, quality: Octet)
    requires |raw| == 4 && -0x8000 <= value < 0x8000
    ensures var asdu := SinglePointAsdu(commonAddress, address, state, quality);
            && |asdu| == 10 && asdu[..9] == AsduHeader(1, commonAddress, address)
            && asdu[9] % 0x10 == (if state then 1 else 0) && asdu[9] / 0x10 == quality / 0x10
    ensures var asdu := ScaledAsdu(commonAddress, address, value, quality);
            && |asdu| == 12 && asdu[..9] == AsduHeader(11, commonAddress, address)
            && asdu[9] as int + 0x100 * asdu[10] as int == (if value < 0 then value + 0x1_0000 else value)
            && asdu[11] == quality
    ensures FloatAsdu(commonAddress, address, raw, quality) == AsduHeader(13, commonAddress, address) + raw + [quality]
  {
    assert |AsduHeader(1, commonAddress, address)| == |AsduHeader(11, commonAddress, address)| == 9;
    hide AsduHeader;
    var scaled := ScaledAsdu(commonAddress, address, value, quality);
    assert scaled[9..11] == WordBytes(value % 0x1_0000);
    assert scaled[9] == WordBytes(value % 0x1_0000)[0] && scaled[10] == WordBytes(value % 0x1_0000)[1];
  }

  // -------------------------------------------------------------------- parser

  /** The four high bits of a quality octet, and overflow in its lowest bit where the type has one. */
  ghost predicate QualityBits(quality: Quality, octet: Octet, overflowBit: bool) {
    && (quality.invalid <==> octet >= 0x80)
    && (quality.notTopical <==> octet % 0x80 >= 0x40)
    && (quality.substituted <==> octet % 0x40 >= 0x20)
    && (quality.blocked <==> octet % 0x20 >= 0x10)
    && (quality.overflow <==> overflowBit && octet % 2 == 1)
  }

  lemma QualityReads(octet: Octet, overflowBit: bool)
    ensures QualityBits(QualityOf(octet, overflowBit), octet, overflowBit)
  {
    assert octet / 0x80 % 2 == 1 <==> octet >= 0x80;
    assert octet / 0x40 % 2 == 1 <==> octet % 0x80 >= 0x40;
    assert octet / 0x20 % 2 == 1 <==> octet % 0x40 >= 0x20;
    assert octet / 0x10 % 2 == 1 <==> octet % 0x20 >= 0x10;
  }

  /** An element of an ASDU as its octets say: type 1 a state, type 11 a signed 16-bit value, type 13 a short float. */
  ghost predicate ReadsElement(content: InfoObject, typeId: Octet, element: seq<Octet>) {
    if typeId == 1 then
      && |element| == 1 && content.element == SinglePoint(element[0] % 2 == 1)
      && QualityBits(content.quality, element[0], false)
    else if typeId == 11 then
      && |element| == 3 && content.element.Scaled?
      && content.element.value
          == element[0] as int + 0x100 * element[1] as int - (if element[1] >= 0x80 then 0x1_0000 else 0)
      && QualityBits(content.quality, element[2], true)
    else
      && typeId == 13 && |element| == 5 && content.element == ShortFloat(element[..4])
      && QualityBits(content.quality, element[4], true)
  }

  lemma ElementReads(typeId: Octet, address: int, element: seq<Octet>)
    requires ElementSize(typeId) > 0 && |element| == ElementSize(typeId)
    ensures ReadsElement(DecodeObject(typeId, address, element), typeId, element)
    ensures DecodeObject(typeId, address, element).address == address
  {
    hide QualityOf, QualityBits;
    QualityReads(element[0], false);
    if |element| == 3 {
      QualityReads(element[2], true);
    } else if |element| == 5 {
      QualityReads(element[4], true);
    }
  }

  lemma ObjectsHaveType(asdu: seq<Octet>)
    requires |asdu| >= 6 && DecodeObjects(asdu) != []
    ensures asdu[0] in {1, 11, 13}
    ensures ElementSize(asdu[0]) == (if asdu[0] == 1 then 1 else if asdu[0] == 11 then 3 else 5)
    ensures asdu[1] >= 0x80 ==> |asdu| >= 9
  {
    hide DecodeObject, IoaAt;
  }

  lemma AddressReads(data: seq<Octet>, offset: nat)
    requires offset + 3 <= |data|
    ensures IoaAt(data, offset)
            == data[offset] as int + 0x100 * data[offset + 1] as int + 0x1_0000 * data[offset + 2] as int
  {
  }

  /** SQ = 0: object k is the element behind its own three-octet address. */
  lemma AddressedReads(asdu: seq<Octet>, k: nat)
    requires |asdu| >= 6 && asdu[1] < 0x80 && k < |DecodeObjects(asdu)|
    ensures var size := if asdu[0] == 1 then 1 else if asdu[0] == 11 then 3 else 5;
            var at := 6 + (3 + size) * k;
            && at + 3 + size <= |asdu|
            && DecodeObjects(asdu)[k].address
               == asdu[at] as int + 0x100 * asdu[at + 1] as int + 0x1_0000 * asdu[at + 2] as int
            && ReadsElement(DecodeObjects(asdu)[k], asdu[0], asdu[at + 3..at + 3 + size])
  {
    hide DecodeObjects, DecodeObject, ReadsElement, ElementSize, IoaAt;
    ObjectsHaveType(asdu);
    var size := ElementSize(asdu[0]);
    var at := 6 + (3 + size) * k;
    AddressedOffset(asdu, k);
    AddressReads(asdu, at);
    ElementReads(asdu[0], IoaAt(asdu, at), asdu[at + 3..at + 3 + size]);
  }

  /** SQ = 1: object k is element k behind the one address there is, its own address counted up from it. */
  lemma ConsecutiveReads(asdu: seq<Octet>, k: nat)
    requires |asdu| >= 6 && asdu[1] >= 0x80 && k < |DecodeObjects(asdu)|
    ensures var size := if asdu[0] == 1 then 1 else if asdu[0] == 11 then 3 else 5;
            var at := 9 + size * k;
            && at + size <= |asdu|
            && DecodeObjects(asdu)[k].address
               == asdu[6] as int + 0x100 * asdu[7] as int + 0x1_0000 * asdu[8] as int + k
            && ReadsElement(DecodeObjects(asdu)[k], asdu[0], asdu[at..at + size])
  {
    hide DecodeObjects, DecodeObject, ReadsElement, ElementSize, IoaAt;
    ObjectsHaveType(asdu);
    var size := ElementSize(asdu[0]);
    var at := 9 + size * k;
    ConsecutiveOffset(asdu, k);
    AddressReads(asdu, 6);
    ElementReads(asdu[0], IoaAt(asdu, 6) + k, asdu[at..at + size]);
  }

  /** The fields in front of the objects: type, SQ bit and count, cause, the bits for negative and test, common address.
      */
  lemma InfoReads(frame: seq<Octet>)
    ensures DecodeFrame(frame).Some? <==> IsValidApdu(frame) && frame[2] % 2 == 0 && |frame| >= 12
    ensures DecodeFrame(frame).Some? ==>
              var info := DecodeFrame(frame).value;
              && info.typeId == frame[6] && info.sequence == (frame[7] >= 0x80)
              && info.objectCount == frame[7] as int % 0x80
              && info.causeOfTransmission == frame[8] as int % 0x40
              && info.negativeConfirm == (frame[8] as int % 0x80 >= 0x40) && info.test == (frame[8] >= 0x80)
              && info.commonAddress == frame[10] as int + 0x100 * frame[11] as int
              && info.objects == DecodeObjects(frame[6..])
  {
    hide DecodeObjects;
    if DecodeFrame(frame).Some? {
      assert frame[8] / 0x40 % 2 == 1 <==> frame[8] as int % 0x80 >= 0x40;
    }
  }

  // ---------------------------------------------------------------- round trip

  /** For each builder, the one parsed object has exactly the quality bits that were written. */
  lemma BuiltQualityReads(send: Word, receive: Word, commonAddress: Word, address: int, state: bool, value: int,
                          raw: seq<Octet>, quality: Octet)
    requires |raw| == 4 && -0x8000 <= value < 0x8000
    ensures var info := DecodeFrame(IFormat(send, receive, SinglePointAsdu(commonAddress, address, state, quality)));
            info.Some? && |info.value.objects| == 1 && QualityBits(info.value.objects[0].quality, quality, false)
    ensures var info := DecodeFrame(IFormat(send, receive, ScaledAsdu(commonAddress, address, value, quality)));
            info.Some? && |info.value.objects| == 1 && QualityBits(info.value.objects[0].quality, quality, true)
    ensures var info := DecodeFrame(IFormat(send, receive, FloatAsdu(commonAddress, address, raw, quality)));
            info.Some? && |info.value.objects| == 1 && QualityBits(info.value.objects[0].quality, quality, true)
  {
    hide QualityOf, QualityBits, DecodeFrame, IFormat, SinglePointAsdu, ScaledAsdu, FloatAsdu;
    QualityReads(quality, false);
    QualityReads(quality, true);
    SinglePointRoundTrip(send, receive, commonAddress, address, state, quality);
    ScaledRoundTrip(send, receive, commonAddress, address, value, quality);
    FloatRoundTrip(send, receive, commonAddress, address, raw, quality);
  }
}
