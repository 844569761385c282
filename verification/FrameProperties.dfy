/**
 What the codec of module Frame promises: the builders are inverted by the parser,
 the object loop yields exactly the objects that fit, the two object layouts carry
 the same information, and a shortened ASDU loses objects only from its end.
 */
module FrameProperties {
  import opened Wrappers
  import opened Frame

  // --------------------------------------------------------- built frames

  /** The frame built around an ASDU is acceptable exactly when the ASDU has at most 249 octets. */
  lemma BuiltFrameValidity(send: Word, receive: Word, asdu: seq<Octet>)
    ensures IsValidApdu(IFormat(send, receive, asdu)) <==> |asdu| <= 249
  {
    var frame := IFormat(send, receive, asdu);
    assert |frame| == |asdu| + 6 && frame[0] == START_BYTE && frame[1] == (|asdu| + 4) % 0x100;
  }

  /** Both sequence numbers survive modulo 2^15, and the ASDU is carried untouched. */
  lemma BuiltFrameFields(send: Word, receive: Word, asdu: seq<Octet>)
    requires |asdu| <= 249
    ensures var frame := IFormat(send, receive, asdu);
            && FormatOf(frame) == I
            && SendSequence(frame) == send % 0x8000
            && ReceiveSequence(frame) == receive % 0x8000
            && frame[6..] == asdu
  {
    BuiltFrameValidity(send, receive, asdu);
    var frame := IFormat(send, receive, asdu);
    assert frame[2] == Shifted(send) % 0x100 && frame[3] == Shifted(send) / 0x100;
    assert frame[4] == Shifted(receive) % 0x100 && frame[5] == Shifted(receive) / 0x100;
    assert send * 2 % 0x1_0000 / 2 == send % 0x8000;
  }

  /** The acknowledgement frame carries its sequence number modulo 2^15. */
  lemma SFormatFields(receive: Word)
    ensures FormatOf(SFormat(receive)) == S && ReceiveSequence(SFormat(receive)) == receive % 0x8000
  {
    assert receive * 2 % 0x1_0000 / 2 == receive % 0x8000;
  }

  lemma WordRoundTrip(value: Word, data: seq<Octet>, offset: nat)
    requires offset + 2 <= |data| && data[offset..offset + 2] == WordBytes(value)
    ensures WordAt(data, offset) == value
  {
    assert data[offset] == WordBytes(value)[0] && data[offset + 1] == WordBytes(value)[1];
  }

  /** An address comes back reduced to the 24 bits that were written. */
  lemma IoaRoundTrip(address: int, data: seq<Octet>, offset: nat)
    requires offset + 3 <= |data| && data[offset..offset + 3] == IoaBytes(address)
    ensures IoaAt(data, offset) == address % 0x100_0000
  {
    var bytes := IoaBytes(address);
    assert data[offset] == bytes[0] && data[offset + 1] == bytes[1] && data[offset + 2] == bytes[2];
    LowThreeOctets(address);
  }

  lemma LowThreeOctets(n: int)
    ensures n % 0x100 + 0x100 * (n / 0x100 % 0x100) + 0x1_0000 * (n / 0x1_0000 % 0x100) == n % 0x100_0000
  {
    var q := n / 0x100;
    var p := q / 0x100;
    assert p == n / 0x1_0000;
    Remainder(n, p / 0x100, n % 0x100 + 0x100 * (q % 0x100) + 0x1_0000 * (p % 0x100), 0x100_0000);
  }

  lemma Remainder(n: int, d: int, r: int, m: nat)
    requires m in {0x8000, 0x1_0000, 0x100_0000} && n == m * d + r && 0 <= r < m
    ensures n % m == r
  {
  }

  /** What the parser reports about a frame with one spontaneous object. */
  function Spontaneous(typeId: Octet, commonAddress: Word, content: InfoObject): Option<AsduInfo> {
    Some(AsduInfo(typeId, false, 1, 3, false, false, commonAddress, [content]))
  }

  /** A header followed by one element parses to that one element. */
  lemma SingleObjectAsdu(typeId: Octet, commonAddress: Word, address: int, element: seq<Octet>)
    requires ElementSize(typeId) > 0 && |element| == ElementSize(typeId)
    ensures DecodeAsdu(AsduHeader(typeId, commonAddress, address) + element)
         == Spontaneous(typeId, commonAddress, DecodeObject(typeId, address % 0x100_0000, element))
  {
    var asdu := AsduHeader(typeId, commonAddress, address) + element;
    assert asdu[4..6] == WordBytes(commonAddress);
    WordRoundTrip(commonAddress, asdu, 4);
    var data := asdu[6..];
    assert data == IoaBytes(address) + element;
    IoaRoundTrip(address, data, 0);
    assert data[3..3 + |element|] == element;
    assert DecodeAddressed(typeId, 0, data[3 + |element|..]) == [];
    assert DecodeAddressed(typeId, 1, data) == [DecodeObject(typeId, address % 0x100_0000, element)];
    assert DecodeObjects(asdu) == DecodeAddressed(typeId, 1, data);
  }

  lemma SingleObjectFrame(send: Word, receive: Word, typeId: Octet, commonAddress: Word, address: int,
                          element: seq<Octet>, asdu: seq<Octet>)
    requires ElementSize(typeId) > 0 && |element| == ElementSize(typeId)
    requires asdu == AsduHeader(typeId, commonAddress, address) + element
    ensures DecodeFrame(IFormat(send, receive, asdu))
         == Spontaneous(typeId, commonAddress, DecodeObject(typeId, address % 0x100_0000, element))
  {
    var frame := IFormat(send, receive, asdu);
    BuiltFrameFields(send, receive, asdu);
    assert |frame| == |asdu| + 6 && |asdu| == 9 + |element|;
    assert DecodeFrame(frame) == DecodeAsdu(asdu);
    SingleObjectAsdu(typeId, commonAddress, address, element);
    assert DecodeAsdu(AsduHeader(typeId, commonAddress, address) + element) == DecodeAsdu(asdu);
  }

  /** A single point keeps its state and the four quality bits of its octet; it never reports overflow. */
  lemma SinglePointRoundTrip(send: Word, receive: Word, commonAddress: Word, address: int, state: bool, quality: Octet)
    ensures var frame := IFormat(send, receive, SinglePointAsdu(commonAddress, address, state, quality));
            && SendSequence(frame) == send % 0x8000 && ReceiveSequence(frame) == receive % 0x8000
            && DecodeFrame(frame) == Spontaneous(
                TYPE_SINGLE_POINT, commonAddress,
                InfoObject(address % 0x100_0000, SinglePoint(state), QualityOf(quality, false)))
  {
    var octet: Octet := (if state then 1 else 0) + quality / 0x10 * 0x10;
    var asdu := SinglePointAsdu(commonAddress, address, state, quality);
    BuiltFrameFields(send, receive, asdu);
    SingleObjectFrame(send, receive, TYPE_SINGLE_POINT, commonAddress, address, [octet], asdu);
    SinglePointOctet(state, quality);
  }

  lemma SinglePointOctet(state: bool, quality: Octet)
    ensures var octet: int := (if state then 1 else 0) + quality / 0x10 * 0x10;
            octet < 0x100 && (octet % 2 == 1) == state && QualityOf(octet, false) == QualityOf(quality, false)
  {
    var octet: int := (if state then 1 else 0) + quality / 0x10 * 0x10;
    assert octet / 0x10 == quality / 0x10;
    HighBits(octet);
    HighBits(quality);
  }

  lemma HighBits(octet: Octet)
    ensures octet / 0x20 == octet / 0x10 / 2 && octet / 0x40 == octet / 0x10 / 4 && octet / 0x80 == octet / 0x10 / 8
  {
  }

  /** A scaled value comes back as the signed 16-bit number it was written from. */
  lemma ScaledRoundTrip(send: Word, receive: Word, commonAddress: Word, address: int, value: int, quality: Octet)
    requires -0x8000 <= value < 0x8000
    ensures var frame := IFormat(send, receive, ScaledAsdu(commonAddress, address, value, quality));
            && SendSequence(frame) == send % 0x8000 && ReceiveSequence(frame) == receive % 0x8000
            && DecodeFrame(frame) == Spontaneous(
                TYPE_SCALED_VALUE, commonAddress,
                InfoObject(address % 0x100_0000, Scaled(value), QualityOf(quality, true)))
  {
    var element := WordBytes(value % 0x1_0000) + [quality];
    var asdu := ScaledAsdu(commonAddress, address, value, quality);
    assert asdu == AsduHeader(TYPE_SCALED_VALUE, commonAddress, address) + element;
    BuiltFrameFields(send, receive, asdu);
    SingleObjectFrame(send, receive, TYPE_SCALED_VALUE, commonAddress, address, element, asdu);
    WordRoundTrip(value % 0x1_0000, element, 0);
    assert ToSigned(value % 0x1_0000) == value;
  }

  /** A short float comes back with the four octets it was written from. */
  lemma FloatRoundTrip(send: Word, receive: Word, commonAddress: Word, address: int, raw: seq<Octet>, quality: Octet)
    requires |raw| == 4
    ensures var frame := IFormat(send, receive, FloatAsdu(commonAddress, address, raw, quality));
            && SendSequence(frame) == send % 0x8000 && ReceiveSequence(frame) == receive % 0x8000
            && DecodeFrame(frame) == Spontaneous(
                TYPE_SHORT_FLOAT, commonAddress,
                InfoObject(address % 0x100_0000, ShortFloat(raw), QualityOf(quality, true)))
  {
    var element := raw + [quality];
    var asdu := FloatAsdu(commonAddress, address, raw, quality);
    assert asdu == AsduHeader(TYPE_SHORT_FLOAT, commonAddress, address) + element;
    BuiltFrameFields(send, receive, asdu);
    SingleObjectFrame(send, receive, TYPE_SHORT_FLOAT, commonAddress, address, element, asdu);
    assert element[..4] == raw;
  }

  // ----------------------------------------------------- closed form of the loop

  /** Addressed layout: as many objects as are announced and fit. */
  lemma {:induction false} AddressedCount(typeId: Octet, count: nat, data: seq<Octet>)
    requires ElementSize(typeId) > 0
    ensures |DecodeAddressed(typeId, count, data)| == Min(count, |data| / (3 + ElementSize(typeId)))
    decreases count
  {
    var stride := 3 + ElementSize(typeId);
    Quotient(|data|, stride);
    if count > 0 && |data| >= stride {
      AddressedCount(typeId, count - 1, data[stride..]);
    }
  }

  lemma AddressedStep(typeId: Octet, count: nat, data: seq<Octet>)
    requires DecodeAddressed(typeId, count, data) != []
    ensures var size, stride := ElementSize(typeId), 3 + ElementSize(typeId);
            && 0 < size && stride <= |data| && count > 0
            && DecodeAddressed(typeId, count, data)
               == [DecodeObject(typeId, IoaAt(data, 0), data[3..stride])]
                   + DecodeAddressed(typeId, count - 1, data[stride..])
  {
    hide DecodeObject, ElementSize, IoaAt;
  }

  /** Addressed layout: object k starts at k times (3 + element size). */
  lemma {:induction false} AddressedAt(typeId: Octet, count: nat, data: seq<Octet>, k: nat)
    requires ElementSize(typeId) > 0 && k < |DecodeAddressed(typeId, count, data)|
    ensures var stride := 3 + ElementSize(typeId);
            && stride * k + stride <= |data|
            && DecodeAddressed(typeId, count, data)[k]
               == DecodeObject(typeId, IoaAt(data, stride * k), data[stride * k + 3..stride * k + stride])
    decreases k
  {
    hide DecodeObject, IoaAt, ElementSize, DecodeAddressed;
    var stride := 3 + ElementSize(typeId);
    AddressedStep(typeId, count, data);
    if k == 0 {
      assert stride * k == 0;
    } else {
      var tail, at := data[stride..], stride * k;
      AddressedAt(typeId, count - 1, tail, k - 1);
      IoaShift(data, stride, at);
      Multiple(stride, k);
      SliceShift(data, stride, at + 3, at + stride);
    }
  }

  lemma Multiple(m: nat, k: nat)
    ensures m * (k - 1) == m * k - m
  {
  }

  lemma SliceShift<T>(data: seq<T>, shift: nat, from: nat, to: nat)
    requires shift <= from <= to <= |data|
    ensures data[shift..][from - shift..to - shift] == data[from..to]
  {
  }

  lemma IoaShift(data: seq<Octet>, shift: nat, offset: nat)
    requires shift <= offset && offset + 3 <= |data|
    ensures IoaAt(data[shift..], offset - shift) == IoaAt(data, offset)
  {
  }

  /** Consecutive layout: as many objects as are announced and fit. */
  lemma {:induction false} ConsecutiveCount(typeId: Octet, address: int, count: nat, data: seq<Octet>)
    requires ElementSize(typeId) > 0
    ensures |DecodeConsecutive(typeId, address, count, data)| == Min(count, |data| / ElementSize(typeId))
    decreases count
  {
    var size := ElementSize(typeId);
    Quotient(|data|, size);
    if count > 0 && |data| >= size {
      ConsecutiveCount(typeId, address + 1, count - 1, data[size..]);
    }
  }

  lemma ConsecutiveStep(typeId: Octet, address: int, count: nat, data: seq<Octet>)
    requires DecodeConsecutive(typeId, address, count, data) != []
    ensures var size := ElementSize(typeId);
            && 0 < size <= |data| && count > 0
            && DecodeConsecutive(typeId, address, count, data)
               == [DecodeObject(typeId, address, data[..size])]
                   + DecodeConsecutive(typeId, address + 1, count - 1, data[size..])
  {
    hide DecodeObject, ElementSize;
  }

  /** Consecutive layout: element k starts at k times the element size, its address counted up from the base. */
  lemma {:induction false} ConsecutiveAt(typeId: Octet, address: int, count: nat, data: seq<Octet>, k: nat)
    requires ElementSize(typeId) > 0 && k < |DecodeConsecutive(typeId, address, count, data)|
    ensures var size := ElementSize(typeId);
            && size * k + size <= |data|
            && DecodeConsecutive(typeId, address, count, data)[k]
               == DecodeObject(typeId, address + k, data[size * k..size * k + size])
    decreases k
  {
    hide DecodeObject, ElementSize, DecodeConsecutive;
    var size := ElementSize(typeId);
    ConsecutiveStep(typeId, address, count, data);
    if k == 0 {
      assert size * k == 0;
      assert data[0..size] == data[..size];
    } else {
      var tail, at := data[size..], size * k;
      ConsecutiveAt(typeId, address + 1, count - 1, tail, k - 1);
      Multiple(size, k);
      SliceShift(data, size, at, at + size);
    }
  }

  lemma Quotient(n: nat, d: nat)
    requires d in {1, 3, 4, 5, 6, 8}
    ensures n >= d ==> n / d == (n - d) / d + 1
    ensures n < d ==> n / d == 0
  {
  }

  /** The number of objects of an ASDU of n octets, and none at all for an unknown type. */
  lemma ObjectCount(asdu: seq<Octet>)
    requires |asdu| >= 6
    ensures var n, size, count := |asdu|, ElementSize(asdu[0]), asdu[1] as int % 0x80;
            |DecodeObjects(asdu)| ==
            if size == 0 then 0
            else if asdu[1] < 0x80 then Min(count, (n - 6) / (3 + size))
            else if n < 9 then 0
            else Min(count, (n - 9) / size)
  {
    if ElementSize(asdu[0]) > 0 {
      if asdu[1] < 0x80 {
        AddressedCount(asdu[0], asdu[1], asdu[6..]);
      } else if |asdu| >= 9 {
        ConsecutiveCount(asdu[0], IoaAt(asdu, 6), asdu[1] % 0x80, asdu[9..]);
      }
    }
  }

  /** Where in the ASDU object k was read, when every object carries its address. */
  lemma AddressedOffset(asdu: seq<Octet>, k: nat)
    requires |asdu| >= 6 && asdu[1] < 0x80 && ElementSize(asdu[0]) > 0 && k < |DecodeObjects(asdu)|
    ensures var size, at := ElementSize(asdu[0]), 6 + (3 + ElementSize(asdu[0])) * k;
            && at + 3 + size <= |asdu|
            && DecodeObjects(asdu)[k] == DecodeObject(asdu[0], IoaAt(asdu, at), asdu[at + 3..at + 3 + size])
  {
    hide DecodeObject, DecodeAddressed;
    var size, data := ElementSize(asdu[0]), asdu[6..];
    AddressedAt(asdu[0], asdu[1], data, k);
    var at := (3 + size) * k;
    SliceShift(asdu, 6, 6 + at + 3, 6 + at + 3 + size);
  }

  /** Where in the ASDU object k was read, when only the first address is present. */
  lemma ConsecutiveOffset(asdu: seq<Octet>, k: nat)
    requires |asdu| >= 9 && asdu[1] >= 0x80 && ElementSize(asdu[0]) > 0 && k < |DecodeObjects(asdu)|
    ensures var size, at := ElementSize(asdu[0]), 9 + ElementSize(asdu[0]) * k;
            && at + size <= |asdu|
            && DecodeObjects(asdu)[k] == DecodeObject(asdu[0], IoaAt(asdu, 6) + k, asdu[at..at + size])
  {
    hide DecodeObject, DecodeConsecutive;
    var size, data := ElementSize(asdu[0]), asdu[9..];
    ConsecutiveAt(asdu[0], IoaAt(asdu, 6), asdu[1] % 0x80, data, k);
    var at := size * k;
    SliceShift(asdu, 9, 9 + at, 9 + at + size);
  }

  // ------------------------------------------------------- the two layouts agree

  ghost predicate Elements(typeId: Octet, elements: seq<seq<Octet>>) {
    ElementSize(typeId) > 0 && forall e <- elements :: |e| == ElementSize(typeId)
  }

  /** Every element behind its own address. */
  function EncodeAddressed(address: int, elements: seq<seq<Octet>>): seq<Octet>
    decreases |elements|
  {
    if elements == [] then [] else IoaBytes(address) + elements[0] + EncodeAddressed(address + 1, elements[1..])
  }

  function EncodeConsecutive(elements: seq<seq<Octet>>): seq<Octet> {
    if elements == [] then [] else elements[0] + EncodeConsecutive(elements[1..])
  }

  function ObjectList(typeId: Octet, address: int, elements: seq<seq<Octet>>): seq<InfoObject>
    requires Elements(typeId, elements)
    decreases |elements|
  {
    if elements == [] then []
    else [DecodeObject(typeId, address, elements[0])] + ObjectList(typeId, address + 1, elements[1..])
  }

  lemma AddressedHead(address: int, element: seq<Octet>, tail: seq<Octet>)
    requires 0 <= address < 0x100_0000
    ensures var data := IoaBytes(address) + element + tail;
            && |data| == 3 + |element| + |tail|
            && IoaAt(data, 0) == address
            && data[3..3 + |element|] == element
            && data[3 + |element|..] == tail
  {
    var data := IoaBytes(address) + element + tail;
    assert data[0..3] == IoaBytes(address);
    IoaRoundTrip(address, data, 0);
  }

  lemma {:induction false} AddressedLayout(typeId: Octet, address: int, elements: seq<seq<Octet>>)
    requires Elements(typeId, elements) && 0 <= address && address + |elements| <= 0x100_0000
    ensures DecodeAddressed(typeId, |elements|, EncodeAddressed(address, elements))
            == ObjectList(typeId, address, elements)
    decreases |elements|
  {
    hide DecodeObject, IoaBytes;
    if elements != [] {
      var size, data, tail := ElementSize(typeId), EncodeAddressed(address, elements),
                              EncodeAddressed(address + 1, elements[1..]);
      AddressedLayout(typeId, address + 1, elements[1..]);
      AddressedHead(address, elements[0], tail);
      assert data == IoaBytes(address) + elements[0] + tail;
    }
  }

  lemma {:induction false} ConsecutiveLayout(typeId: Octet, address: int, elements: seq<seq<Octet>>)
    requires Elements(typeId, elements)
    ensures DecodeConsecutive(typeId, address, |elements|, EncodeConsecutive(elements))
            == ObjectList(typeId, address, elements)
    decreases |elements|
  {
    if elements != [] {
      var size, data := ElementSize(typeId), EncodeConsecutive(elements);
      ConsecutiveLayout(typeId, address + 1, elements[1..]);
      assert data[..size] == elements[0] && data[size..] == EncodeConsecutive(elements[1..]);
    }
  }

  lemma AddressedAsdu(typeId: Octet, k: nat, cause: seq<Octet>, data: seq<Octet>)
    requires k <= 127 && |cause| == 4
    ensures DecodeObjects([typeId, k] + cause + data) == DecodeAddressed(typeId, k, data)
  {
    hide DecodeAddressed, DecodeConsecutive;
    var asdu: seq<Octet> := [typeId, k] + cause + data;
    assert asdu[6..] == data && asdu[0] == typeId && asdu[1] == k;
  }

  lemma ConsecutiveAsdu(typeId: Octet, k: nat, cause: seq<Octet>, address: int, data: seq<Octet>)
    requires k <= 127 && |cause| == 4 && 0 <= address < 0x100_0000
    ensures DecodeObjects([typeId, 0x80 + k] + cause + IoaBytes(address) + data)
            == DecodeConsecutive(typeId, address, k, data)
  {
    hide DecodeAddressed, DecodeConsecutive, IoaAt, IoaBytes;
    var asdu: seq<Octet> := [typeId, 0x80 + k] + cause + IoaBytes(address) + data;
    assert |IoaBytes(address)| == 3 by { ThreeOctets(address); }
    assert asdu[9..] == data && asdu[6..9] == IoaBytes(address) && asdu[0] == typeId && asdu[1] == 0x80 + k;
    IoaRoundTrip(address, asdu, 6);
  }

  lemma ThreeOctets(address: int)
    ensures |IoaBytes(address)| == 3
  {
  }

  /** Up to 127 elements give the same objects whether each carries its address or only the first does. */
  lemma LayoutsAgree(typeId: Octet, cause: seq<Octet>, address: int, elements: seq<seq<Octet>>)
    requires Elements(typeId, elements) && |elements| <= 127 && |cause| == 4
    requires 0 <= address < 0x100_0000 && address + |elements| <= 0x100_0000
    ensures var k := |elements|;
            var addressed := [typeId, k] + cause + EncodeAddressed(address, elements);
            var consecutive := [typeId, 0x80 + k] + cause + IoaBytes(address) + EncodeConsecutive(elements);
            DecodeObjects(addressed) == DecodeObjects(consecutive) == ObjectList(typeId, address, elements)
  {
    hide *;
    AddressedAsdu(typeId, |elements|, cause, EncodeAddressed(address, elements));
    ConsecutiveAsdu(typeId, |elements|, cause, address, EncodeConsecutive(elements));
    AddressedLayout(typeId, address, elements);
    ConsecutiveLayout(typeId, address, elements);
  }

  // --------------------------------------------------------------- truncation

  lemma {:induction false} AddressedTruncation(typeId: Octet, count: nat, data: seq<Octet>, cut: nat)
    requires cut <= |data|
    ensures DecodeAddressed(typeId, count, data[..cut]) <= DecodeAddressed(typeId, count, data)
    decreases count
  {
    var stride := 3 + ElementSize(typeId);
    if count > 0 && ElementSize(typeId) > 0 && cut >= stride {
      AddressedTruncation(typeId, count - 1, data[stride..], cut - stride);
      assert data[..cut][stride..] == data[stride..][..cut - stride];
      assert data[..cut][3..stride] == data[3..stride];
    }
  }

  lemma {:induction false} ConsecutiveTruncation(typeId: Octet, address: int, count: nat, data: seq<Octet>, cut: nat)
    requires cut <= |data|
    ensures DecodeConsecutive(typeId, address, count, data[..cut]) <= DecodeConsecutive(typeId, address, count, data)
    decreases count
  {
    var size := ElementSize(typeId);
    if count > 0 && size > 0 && cut >= size {
      ConsecutiveTruncation(typeId, address + 1, count - 1, data[size..], cut - size);
      assert data[..cut][size..] == data[size..][..cut - size];
      assert data[..cut][..size] == data[..size];
    }
  }

  /** An ASDU cut anywhere after its header yields a prefix of the objects of the whole. */
  lemma Truncation(asdu: seq<Octet>, cut: nat)
    requires 6 <= cut <= |asdu|
    ensures DecodeObjects(asdu[..cut]) <= DecodeObjects(asdu)
  {
    if asdu[1] < 0x80 {
      AddressedTruncation(asdu[0], asdu[1], asdu[6..], cut - 6);
      assert asdu[..cut][6..] == asdu[6..][..cut - 6];
    } else if cut >= 9 {
      ConsecutiveTruncation(asdu[0], IoaAt(asdu, 6), asdu[1] % 0x80, asdu[9..], cut - 9);
      assert asdu[..cut][9..] == asdu[9..][..cut - 9];
    }
  }
}
