/**
 * Framing of a motion-JPEG byte stream: the capture loop looks for the JPEG
 * start-of-image marker FF D8 and end-of-image marker FF D9 (ITU-T T.81,
 * Table B.1) with two independent whole-buffer searches, cuts out the bytes
 * between them and keeps what follows the end marker.
 */
module Jpeg {
  import opened Wrappers

  newtype byte = x: int | 0 <= x < 256

  const MarkerPrefix: byte := 0xFF
  const SoiCode: byte := 0xD8   // start of image
  const EoiCode: byte := 0xD9   // end of image

  /** The two-byte marker `FF code` stands at position `i` of `s`. */
  predicate MarkerAt(s: seq<byte>, i: int, code: byte) {
    0 <= i && i + 1 < |s| && s[i] == MarkerPrefix && s[i + 1] == code
  }

  /** No `FF code` starts before position `n`. */
  predicate NoMarkerBefore(s: seq<byte>, n: int, code: byte) {
    forall k :: 0 <= k < n ==> !MarkerAt(s, k, code)
  }

  /** `s.find(b'\xff' + code)` from position `i` on: the first start position, or None for -1. */
  function FindFrom(s: seq<byte>, code: byte, i: nat): (r: Option<nat>)
    requires i <= |s|
    ensures r.Some? ==> i <= r.value && MarkerAt(s, r.value, code)
                        && forall k :: i <= k < r.value ==> !MarkerAt(s, k, code)
    ensures r.None? ==> forall k :: i <= k < |s| ==> !MarkerAt(s, k, code)
    decreases |s| - i
  {
    if i + 1 >= |s| then None
    else if s[i] == MarkerPrefix && s[i + 1] == code then Some(i)
    else FindFrom(s, code, i + 1)
  }

  /** `s.find(b'\xff' + code)` over the whole buffer. */
  function Find(s: seq<byte>, code: byte): (r: Option<nat>)
    ensures r.Some? ==> MarkerAt(s, r.value, code) && NoMarkerBefore(s, r.value, code)
    ensures r.None? <==> NoMarkerBefore(s, |s|, code)
  {
    FindFrom(s, code, 0)
  }

  /** Python's `s[lo:hi]` for non-negative bounds: clamped, and empty when `lo >= hi`. */
  function Slice(s: seq<byte>, lo: nat, hi: nat): (r: seq<byte>)
    ensures lo < hi <= |s| ==> r == s[lo..hi]
    ensures hi <= lo ==> r == []
  {
    var h := if hi <= |s| then hi else |s|;
    if lo < h then s[lo..h] else []
  }

  /** What one look at the buffer yields: at most one payload, and the buffer kept afterwards. */
  datatype Extraction = Extraction(payload: Option<seq<byte>>, rest: seq<byte>)

  /**
   * The cut the capture loop makes after appending a chunk: with
   * `a = buf.find(SOI)` and `b = buf.find(EOI)`, both present, the payload is
   * `buf[a:b+2]` and the buffer becomes `buf[b+2:]`; otherwise nothing is cut.
   */
  function Extract(buf: seq<byte>): (e: Extraction)
    // Without both markers nothing is produced and the buffer is kept whole.
    ensures (Find(buf, SoiCode).None? || Find(buf, EoiCode).None?) <==> e.payload.None?
    ensures e.payload.None? ==> e.rest == buf
    // With both, the kept buffer is what follows the first end marker, the dropped
    // prefix holds no other end marker, and the payload lies inside that prefix.
    ensures e.payload.Some? ==>
              exists b :: MarkerAt(buf, b, EoiCode) && NoMarkerBefore(buf, b, EoiCode)
                          && e.rest == buf[b + 2..]
                          && |e.payload.value| <= b + 2
    // Start marker first: the payload runs from it through the end marker.
    ensures e.payload.Some? && e.payload.value != [] ==>
              |e.payload.value| >= 4
              && e.payload.value[0] == MarkerPrefix && e.payload.value[1] == SoiCode
              && e.payload.value[|e.payload.value| - 2] == MarkerPrefix
              && e.payload.value[|e.payload.value| - 1] == EoiCode
              && NoMarkerBefore(e.payload.value, |e.payload.value| - 2, EoiCode)
    // End marker first: the payload is empty, yet the buffer is still cut after it.
    ensures e.payload == Some([]) <==>
              exists a, b :: Find(buf, SoiCode) == Some(a) && Find(buf, EoiCode) == Some(b) && b < a
  {
    match (Find(buf, SoiCode), Find(buf, EoiCode))
    case (Some(a), Some(b)) =>
      CutShape(buf, a, b);
      Extraction(Some(Slice(buf, a, b + 2)), buf[b + 2..])
    case _ => Extraction(None, buf)
  }

  /**
   * The slice `buf[a:b+2]` between the first start marker `a` and the first end
   * marker `b`: a whole frame from FF D8 through FF D9 when `a < b`, empty otherwise.
   */
  lemma CutShape(buf: seq<byte>, a: nat, b: nat)
    requires Find(buf, SoiCode) == Some(a) && Find(buf, EoiCode) == Some(b)
    ensures b + 2 <= |buf| && a != b
    ensures var p := Slice(buf, a, b + 2);
            && |p| <= b + 2
            && (b < a ==> p == [])
            && (a < b ==> && |p| >= 4
                          && p[0] == MarkerPrefix && p[1] == SoiCode
                          && p[|p| - 2] == MarkerPrefix && p[|p| - 1] == EoiCode
                          && NoMarkerBefore(p, |p| - 2, EoiCode))
  {
    var p := Slice(buf, a, b + 2);
    assert a != b && a != b + 1;
    if a < b {
      assert a + 2 <= b && p == buf[a..b + 2];
      assert forall k :: 0 <= k < |p| - 2 ==> MarkerAt(p, k, EoiCode) == MarkerAt(buf, a + k, EoiCode);
    }
  }

  /** The bytes dropped by a cut are exactly a prefix of the buffer that ends in FF D9. */
  lemma ExtractDropsPrefix(buf: seq<byte>)
    requires Extract(buf).payload.Some?
    ensures exists n :: 2 <= n <= |buf| && buf[n - 2] == MarkerPrefix && buf[n - 1] == EoiCode
                        && buf == buf[..n] + Extract(buf).rest
  {
    var b := Find(buf, EoiCode).value;
    assert buf == buf[..b + 2] + buf[b + 2..];
  }

  /**
   * The payload handed to the decoder is the buffer's own bytes from the first
   * start marker through the first end marker, both included.
   */
  lemma ExtractPayload(buf: seq<byte>)
    requires Extract(buf).payload.Some? && Extract(buf).payload.value != []
    ensures exists a, b :: && Find(buf, SoiCode) == Some(a) && Find(buf, EoiCode) == Some(b)
                           && a < b && b + 2 <= |buf| && Extract(buf).payload.value == buf[a..b + 2]
  {
    var a, b := Find(buf, SoiCode).value, Find(buf, EoiCode).value;
    assert a < b;
  }

  /** A buffer lacking either marker is never cut. */
  lemma NoMarkerNoCut(buf: seq<byte>, code: byte)
    requires code == SoiCode || code == EoiCode
    requires NoMarkerBefore(buf, |buf|, code)
    ensures Extract(buf) == Extraction(None, buf)
  {
  }
}
