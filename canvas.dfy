/** Blank-canvas detection: the guard of the "done" button.

    The drawing surface is read back as RGBA bytes, four per pixel, and viewed
    as 32-bit words; the surface is blank when no word differs from zero. */
module Canvas {
  /** One word of the Uint32Array view over four consecutive bytes, packed as a
      little-endian platform packs them. */
  function Word(b0: bv8, b1: bv8, b2: bv8, b3: bv8): (w: bv32)
    ensures w == 0 <==> b0 == 0 && b1 == 0 && b2 == 0 && b3 == 0
  {
    b0 as bv32 | (b1 as bv32 << 8) | (b2 as bv32 << 16) | (b3 as bv32 << 24)
  }

  /** `some(color => color !== 0)` over the Uint32Array view of a pixel buffer:
      walks the buffer one four-byte word at a time and answers whether any
      word differs from zero, which happens exactly when some byte does. */
  function AnyWordSet(data: seq<bv8>): (r: bool)
    requires |data| % 4 == 0
    ensures r <==> exists j :: 0 <= j < |data| && data[j] != 0
    decreases |data|
  {
    if data == [] then false
    else if Word(data[0], data[1], data[2], data[3]) != 0 then true
    else
      assert forall j :: 4 <= j < |data| ==> data[j] == data[4..][j - 4];
      AnyWordSet(data[4..])
  }

  /** `isCanvasBlank`: a surface is blank exactly when every byte it holds is
      zero, that is, every pixel is fully transparent black. */
  function IsCanvasBlank(data: seq<bv8>): (blank: bool)
    requires |data| % 4 == 0
    ensures blank <==> forall i :: 0 <= i < |data| ==> data[i] == 0
  {
    !AnyWordSet(data)
  }

  /** The surface after `clearRect` over its whole area: every byte zero. */
  function Cleared(n: nat): seq<bv8> {
    seq(n, _ => 0)
  }

  /** Clearing leaves a blank surface of the same size, whatever was drawn. */
  lemma ClearedIsBlank(n: nat)
    requires n % 4 == 0
    ensures |Cleared(n)| == n && IsCanvasBlank(Cleared(n))
  {
  }

  /** A single non-zero byte anywhere makes the surface non-blank. */
  lemma InkIsNotBlank(data: seq<bv8>, j: nat)
    requires |data| % 4 == 0 && j < |data| && data[j] != 0
    ensures !IsCanvasBlank(data)
  {
  }
}
