/** The colour arithmetic of the ambiance manager: a multiply blend of two
    0xRRGGBB colours, channel by channel. */
module Ambiance {

  const CHANNEL_MAX: int := 255
  const WHITE: int := 0xFFFFFF
  const COLOR_RANGE: int := 0x100_0000

  /** The 8-bit channel of `color` starting at bit `shift`: `(color >> shift) & 0xFF`.
      An arithmetic right shift is a floor division by a power of two, and `& 0xFF`
      keeps the remainder modulo 256; both only see the low 32 bits, which hold
      bits 16 to 23 unchanged. */
  function Channel(color: int, shift: nat): (c: int)
    requires shift == 0 || shift == 8 || shift == 16
    ensures 0 <= c <= CHANNEL_MAX
  {
    var scale := if shift == 0 then 1 else if shift == 8 then 0x100 else 0x1_0000;
    (color / scale) % 256
  }

  /** `(r << 16) | (g << 8) | b` for channels of at most eight bits: the three
      shifted values occupy disjoint bits, so the or is a sum. */
  function Pack(r: int, g: int, b: int): (color: int)
    requires 0 <= r <= CHANNEL_MAX && 0 <= g <= CHANNEL_MAX && 0 <= b <= CHANNEL_MAX
    ensures 0 <= color <= WHITE
  {
    r * 0x1_0000 + g * 0x100 + b
  }

  /** Reading the channels of a packed colour gives back the channels. */
  lemma ChannelsOfPack(r: int, g: int, b: int)
    requires 0 <= r <= CHANNEL_MAX && 0 <= g <= CHANNEL_MAX && 0 <= b <= CHANNEL_MAX
    ensures Channel(Pack(r, g, b), 16) == r
    ensures Channel(Pack(r, g, b), 8) == g
    ensures Channel(Pack(r, g, b), 0) == b
  {
    var c := Pack(r, g, b);
    assert c / 0x1_0000 == r;
    assert c / 0x100 == r * 0x100 + g;
    assert (r * 0x100 + g) % 256 == g;
  }

  /** Packing the channels of a 24-bit colour gives back the colour. */
  lemma PackOfChannels(c: int)
    requires 0 <= c <= WHITE
    ensures Pack(Channel(c, 16), Channel(c, 8), Channel(c, 0)) == c
  {
    var hi := c / 0x100;
    assert c == hi * 0x100 + c % 0x100;
    assert hi == (hi / 0x100) * 0x100 + hi % 0x100;
    assert hi / 0x100 == c / 0x1_0000;
    assert c / 0x1_0000 < 256;
  }

  /** The blend of two channel values: `Math.floor(a * b / 255)`, never above
      either input. */
  function Blend(a: int, b: int): (c: int)
    requires 0 <= a <= CHANNEL_MAX && 0 <= b <= CHANNEL_MAX
    ensures 0 <= c <= CHANNEL_MAX
    ensures c <= a && c <= b
  {
    BlendBelow(a, b);
    BlendBelow(b, a);
    a * b / CHANNEL_MAX
  }

  lemma BlendBelow(a: int, b: int)
    requires 0 <= a <= CHANNEL_MAX && 0 <= b <= CHANNEL_MAX
    ensures a * b / CHANNEL_MAX <= a
  {
    assert a * b <= a * CHANNEL_MAX;
  }

  /** `multiplyColors`: each channel of the result is the blend of the two
      inputs' channels, and the result is a 24-bit colour. */
  function MultiplyColors(colorA: int, colorB: int): (c: int)
    ensures 0 <= c <= WHITE
    ensures Channel(c, 16) == Blend(Channel(colorA, 16), Channel(colorB, 16))
    ensures Channel(c, 8) == Blend(Channel(colorA, 8), Channel(colorB, 8))
    ensures Channel(c, 0) == Blend(Channel(colorA, 0), Channel(colorB, 0))
  {
    var r := Blend(Channel(colorA, 16), Channel(colorB, 16));
    var g := Blend(Channel(colorA, 8), Channel(colorB, 8));
    var b := Blend(Channel(colorA, 0), Channel(colorB, 0));
    ChannelsOfPack(r, g, b);
    Pack(r, g, b)
  }

  /** The blend does not depend on the order of its colours. */
  lemma MultiplyCommutes(colorA: int, colorB: int)
    ensures MultiplyColors(colorA, colorB) == MultiplyColors(colorB, colorA)
  {
    var a16, a8, a0 := Channel(colorA, 16), Channel(colorA, 8), Channel(colorA, 0);
    var b16, b8, b0 := Channel(colorB, 16), Channel(colorB, 8), Channel(colorB, 0);
    assert a16 * b16 == b16 * a16 && a8 * b8 == b8 * a8 && a0 * b0 == b0 * a0;
  }

  /** White leaves a 24-bit colour unchanged. */
  lemma MultiplyByWhite(color: int)
    requires 0 <= color <= WHITE
    ensures MultiplyColors(color, WHITE) == color
  {
    assert Channel(WHITE, 16) == CHANNEL_MAX && Channel(WHITE, 8) == CHANNEL_MAX && Channel(WHITE, 0) == CHANNEL_MAX;
    var r, g, b := Channel(color, 16), Channel(color, 8), Channel(color, 0);
    assert Blend(r, CHANNEL_MAX) == r && Blend(g, CHANNEL_MAX) == g && Blend(b, CHANNEL_MAX) == b;
    PackOfChannels(color);
  }

  /** Black absorbs every colour. */
  lemma MultiplyByBlack(color: int)
    ensures MultiplyColors(color, 0) == 0
  {
    assert Channel(0, 16) == 0 && Channel(0, 8) == 0 && Channel(0, 0) == 0;
  }

  /** Only the low 24 bits of a colour reach the channels it is split into. */
  lemma ChannelLow24(color: int, shift: nat)
    requires shift == 0 || shift == 8 || shift == 16
    ensures Channel(color % COLOR_RANGE, shift) == Channel(color, shift)
  {
    var q := color / COLOR_RANGE;
    var m := color % COLOR_RANGE;
    assert color == q * 0x100_0000 + m;
    if shift == 16 {
      assert color / 0x1_0000 == q * 0x100 + m / 0x1_0000;
    } else if shift == 8 {
      assert color / 0x100 == q * 0x1_0000 + m / 0x100;
    }
  }

  /** Hence the blend depends only on the low 24 bits of each input. */
  lemma MultiplyLow24(colorA: int, colorB: int)
    ensures MultiplyColors(colorA % COLOR_RANGE, colorB % COLOR_RANGE) == MultiplyColors(colorA, colorB)
  {
    ChannelLow24(colorA, 16); ChannelLow24(colorA, 8); ChannelLow24(colorA, 0);
    ChannelLow24(colorB, 16); ChannelLow24(colorB, 8); ChannelLow24(colorB, 0);
  }
}
