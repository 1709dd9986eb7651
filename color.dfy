/**
  The colour values of `color.js`: an RGBA quadruple with getters, mixing, interpolation,
  opacity changes, the named colour table and the flattening into a render buffer.
  Every operation returns a new colour; nothing is updated in place.
 */
module Colors {
  import opened Wrappers
  import opened MathStuff

  /** The four channels red, green, blue, alpha (by convention each between 0 and 1). */
  type Rgba = s: seq<real> | |s| == 4 witness [0.0, 0.0, 0.0, 0.0]

  datatype Color = Color(rgba: Rgba) {

    function R(): real { rgba[0] }
    function G(): real { rgba[1] }
    function B(): real { rgba[2] }
    function A(): real { rgba[3] }

    /** The instance form of `lerpColors`, with this colour as `c1`. */
    function LerpWith(c2: Color, t: real): (c: Color)
      ensures forall ch :: 0 <= ch < 4 ==> c.rgba[ch] == t * rgba[ch] + (1.0 - t) * c2.rgba[ch]
    {
      LerpColors(this, c2, t)
    }

    /**
      The instance `applyOpacity` as written: it forwards to `setOpacity`, so it neither scales
      the alpha nor even uses `a`.
     */
    function WithAppliedOpacity(a: real): (c: Color)
      ensures c.R() == R() && c.G() == G() && c.B() == B()
      ensures c.A() == G()
    {
      SetOpacity(this, a)
    }

    /** The instance `applyOpacity` as its documentation promises: the static `applyOpacity`. */
    function WithAppliedOpacityIntended(a: real): (c: Color)
      ensures c.R() == R() && c.G() == G() && c.B() == B()
      ensures c.A() <= 1.0 && c.A() <= A() * a
      ensures c.A() == 1.0 || c.A() == A() * a
    {
      ApplyOpacity(this, a)
    }

    /** The instance `setOpacity`, which forwards to the static one (alpha taken from green). */
    function WithOpacity(a: real): (c: Color)
      ensures c.R() == R() && c.G() == G() && c.B() == B()
      ensures c.A() == G()
    {
      SetOpacity(this, a)
    }
  }

  /** `new Color(r, g, b, a)`: the getters read back the constructor arguments. */
  function NewColor(r: real, g: real, b: real, a: real): (c: Color)
    ensures c.R() == r && c.G() == g && c.B() == b && c.A() == a
  {
    Color([r, g, b, a])
  }

  /** Two colours are equal as soon as their four channels are. */
  lemma ColorExt(c: Color, d: Color)
    requires forall ch :: 0 <= ch < 4 ==> c.rgba[ch] == d.rgba[ch]
    ensures c == d
  {
    assert c.rgba == d.rgba;
  }

  /** Channel `ch` of every colour in a list, as `colors.map(clr => clr.r)` and its siblings build it. */
  function Channel(colors: seq<Color>, ch: nat): (cs: seq<real>)
    requires ch < 4
    ensures |cs| == |colors| && forall i :: 0 <= i < |colors| ==> cs[i] == colors[i].rgba[ch]
  {
    seq(|colors|, i requires 0 <= i < |colors| => colors[i].rgba[ch])
  }

  /** `mixColors`: the channelwise average of the colours; transparent black for no colours. */
  function MixColors(colors: seq<Color>): (c: Color)
    ensures |colors| == 0 ==> c == NewColor(0.0, 0.0, 0.0, 0.0)
    ensures |colors| > 0 ==> forall ch :: 0 <= ch < 4 ==> c.rgba[ch] * (|colors| as real) == Sum(Channel(colors, ch))
  {
    NewColor(AvgArray(Channel(colors, 0)), AvgArray(Channel(colors, 1)),
             AvgArray(Channel(colors, 2)), AvgArray(Channel(colors, 3)))
  }

  /** Mixing copies of one colour (in particular a single colour) gives that colour back. */
  lemma MixIdentical(colors: seq<Color>, c: Color)
    requires |colors| > 0
    requires forall i :: 0 <= i < |colors| ==> colors[i] == c
    ensures MixColors(colors) == c
  {
    var m := MixColors(colors);
    forall ch | 0 <= ch < 4
      ensures m.rgba[ch] == c.rgba[ch]
    {
      AvgArrayConst(Channel(colors, ch), c.rgba[ch]);
    }
    ColorExt(m, c);
  }

  /** Every channel of a mix lies between the least and the greatest value of that channel. */
  lemma MixBetween(colors: seq<Color>, ch: nat)
    requires |colors| > 0 && ch < 4
    ensures exists i :: 0 <= i < |colors| && colors[i].rgba[ch] <= MixColors(colors).rgba[ch]
    ensures exists j :: 0 <= j < |colors| && MixColors(colors).rgba[ch] <= colors[j].rgba[ch]
  {
    AvgArrayBetween(Channel(colors, ch));
  }

  /** `wAvgArray([x, y], [w, 1 - w])`: the weights always sum to 1, so this is `w * x + (1 - w) * y`. */
  function PairAverage(x: real, y: real, w: real): (r: real)
    ensures r == w * x + (1.0 - w) * y
  {
    var ws := [w, 1.0 - w];
    assert ws[..1] == [w] && [w][..0] == [];
    assert Sum([w]) == w;
    assert Sum(ws) == 1.0;
    assert [x, y][..1] == [x] && [x][..0] == [];
    assert WSum([x], [w]) == x * w;
    assert WSum([x, y], ws) == x * w + y * (1.0 - w);
    WeightedAverage([x, y], ws)
  }

  /** A colour whose four channels are each `w * x + (1 - w) * y` for the channels of `c1`, `c2`. */
  lemma ChannelsOf(c: Color, c1: Color, c2: Color, w: real)
    requires c.R() == w * c1.R() + (1.0 - w) * c2.R() && c.G() == w * c1.G() + (1.0 - w) * c2.G()
    requires c.B() == w * c1.B() + (1.0 - w) * c2.B() && c.A() == w * c1.A() + (1.0 - w) * c2.A()
    ensures forall ch :: 0 <= ch < 4 ==> c.rgba[ch] == w * c1.rgba[ch] + (1.0 - w) * c2.rgba[ch]
  {
    forall ch | 0 <= ch < 4
      ensures c.rgba[ch] == w * c1.rgba[ch] + (1.0 - w) * c2.rgba[ch]
    {
      if ch == 0 {} else if ch == 1 {} else if ch == 2 {} else {}
    }
  }

  /** `lerpColors(c1, c2, t)` as written: each channel is `wAvgArray([c1, c2], [t, 1 - t])`. */
  function LerpColors(c1: Color, c2: Color, t: real): (c: Color)
    ensures forall ch :: 0 <= ch < 4 ==> c.rgba[ch] == t * c1.rgba[ch] + (1.0 - t) * c2.rgba[ch]
  {
    var r, g, b, a := PairAverage(c1.R(), c2.R(), t), PairAverage(c1.G(), c2.G(), t),
                      PairAverage(c1.B(), c2.B(), t), PairAverage(c1.A(), c2.A(), t);
    var c := NewColor(r, g, b, a);
    ChannelsOf(c, c1, c2, t);
    c
  }

  /** As written, `t = 1` gives `c1` and `t = 0` gives `c2`. */
  lemma LerpColorsEnds(c1: Color, c2: Color)
    ensures LerpColors(c1, c2, 1.0) == c1
    ensures LerpColors(c1, c2, 0.0) == c2
  {
    ColorExt(LerpColors(c1, c2, 1.0), c1);
    ColorExt(LerpColors(c1, c2, 0.0), c2);
  }

  /**
    The documentation promises that lower `t` favours `c1`; as written, `t = 0` mixes black
    and white into pure white, the second colour.
   */
  lemma LerpColorsFavoursSecondAtZero()
    ensures LerpColors(BLACK, WHITE, 0.0) == WHITE
    ensures LerpColorsIntended(BLACK, WHITE, 0.0) == BLACK
  {
    LerpColorsEnds(BLACK, WHITE);
    LerpIntendedEnds(BLACK, WHITE);
  }

  /**
    `lerpColors` with the weights the documentation describes: `(1 - t)` on `c1`, `t` on `c2`,
    that is, the written weight list `[t, 1 - t]` applied to `[c2, c1]`.
   */
  function LerpColorsIntended(c1: Color, c2: Color, t: real): (c: Color)
    ensures forall ch :: 0 <= ch < 4 ==> c.rgba[ch] == (1.0 - t) * c1.rgba[ch] + t * c2.rgba[ch]
  {
    var r, g, b, a := PairAverage(c2.R(), c1.R(), t), PairAverage(c2.G(), c1.G(), t),
                      PairAverage(c2.B(), c1.B(), t), PairAverage(c2.A(), c1.A(), t);
    var c := NewColor(r, g, b, a);
    ChannelsOf(c, c2, c1, t);
    c
  }

  /** The corrected interpolation starts at `c1` for `t = 0` and ends at `c2` for `t = 1`. */
  lemma LerpIntendedEnds(c1: Color, c2: Color)
    ensures LerpColorsIntended(c1, c2, 0.0) == c1
    ensures LerpColorsIntended(c1, c2, 1.0) == c2
  {
    ColorExt(LerpColorsIntended(c1, c2, 0.0), c1);
    ColorExt(LerpColorsIntended(c1, c2, 1.0), c2);
  }

  /** The written weighting is the documented one with the two colours swapped. */
  lemma LerpMirror(c1: Color, c2: Color, t: real)
    ensures LerpColors(c1, c2, t) == LerpColorsIntended(c2, c1, t)
  {
    var p, q := LerpColors(c1, c2, t), LerpColorsIntended(c2, c1, t);
    forall ch | 0 <= ch < 4
      ensures p.rgba[ch] == q.rgba[ch]
    {
    }
    ColorExt(p, q);
  }

  function Min(x: real, y: real): (m: real)
    ensures m <= x && m <= y && (m == x || m == y)
  {
    if x <= y then x else y
  }

  /** `applyOpacity`: the colour channels are kept and the alpha becomes `min(1, clr.a * a)`. */
  function ApplyOpacity(clr: Color, a: real): (c: Color)
    ensures c.R() == clr.R() && c.G() == clr.G() && c.B() == clr.B()
    ensures c.A() <= 1.0 && c.A() <= clr.A() * a
    ensures c.A() == 1.0 || c.A() == clr.A() * a
  {
    NewColor(clr.R(), clr.G(), clr.B(), Min(1.0, clr.A() * a))
  }

  /** Applying opacity `1` to a colour that is not over-opaque leaves it unchanged. */
  lemma ApplyOpacityOne(clr: Color)
    requires clr.A() <= 1.0
    ensures ApplyOpacity(clr, 1.0) == clr
  {
    ColorExt(ApplyOpacity(clr, 1.0), clr);
  }

  /**
    `setOpacity` as written: the constructor call passes `clr.g` in the alpha position, and the
    requested opacity `a` lands in a fifth argument that the constructor ignores.
   */
  function SetOpacity(clr: Color, a: real): (c: Color)
    ensures c.R() == clr.R() && c.G() == clr.G() && c.B() == clr.B()
    ensures c.A() == clr.G()
  {
    NewColor(clr.R(), clr.G(), clr.B(), clr.G())
  }

  /** `setOpacity` as its documentation promises: the alpha becomes `a`. */
  function SetOpacityIntended(clr: Color, a: real): (c: Color)
    ensures c.R() == clr.R() && c.G() == clr.G() && c.B() == clr.B()
    ensures c.A() == a
  {
    NewColor(clr.R(), clr.G(), clr.B(), a)
  }

  /** The written `setOpacity` does what was meant exactly when `a` happens to equal the green channel. */
  lemma SetOpacityAgreesOnlyOnGreen(clr: Color, a: real)
    ensures SetOpacity(clr, a) == SetOpacityIntended(clr, a) <==> a == clr.G()
  {
    if a == clr.G() {
      ColorExt(SetOpacity(clr, a), SetOpacityIntended(clr, a));
    }
  }

  /** Setting the opacity of opaque red to one half, as written, makes it fully transparent. */
  lemma SetOpacityDropsAlpha()
    ensures SetOpacity(RED, 0.5).A() == 0.0
    ensures SetOpacityIntended(RED, 0.5).A() == 0.5
  {
  }

  /** The corrected `setOpacity`: the last opacity set wins, and setting the current opacity changes nothing. */
  lemma SetOpacityIntendedOverwrites(clr: Color, a: real, b: real)
    ensures SetOpacityIntended(SetOpacityIntended(clr, a), b) == SetOpacityIntended(clr, b)
    ensures SetOpacityIntended(clr, clr.A()) == clr
  {
    ColorExt(SetOpacityIntended(SetOpacityIntended(clr, a), b), SetOpacityIntended(clr, b));
    ColorExt(SetOpacityIntended(clr, clr.A()), clr);
  }

  /**
    The instance `applyOpacity` and the static one disagree: on opaque red with opacity one
    half the static form gives alpha `0.5`, the instance form alpha `0`.
   */
  lemma InstanceApplyOpacityDiffers()
    ensures ApplyOpacity(RED, 0.5).A() == 0.5
    ensures RED.WithAppliedOpacity(0.5).A() == 0.0
    ensures RED.WithAppliedOpacityIntended(0.5) == ApplyOpacity(RED, 0.5)
  {
  }

  const WHITE := Color([1.0, 1.0, 1.0, 1.0])
  const BLACK := Color([0.0, 0.0, 0.0, 0.0])
  const RED := Color([1.0, 0.0, 0.0, 1.0])

  /** `COLOR_ARRAYS`: the named channel quadruples. */
  const COLOR_ARRAYS: map<string, Rgba> := map[
    "WHITE" := [1.0, 1.0, 1.0, 1.0],
    "GRAY" := [0.5, 0.5, 0.5, 1.0],
    "BLACK" := [0.0, 0.0, 0.0, 0.0],
    "RED" := [1.0, 0.0, 0.0, 1.0],
    "GREEN" := [0.0, 1.0, 0.0, 1.0],
    "BLUE" := [0.0, 0.0, 1.0, 1.0],
    "YELLOW" := [1.0, 1.0, 0.0, 1.0],
    "CYAN" := [0.0, 1.0, 1.0, 1.0],
    "MAGENTA" := [1.0, 0.0, 1.0, 1.0],
    "ORANGE" := [1.0, 0.5, 0.0, 1.0],
    "PINK" := [1.0, 0.5, 0.5, 1.0],
    "BROWN" := [0.5, 0.25, 0.0, 1.0]
  ]

  /** `COLORS`: one `Color` per entry of `COLOR_ARRAYS`, under the same name. */
  const COLORS: map<string, Color> := map name | name in COLOR_ARRAYS :: Color(COLOR_ARRAYS[name])

  /**
    `COLORS[name]` for the table's own entries: the named colour, or `undefined` (here `None`)
    for a name the table lacks. Properties inherited from `Object.prototype` are not modelled.
   */
  function Lookup(name: string): (c: Option<Color>)
    ensures c.Some? <==> name in COLOR_ARRAYS
    ensures c.Some? ==> c.value.rgba == COLOR_ARRAYS[name]
  {
    if name in COLORS then Some(COLORS[name]) else None
  }

  /** The table spells the grey entry `GRAY`; there is no `GREY`. */
  lemma GreyIsMissing()
    ensures Lookup("GREY") == None
    ensures Lookup("GRAY") == Some(NewColor(0.5, 0.5, 0.5, 1.0))
    ensures Lookup("WHITE") == Some(WHITE) && Lookup("BLACK") == Some(BLACK) && Lookup("RED") == Some(RED)
  {
    assert "GREY" !in COLOR_ARRAYS;
  }

  /** `getColor(r, g, b, a = 255)`: each 0..255 channel is divided by 255. */
  function GetColor(r: real, g: real, b: real, a: real := 255.0): (c: Color)
    ensures 255.0 * c.R() == r && 255.0 * c.G() == g && 255.0 * c.B() == b && 255.0 * c.A() == a
  {
    NewColor(r / 255.0, g / 255.0, b / 255.0, a / 255.0)
  }

  /** Without an alpha argument the colour is opaque. */
  lemma GetColorDefaultOpaque(r: real, g: real, b: real)
    ensures GetColor(r, g, b).A() == 1.0
  {
  }

  /** Channels given in 0..255 come out in 0..1. */
  lemma GetColorInUnitRange(r: real, g: real, b: real, a: real)
    requires 0.0 <= r <= 255.0 && 0.0 <= g <= 255.0 && 0.0 <= b <= 255.0 && 0.0 <= a <= 255.0
    ensures var c := GetColor(r, g, b, a);
      forall ch :: 0 <= ch < 4 ==> 0.0 <= c.rgba[ch] <= 1.0
  {
  }

  /** `getColorBuffer(...colors)`: the channels of all colours, four per colour, in order. */
  function ColorBuffer(colors: seq<Color>): (buf: seq<real>)
    ensures |buf| == 4 * |colors|
    ensures forall k :: 0 <= k < |buf| ==> buf[k] == colors[k / 4].rgba[k % 4]
  {
    if |colors| == 0 then []
    else ColorBuffer(colors[..|colors| - 1]) + colors[|colors| - 1].rgba
  }
}
