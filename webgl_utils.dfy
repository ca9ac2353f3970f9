/**
 * webgl-utils.ts: colour parsing, random values and colours, uniform dispatch, canvas resizing,
 * and the create-check-delete shape of shader, program and buffer creation.
 */
module WebGLUtils {
  import opened Wrappers
  import opened WebGL

  // ---------------------------------------------------------------------------------------------
  // hexToRGB

  /** `String.prototype.slice(start, end)` for 0 <= start <= end: both ends clamped to the length. */
  function Slice(s: string, start: nat, end: nat): (r: string)
    requires start <= end
    ensures end <= |s| ==> r == s[start..end]
    ensures |r| <= end - start
  {
    var a := if start < |s| then start else |s|;
    var b := if end < |s| then end else |s|;
    s[a..b]
  }

  /** The characters parseInt skips at the start: white space and line terminators. */
  predicate IsJsWhiteSpace(c: char) {
    || c == '\t' || c == '\n' || c == '\U{000B}' || c == '\U{000C}' || c == '\r' || c == ' '
    || c == '\U{00A0}' || c == '\U{1680}' || '\U{2000}' <= c <= '\U{200A}'
    || c == '\U{2028}' || c == '\U{2029}' || c == '\U{202F}' || c == '\U{205F}'
    || c == '\U{3000}' || c == '\U{FEFF}'
  }

  function TrimStart(s: string): string {
    if s != [] && IsJsWhiteSpace(s[0]) then TrimStart(s[1..]) else s
  }

  predicate IsHexDigit(c: char) {
    '0' <= c <= '9' || 'a' <= c <= 'f' || 'A' <= c <= 'F'
  }

  function DigitValue(c: char): (d: nat)
    requires IsHexDigit(c)
    ensures d < 16
  {
    if '0' <= c <= '9' then (c - '0') as nat
    else if 'a' <= c <= 'f' then (c - 'a') as nat + 10
    else (c - 'A') as nat + 10
  }

  /** The longest prefix of `s` made of hexadecimal digits. */
  function HexPrefix(s: string): (p: string)
    ensures forall i :: 0 <= i < |p| ==> IsHexDigit(p[i])
  {
    if s != [] && IsHexDigit(s[0]) then [s[0]] + HexPrefix(s[1..]) else []
  }

  /** The value of a string of hexadecimal digits, most significant first. */
  function HexValue(digits: string): nat
    requires forall i :: 0 <= i < |digits| ==> IsHexDigit(digits[i])
  {
    if digits == [] then 0
    else 16 * HexValue(digits[..|digits| - 1]) + DigitValue(digits[|digits| - 1])
  }

  /**
   * `parseInt(s, 16)`: leading white space, then an optional sign, then an optional `0x`/`0X`,
   * then the longest run of hexadecimal digits; NaN when that run is empty.
   */
  function ParseIntHex(s: string): Num {
    var t := TrimStart(s);
    var negative := |t| > 0 && t[0] == '-';
    var u := if |t| > 0 && (t[0] == '-' || t[0] == '+') then t[1..] else t;
    var v := if |u| >= 2 && u[0] == '0' && (u[1] == 'x' || u[1] == 'X') then u[2..] else u;
    var digits := HexPrefix(v);
    if digits == [] then NaN
    else Finite(if negative then -(HexValue(digits) as real) else HexValue(digits) as real)
  }

  function Div255(n: Num): Num {
    if n.NaN? then NaN else Finite(n.value / 255.0)
  }

  datatype RGB = RGB(r: Num, g: Num, b: Num)

  /** A well-formed colour: `#` and six hexadecimal digits. */
  predicate IsHexColor(s: string) {
    |s| == 7 && s[0] == '#' && forall i :: 1 <= i < 7 ==> IsHexDigit(s[i])
  }

  /** The byte written by the two hexadecimal digits at `s[i]`, `s[i + 1]`. */
  function ByteAt(s: string, i: nat): (b: nat)
    requires i + 1 < |s| && IsHexDigit(s[i]) && IsHexDigit(s[i + 1])
    ensures b < 256
  {
    16 * DigitValue(s[i]) + DigitValue(s[i + 1])
  }

  lemma HexDigitIsNotSpace(c: char)
    requires IsHexDigit(c)
    ensures !IsJsWhiteSpace(c) && c != '-' && c != '+' && c != 'x' && c != 'X'
  {
  }

  /** Two hexadecimal digits parse to the byte they write. */
  lemma ParseTwoDigits(w: string)
    requires |w| == 2 && IsHexDigit(w[0]) && IsHexDigit(w[1])
    ensures ParseIntHex(w) == Finite((16 * DigitValue(w[0]) + DigitValue(w[1])) as real)
  {
    HexDigitIsNotSpace(w[0]);
    HexDigitIsNotSpace(w[1]);
    assert TrimStart(w) == w;
    assert HexPrefix(w[1..]) == w[1..] by {
      assert HexPrefix(w[1..][1..]) == [];
    }
    assert HexPrefix(w) == w;
    assert w[..1] == [w[0]];
    assert HexValue(w[..1]) == DigitValue(w[0]) by {
      assert w[..1][..0] == [];
    }
  }

  /** One channel: `parseInt(hex.slice(i, i + 2), 16) / 255`. */
  function Channel(hex: string, i: nat): Num {
    Div255(ParseIntHex(Slice(hex, i, i + 2)))
  }

  /** A channel written with two hexadecimal digits is their byte over 255. */
  lemma ChannelOfTwoDigits(s: string, i: nat)
    requires i + 1 < |s| && IsHexDigit(s[i]) && IsHexDigit(s[i + 1])
    ensures Channel(s, i) == Finite(ByteAt(s, i) as real / 255.0)
  {
    var w := Slice(s, i, i + 2);
    assert w[0] == s[i] && w[1] == s[i + 1];
    ParseTwoDigits(w);
  }

  /**
   * hexToRGB: the channels at positions 1, 3 and 5, each scaled to [0, 1]. Nothing is
   * validated: a malformed string yields NaN channels (see `NoLeadingDigitIsNaN`).
   */
  function HexToRGB(hex: string): RGB {
    RGB(Channel(hex, 1), Channel(hex, 3), Channel(hex, 5))
  }

  /** On `#rrggbb` the three channels are the bytes rr, gg and bb over 255. */
  lemma HexToRGBOfColor(hex: string)
    requires IsHexColor(hex)
    ensures HexToRGB(hex) == RGB(Finite(ByteAt(hex, 1) as real / 255.0),
                                 Finite(ByteAt(hex, 3) as real / 255.0),
                                 Finite(ByteAt(hex, 5) as real / 255.0))
  {
    assert IsHexDigit(hex[1]) && IsHexDigit(hex[2]) && IsHexDigit(hex[3]);
    assert IsHexDigit(hex[4]) && IsHexDigit(hex[5]) && IsHexDigit(hex[6]);
    ChannelOfTwoDigits(hex, 1);
    ChannelOfTwoDigits(hex, 3);
    ChannelOfTwoDigits(hex, 5);
  }

  predicate InUnitInterval(n: Num) {
    n.Finite? && 0.0 <= n.value <= 1.0
  }

  /** Every channel of a well-formed colour is a number in [0, 1]. */
  lemma HexToRGBInRange(hex: string)
    requires IsHexColor(hex)
    ensures InUnitInterval(HexToRGB(hex).r) && InUnitInterval(HexToRGB(hex).g) && InUnitInterval(HexToRGB(hex).b)
  {
    HexToRGBOfColor(hex);
  }

  const HEX_DIGITS: string := "0123456789ABCDEF"

  /** The two upper-case digits that write a byte. */
  function ByteHex(b: nat): (s: string)
    requires b < 256
    ensures |s| == 2 && IsHexDigit(s[0]) && IsHexDigit(s[1])
  {
    HexDigitsValue(b / 16);
    HexDigitsValue(b % 16);
    [HEX_DIGITS[b / 16], HEX_DIGITS[b % 16]]
  }

  /** `#rrggbb` for three bytes. */
  function HexColor(r: nat, g: nat, b: nat): (s: string)
    requires r < 256 && g < 256 && b < 256
    ensures IsHexColor(s)
  {
    "#" + ByteHex(r) + ByteHex(g) + ByteHex(b)
  }

  /** Each digit of `0123456789ABCDEF` is worth its position. */
  lemma HexDigitsValue(k: nat)
    requires k < 16
    ensures IsHexDigit(HEX_DIGITS[k]) && DigitValue(HEX_DIGITS[k]) == k
  {
    if k < 8 {
      if k < 4 {
        if k < 2 { if k == 0 { assert HEX_DIGITS[k] == '0'; } else { assert HEX_DIGITS[k] == '1'; } }
        else { if k == 2 { assert HEX_DIGITS[k] == '2'; } else { assert HEX_DIGITS[k] == '3'; } }
      } else {
        if k < 6 { if k == 4 { assert HEX_DIGITS[k] == '4'; } else { assert HEX_DIGITS[k] == '5'; } }
        else { if k == 6 { assert HEX_DIGITS[k] == '6'; } else { assert HEX_DIGITS[k] == '7'; } }
      }
    } else {
      if k < 12 {
        if k < 10 { if k == 8 { assert HEX_DIGITS[k] == '8'; } else { assert HEX_DIGITS[k] == '9'; } }
        else { if k == 10 { assert HEX_DIGITS[k] == 'A'; } else { assert HEX_DIGITS[k] == 'B'; } }
      } else {
        if k < 14 { if k == 12 { assert HEX_DIGITS[k] == 'C'; } else { assert HEX_DIGITS[k] == 'D'; } }
        else { if k == 14 { assert HEX_DIGITS[k] == 'E'; } else { assert HEX_DIGITS[k] == 'F'; } }
      }
    }
  }

  lemma ByteHexValue(b: nat)
    requires b < 256
    ensures 16 * DigitValue(ByteHex(b)[0]) + DigitValue(ByteHex(b)[1]) == b
  {
    HexDigitsValue(b / 16);
    HexDigitsValue(b % 16);
  }

  /** The bytes written into a colour are the bytes read back from it. */
  lemma HexColorBytes(r: nat, g: nat, b: nat)
    requires r < 256 && g < 256 && b < 256
    ensures ByteAt(HexColor(r, g, b), 1) == r
    ensures ByteAt(HexColor(r, g, b), 3) == g
    ensures ByteAt(HexColor(r, g, b), 5) == b
  {
    var s := HexColor(r, g, b);
    assert s[1] == ByteHex(r)[0] && s[2] == ByteHex(r)[1];
    assert s[3] == ByteHex(g)[0] && s[4] == ByteHex(g)[1];
    assert s[5] == ByteHex(b)[0] && s[6] == ByteHex(b)[1];
    ByteHexValue(r);
    ByteHexValue(g);
    ByteHexValue(b);
  }

  /** Writing three bytes as a colour and parsing it back gives the bytes over 255. */
  lemma HexRoundTrip(r: nat, g: nat, b: nat)
    requires r < 256 && g < 256 && b < 256
    ensures HexToRGB(HexColor(r, g, b))
         == RGB(Finite(r as real / 255.0), Finite(g as real / 255.0), Finite(b as real / 255.0))
  {
    HexColorBytes(r, g, b);
    ColorOfBytes(HexColor(r, g, b), r, g, b);
  }

  /** A colour whose bytes are r, g and b parses to them over 255. */
  lemma ColorOfBytes(hex: string, r: nat, g: nat, b: nat)
    requires IsHexColor(hex)
    requires ByteAt(hex, 1) == r && ByteAt(hex, 3) == g && ByteAt(hex, 5) == b
    ensures HexToRGB(hex) == RGB(Finite(r as real / 255.0), Finite(g as real / 255.0), Finite(b as real / 255.0))
  {
    assert IsHexDigit(hex[1]) && IsHexDigit(hex[2]) && IsHexDigit(hex[3]);
    assert IsHexDigit(hex[4]) && IsHexDigit(hex[5]) && IsHexDigit(hex[6]);
    ChannelOfTwoDigits(hex, 1);
    ChannelOfTwoDigits(hex, 3);
    ChannelOfTwoDigits(hex, 5);
  }

  /** `#000000` is black: every channel 0. */
  lemma BlackIsZero()
    ensures HexColor(0, 0, 0) == "#000000"
    ensures HexToRGB(HexColor(0, 0, 0)) == RGB(Finite(0.0), Finite(0.0), Finite(0.0))
  {
    assert ByteHex(0) == "00";
    HexRoundTrip(0, 0, 0);
  }

  /** `#FFFFFF` is white: every channel 1. */
  lemma WhiteIsOne()
    ensures HexToRGB("#FFFFFF") == RGB(Finite(1.0), Finite(1.0), Finite(1.0))
  {
    HexRoundTrip(255, 255, 255);
    assert HexColor(255, 255, 255) == "#FFFFFF" by {
      assert ByteHex(255) == "FF";
    }
  }

  /**
   * Position `i` cannot start a number for parseInt: it is past the end, or its character is
   * neither a hexadecimal digit, nor white space, nor a sign.
   */
  predicate NoLeadingDigit(s: string, i: nat) {
    i >= |s| || (!IsHexDigit(s[i]) && !IsJsWhiteSpace(s[i]) && s[i] != '+' && s[i] != '-')
  }

  /** A string that is not a colour is not rejected: a channel that cannot start a number is NaN. */
  lemma NoLeadingDigitIsNaN(s: string, i: nat)
    requires NoLeadingDigit(s, i)
    ensures Channel(s, i) == NaN
  {
  }

  /**
   * A string none of whose channel positions can start a number, the empty string among them,
   * is the colour with three NaN channels.
   */
  lemma NoColourIsNaN(s: string)
    requires NoLeadingDigit(s, 1) && NoLeadingDigit(s, 3) && NoLeadingDigit(s, 5)
    ensures HexToRGB(s) == RGB(NaN, NaN, NaN)
  {
  }

  // ---------------------------------------------------------------------------------------------
  // getRandomColor and getRandomValue

  /** `Math.floor(r * 16)` for a draw r in [0, 1). */
  function DigitIndex(r: real): (i: nat)
    requires 0.0 <= r < 1.0
    ensures i < 16
  {
    (r * 16.0).Floor
  }

  /** getRandomColor: `#` followed by one digit of `0123456789ABCDEF` per draw, six draws. */
  method GetRandomColor(draws: seq<real>) returns (color: string)
    requires |draws| == 6 && forall i :: 0 <= i < 6 ==> 0.0 <= draws[i] < 1.0
    ensures IsHexColor(color)
    ensures forall i :: 0 <= i < 6 ==> color[i + 1] == HEX_DIGITS[DigitIndex(draws[i])]
  {
    color := "#";
    for i := 0 to 6
      invariant |color| == i + 1 && color[0] == '#'
      invariant forall j :: 0 <= j < i ==> color[j + 1] == HEX_DIGITS[DigitIndex(draws[j])]
      invariant forall j :: 1 <= j <= i ==> IsHexDigit(color[j])
    {
      color := color + [HEX_DIGITS[DigitIndex(draws[i])]];
    }
  }

  /** The generated colour is accepted by hexToRGB: three channels in [0, 1]. */
  lemma RandomColorParses(color: string)
    requires IsHexColor(color)
    ensures InUnitInterval(HexToRGB(color).r) && InUnitInterval(HexToRGB(color).g)
    ensures InUnitInterval(HexToRGB(color).b)
  {
    HexToRGBInRange(color);
  }

  /** `Math.floor((max - min) / step)`: how many whole steps the range holds. */
  function Steps(min: real, max: real, step: real): int
    requires step != 0.0
  {
    ((max - min) / step).Floor
  }

  /** `Math.floor(r * steps)`: the step the draw r picks. */
  function StepIndex(r: real, steps: int): int {
    (r * steps as real).Floor
  }

  /**
   * getRandomValue(min, max, step) with the draw r: `min + floor(r * steps) * step`. With a zero
   * step the division gives an infinity or NaN and so does the result.
   */
  function GetRandomValue(min: real, max: real, step: real, r: real): (v: Num)
    requires 0.0 <= r < 1.0
    ensures step != 0.0 <==> v.Finite?
  {
    if step == 0.0 then NaN
    else Finite(min + StepIndex(r, Steps(min, max, step)) as real * step)
  }

  /** floor(r * n) for r in [0, 1) and n >= 1 is one of 0 .. n - 1. */
  lemma FloorOfFraction(r: real, n: int)
    requires 0.0 <= r < 1.0 && n >= 1
    ensures 0 <= StepIndex(r, n) < n
  {
    assert r * n as real < n as real by {
      assert (1.0 - r) * n as real > 0.0;
    }
  }

  /** The last step still fits: `steps * step <= max - min` for a positive step. */
  lemma StepsFit(min: real, max: real, step: real)
    requires step > 0.0
    ensures Steps(min, max, step) as real * step <= max - min
  {
    var q := (max - min) / step;
    assert q * step == max - min;
    assert Steps(min, max, step) as real <= q;
    assert (q - Steps(min, max, step) as real) * step >= 0.0;
  }

  lemma MultiplyMonotone(a: real, b: real, step: real)
    requires a <= b && step > 0.0
    ensures a * step <= b * step
  {
    assert (b - a) * step >= 0.0;
  }

  /**
   * For a positive step whose range holds at least one step, the value is `min + k * step` for
   * one of the `steps` indices k, so it lies between `min` and `max - step`; a range narrower
   * than one step gives `min`.
   */
  lemma GetRandomValueInRange(min: real, max: real, step: real, r: real)
    requires 0.0 <= r < 1.0 && step > 0.0
    ensures var steps, k := Steps(min, max, step), StepIndex(r, Steps(min, max, step));
      && GetRandomValue(min, max, step, r) == Finite(min + k as real * step)
      && (steps >= 1 ==> 0 <= k < steps && min <= GetRandomValue(min, max, step, r).value <= max - step)
      && (steps == 0 ==> GetRandomValue(min, max, step, r) == Finite(min))
  {
    var steps := Steps(min, max, step);
    var k := StepIndex(r, steps);
    if steps >= 1 {
      FloorOfFraction(r, steps);
      StepsFit(min, max, step);
      StepValueBounds(min, max, step, k, steps);
    } else if steps == 0 {
      assert k == 0 by {
        assert r * steps as real == 0.0;
      }
    }
  }

  /** Step k of a range holding `steps` whole steps lies between `min` and `max - step`. */
  lemma StepValueBounds(min: real, max: real, step: real, k: int, steps: int)
    requires step > 0.0 && 0 <= k < steps && steps as real * step <= max - min
    ensures min <= min + k as real * step <= max - step
  {
    MultiplyMonotone(0.0, k as real, step);
    MultiplyMonotone(k as real, (steps - 1) as real, step);
    assert (steps - 1) as real * step == steps as real * step - step;
  }

  // ---------------------------------------------------------------------------------------------
  // setUniforms

  /** The value of one entry of the uniforms object. */
  datatype UniformValue = Number(x: real) | Boolean(flag: bool) | Array(xs: seq<real>)

  /** The setter `setUniforms` picks for a value, and the values it passes. */
  function UniformCall(name: string, value: UniformValue): (c: Call)
    ensures c.Uniform? && c.location == name
  {
    match value
    case Array(xs) =>
      var setter :=
        if |xs| == 2 then Uniform2fv
        else if |xs| == 3 then Uniform3fv
        else if |xs| == 4 then Uniform4fv
        else if |xs| == 9 then UniformMatrix3fv
        else if |xs| == 16 then UniformMatrix4fv
        else Uniform1fv;
      Uniform(name, setter, Finites(xs))
    case Number(x) => Uniform(name, Uniform1f, [Finite(x)])
    case Boolean(flag) => Uniform(name, Uniform1i, [Finite(if flag then 1.0 else 0.0)])
  }

  /** The number of components each setter takes per element. */
  function Arity(setter: UniformKind): nat {
    match setter
    case Uniform1f => 1
    case Uniform2f => 2
    case Uniform3f => 3
    case Uniform1i => 1
    case Uniform1fv => 1
    case Uniform2fv => 2
    case Uniform3fv => 3
    case Uniform4fv => 4
    case UniformMatrix3fv => 9
    case UniformMatrix4fv => 16
  }

  /**
   * The dispatch never splits a value: arrays of 2, 3, 4, 9 or 16 go to the setter taking that
   * many components at once and any other length to `uniform1fv`; a number or a boolean is one
   * component, a boolean sent as 1 or 0.
   */
  lemma UniformDispatch(name: string, value: UniformValue)
    ensures var c := UniformCall(name, value);
      && c.values == Finites(match value case Array(xs) => xs case Number(x) => [x]
                                         case Boolean(f) => [if f then 1.0 else 0.0])
      && (value.Array? && |value.xs| in {2, 3, 4, 9, 16} <==> c.setter != Uniform1fv && Arity(c.setter) == |c.values| > 1)
      && (!value.Array? ==> Arity(c.setter) == 1 && (c.setter == Uniform1i <==> value.Boolean?))
  {
  }

  /** The calls for the entries in order, skipping names without a location. */
  function UniformCalls(entries: seq<(string, UniformValue)>, located: set<string>): (calls: seq<Call>)
    ensures |calls| <= |entries|
    ensures forall i :: 0 <= i < |calls| ==> calls[i].Uniform? && calls[i].location in located
  {
    if entries == [] then []
    else
      (if entries[0].0 in located then [UniformCall(entries[0].0, entries[0].1)] else [])
      + UniformCalls(entries[1..], located)
  }

  lemma {:induction false} UniformCallsAppend(entries: seq<(string, UniformValue)>, e: (string, UniformValue), located: set<string>)
    ensures UniformCalls(entries + [e], located)
         == UniformCalls(entries, located) + (if e.0 in located then [UniformCall(e.0, e.1)] else [])
  {
    if entries == [] {
      assert [e][1..] == [];
    } else {
      assert (entries + [e])[1..] == entries[1..] + [e];
      UniformCallsAppend(entries[1..], e, located);
    }
  }

  /** Every located entry is set, exactly once, with its own value. */
  lemma {:induction false} UniformCallsComplete(entries: seq<(string, UniformValue)>, located: set<string>)
    ensures forall i :: 0 <= i < |entries| && entries[i].0 in located ==>
      UniformCall(entries[i].0, entries[i].1) in UniformCalls(entries, located)
    ensures (forall i :: 0 <= i < |entries| ==> entries[i].0 in located) ==> |UniformCalls(entries, located)| == |entries|
  {
    if entries != [] {
      UniformCallsComplete(entries[1..], located);
      forall i | 1 <= i < |entries| && entries[i].0 in located
        ensures UniformCall(entries[i].0, entries[i].1) in UniformCalls(entries, located)
      {
        assert entries[i] == entries[1..][i - 1];
      }
      if forall i :: 0 <= i < |entries| ==> entries[i].0 in located {
        assert forall i :: 0 <= i < |entries[1..]| ==> entries[1..][i].0 in located by {
          forall i | 0 <= i < |entries[1..]| ensures entries[1..][i].0 in located {
            assert entries[1..][i] == entries[i + 1];
          }
        }
      }
    }
  }

  /**
   * setUniforms: `useProgram` straight on the context (not through the binding cache), then one
   * setter per entry whose name has a location, in the order the entries are visited.
   * `located` holds the names `getUniformLocation` finds in the program.
   */
  method SetUniforms(gl: Driver, program: Handle, entries: seq<(string, UniformValue)>, located: set<string>)
    modifies gl`calls, gl`bound
    ensures gl.calls == old(gl.calls) + [Call.UseProgram(Some(program))] + UniformCalls(entries, located)
    ensures gl.bound.program == Some(program)
  {
    gl.Issue(Call.UseProgram(Some(program)));
    var i := 0;
    while i < |entries|
      invariant 0 <= i <= |entries|
      invariant gl.calls == old(gl.calls) + [Call.UseProgram(Some(program))] + UniformCalls(entries[..i], located)
      invariant gl.bound.program == Some(program)
    {
      var (name, value) := entries[i];
      UniformCallsAppend(entries[..i], entries[i], located);
      assert entries[..i + 1] == entries[..i] + [entries[i]];
      if name in located {
        gl.Issue(UniformCall(name, value));
      }
      i := i + 1;
    }
    assert entries[..i] == entries;
  }

  // ---------------------------------------------------------------------------------------------
  // resizeCanvasToDisplaySize

  /** The drawing-buffer size for the displayed size: `Math.floor(client * multiplier)`. */
  function DisplayPixels(client: real, multiplier: real): int {
    (client * multiplier).Floor
  }

  /**
   * resizeCanvasToDisplaySize: true exactly when the buffer size differed from the displayed size
   * times the multiplier; afterwards they agree either way, so a second call returns false.
   */
  method ResizeCanvasToDisplaySize(canvas: Canvas, multiplier: real) returns (changed: bool)
    modifies canvas`width, canvas`height
    ensures changed == (old(canvas.width) != DisplayPixels(canvas.clientWidth, multiplier)
                        || old(canvas.height) != DisplayPixels(canvas.clientHeight, multiplier))
    ensures canvas.width == DisplayPixels(canvas.clientWidth, multiplier)
    ensures canvas.height == DisplayPixels(canvas.clientHeight, multiplier)
  {
    var width := DisplayPixels(canvas.clientWidth, multiplier);
    var height := DisplayPixels(canvas.clientHeight, multiplier);
    if canvas.width != width || canvas.height != height {
      canvas.width := width;
      canvas.height := height;
      return true;
    }
    return false;
  }

  // ---------------------------------------------------------------------------------------------
  // createShader, createProgram, createBuffer

  /**
   * The calls createShader issues when the next handle is `h`: the creation, then the source and
   * the compilation, then the deletion of a shader that did not compile.
   */
  function ShaderCalls(h: Handle, stage: int, source: string, created: bool, compiled: bool): seq<Call> {
    if !created then [Call.CreateObject(ShaderObject(stage), None)]
    else [Call.CreateObject(ShaderObject(stage), Some(h)), ShaderSource(h, source), CompileShader(h)]
         + (if compiled then [] else [DeleteShader(h)])
  }

  /** The calls createProgram issues when the next handle is `h`. */
  function ProgramCalls(h: Handle, vertexShader: Handle, fragmentShader: Handle,
                        varyings: Option<seq<string>>, created: bool, linked: bool): seq<Call> {
    if !created then [Call.CreateObject(ProgramObject, None)]
    else [Call.CreateObject(ProgramObject, Some(h)), AttachShader(h, vertexShader), AttachShader(h, fragmentShader)]
         + (if varyings.Some? then [TransformFeedbackVaryings(h, varyings.value, SEPARATE_ATTRIBS)] else [])
         + [LinkProgram(h)]
         + (if linked then [] else [DeleteProgram(h)])
  }

  /** The calls createBuffer issues when the next handle is `h`. */
  function BufferCalls(h: Handle, data: seq<real>, usage: int, created: bool): seq<Call> {
    if !created then [Call.CreateObject(BufferObject, None)]
    else [Call.CreateObject(BufferObject, Some(h)), BindBuffer(ARRAY_BUFFER, Some(h)),
          BufferData(ARRAY_BUFFER, data, usage), BindBuffer(ARRAY_BUFFER, None)]
  }

  /**
   * A failed creation cleans up after itself: a shader or program that does not compile or link
   * is deleted by the same sequence of calls that created it, and a successful buffer creation
   * leaves ARRAY_BUFFER unbound.
   */
  lemma CreationCleansUp(h: Handle, stage: int, source: string, vs: Handle, fs: Handle,
                         varyings: Option<seq<string>>, data: seq<real>, usage: int)
    ensures var c := ShaderCalls(h, stage, source, true, false); c[|c| - 1] == DeleteShader(h)
    ensures var c := ProgramCalls(h, vs, fs, varyings, true, false); c[|c| - 1] == DeleteProgram(h)
    ensures var c := ShaderCalls(h, stage, source, true, true); DeleteShader(h) !in c
    ensures var c := ProgramCalls(h, vs, fs, varyings, true, true); DeleteProgram(h) !in c
    ensures var c := BufferCalls(h, data, usage, true); c[|c| - 1] == BindBuffer(ARRAY_BUFFER, None)
  {
  }

  /**
   * createShader. `created` is whether the context hands out a shader object and `compiled` the
   * compile status; a shader that fails to compile is deleted and null returned.
   */
  method CreateShader(gl: Driver, stage: int, source: string, created: bool, compiled: bool)
      returns (shader: Option<Handle>)
    modifies gl`calls, gl`bound, gl`nextHandle
    ensures shader.Some? <==> created && compiled
    ensures shader.Some? ==> shader.value == old(gl.nextHandle)
    ensures gl.calls == old(gl.calls) + ShaderCalls(old(gl.nextHandle), stage, source, created, compiled)
    ensures gl.nextHandle == old(gl.nextHandle) + (if created then 1 else 0)
    ensures gl.bound == old(gl.bound)
  {
    shader := gl.CreateObject(ShaderObject(stage), created);
    if shader.None? {
      return None;
    }
    gl.Issue(ShaderSource(shader.value, source));
    gl.Issue(CompileShader(shader.value));
    if !compiled {
      gl.Issue(DeleteShader(shader.value));
      return None;
    }
  }

  /**
   * createProgram. Varyings are declared (as separate attributes) only when given; an empty list
   * is truthy and is still declared. A program that fails to link is deleted and null returned.
   */
  method CreateProgram(gl: Driver, vertexShader: Handle, fragmentShader: Handle,
                       varyings: Option<seq<string>>, created: bool, linked: bool)
      returns (program: Option<Handle>)
    modifies gl`calls, gl`bound, gl`nextHandle
    ensures program.Some? <==> created && linked
    ensures program.Some? ==> program.value == old(gl.nextHandle)
    ensures gl.calls == old(gl.calls)
      + ProgramCalls(old(gl.nextHandle), vertexShader, fragmentShader, varyings, created, linked)
    ensures gl.nextHandle == old(gl.nextHandle) + (if created then 1 else 0)
    ensures gl.bound == old(gl.bound)
  {
    program := gl.CreateObject(ProgramObject, created);
    if program.None? {
      return None;
    }
    var p := program.value;
    var rest := [AttachShader(p, vertexShader), AttachShader(p, fragmentShader)]
      + (if varyings.Some? then [TransformFeedbackVaryings(p, varyings.value, SEPARATE_ATTRIBS)] else [])
      + [LinkProgram(p)]
      + (if linked then [] else [DeleteProgram(p)]);
    gl.IssueInert(rest);
    assert [Call.CreateObject(ProgramObject, Some(p))] + rest
        == ProgramCalls(p, vertexShader, fragmentShader, varyings, created, linked);
    if !linked {
      return None;
    }
  }

  const BUFFER_FAILED: string := "Unable to create buffer"

  /** createBuffer: throws when no buffer object is handed out, else uploads and unbinds. */
  method CreateBuffer(gl: Driver, data: seq<real>, usage: int, created: bool) returns (buffer: Result<Handle>)
    modifies gl`calls, gl`bound, gl`nextHandle
    ensures buffer == if created then Ok(old(gl.nextHandle)) else Err(BUFFER_FAILED)
    ensures gl.calls == old(gl.calls) + BufferCalls(old(gl.nextHandle), data, usage, created)
    ensures gl.nextHandle == old(gl.nextHandle) + (if created then 1 else 0)
    ensures gl.bound == old(gl.bound)
  {
    var h := gl.CreateObject(BufferObject, created);
    if h.None? {
      return Err(BUFFER_FAILED);
    }
    gl.Issue(BindBuffer(ARRAY_BUFFER, h));
    gl.Issue(BufferData(ARRAY_BUFFER, data, usage));
    gl.Issue(BindBuffer(ARRAY_BUFFER, None));
    buffer := Ok(h.value);
  }
}
