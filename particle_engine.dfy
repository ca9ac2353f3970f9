/**
 * particle-engine.ts: the orchestrator. Its module-level flags form the life cycle of the
 * animation: a restart is begun at once and completed by a deferred callback, frames are
 * requested one at a time while the animation is running and playing, and a configuration
 * change rebuilds the particle system unless it only affects drawing.
 *
 * The engine's calls into the particle system, the context cache, the timer and the animation
 * frame scheduler are recorded, in order, as `Effect`s; the answers it gets back (a frame id,
 * whether the system could be built, the clock, the random draws) are parameters.
 */
module ParticleEngine {
  import opened Wrappers
  import opened WebGL
  import opened ParticleConfig
  import opened WebGLUtils

  // ---------------------------------------------------------------------------------------------
  // calculateDivisibleDimensions

  function Min(x: real, y: real): (m: real)
    ensures m <= x && m <= y && (m == x || m == y)
  {
    if x <= y then x else y
  }

  /** Math.round: the nearest integer, halves rounded up. */
  function Round(x: real): (n: int)
    ensures x - 0.5 < n as real <= x + 0.5
  {
    (x + 0.5).Floor
  }

  /** `Math.floor(n / 4) * 4`: n rounded down to a multiple of 4. */
  function Down4(n: int): (m: int)
    ensures m % 4 == 0 && m <= n < m + 4
  {
    n / 4 * 4
  }

  /** `Math.floor(x / 4) * 4` for a real x lies at or below x, and is not negative when x is not. */
  lemma FloorQuarter(x: real)
    ensures (x / 4.0).Floor as real * 4.0 <= x
    ensures x >= 0.0 ==> (x / 4.0).Floor >= 0
  {
  }

  lemma QuotientSign(x: real, a: real)
    requires a > 0.0
    ensures x >= 0.0 ==> x / a >= 0.0
    ensures x / a * a == x
  {
  }

  lemma ProductSign(x: real, a: real)
    ensures x >= 0.0 && a >= 0.0 ==> x * a >= 0.0
  {
  }

  /** The height that goes with width `w` at aspect ratio `a`: `Math.floor(w / a / 4) * 4`. */
  function HeightFor(w: int, a: real): (h: int)
    requires a > 0.0
    ensures h % 4 == 0 && (w >= 0 ==> h >= 0)
  {
    QuotientSign(w as real, a);
    FloorQuarter(w as real / a);
    (w as real / a / 4.0).Floor * 4
  }

  /** The width that goes with height `h` at aspect ratio `a`: `Math.floor(h * a / 4) * 4`. */
  function WidthFor(h: int, a: real): (w: int)
    requires a > 0.0
    ensures w % 4 == 0 && (h >= 0 ==> w >= 0)
  {
    ProductSign(h as real, a);
    FloorQuarter(h as real * a);
    (h as real * a / 4.0).Floor * 4
  }

  /**
   * `w / h > a` as JavaScript evaluates it for non-negative `w` and `h`: over a zero height the
   * quotient is an infinity (greater) or, for 0 / 0, NaN (not greater).
   */
  predicate WiderThan(w: int, h: int, a: real) {
    if h != 0 then w as real / h as real > a else w > 0
  }

  lemma HeightBound(w: int, a: real)
    requires a > 0.0
    ensures HeightFor(w, a) as real <= w as real / a
  {
    FloorQuarter(w as real / a);
  }

  lemma WidthBound(h: int, a: real)
    requires a > 0.0
    ensures WidthFor(h, a) as real <= h as real * a
  {
    FloorQuarter(h as real * a);
  }

  lemma WidthForMonotone(h: int, a: real)
    requires a > 0.0
    ensures WidthFor(h - 4, a) <= WidthFor(h, a)
  {
    var x, y := (h - 4) as real * a / 4.0, h as real * a / 4.0;
    assert (h - 4) as real * a == h as real * a - 4.0 * a;
    assert x <= y;
    assert x.Floor <= y.Floor;
  }

  /** Going back from a height derived from `w`, one step lower, gives a narrower width. */
  lemma WidthBelowDerivedHeight(w: int, a: real)
    requires a > 0.0
    ensures WidthFor(HeightFor(w, a) - 4, a) < w
  {
    var h := HeightFor(w, a);
    HeightBound(w, a);
    WidthBound(h - 4, a);
    assert h as real * a <= w as real by {
      assert h as real <= w as real / a;
      assert (w as real / a - h as real) * a >= 0.0;
      assert w as real / a * a == w as real;
    }
    assert (h - 4) as real * a == h as real * a - 4.0 * a;
  }

  lemma MultipleOfFour(n: int)
    requires n % 4 == 0
    ensures (n - 4) % 4 == 0 && (n > 0 ==> n >= 4)
  {
  }

  /** `Math.min(maxSize / width, maxSize / height)`: the scale that fits both sides. */
  function FitScale(width: int, height: int, maxSize: int): (scale: real)
    requires width > 0 && height > 0 && maxSize > 0
    ensures scale >= 0.0
    ensures scale * width as real <= maxSize as real && scale * height as real <= maxSize as real
  {
    QuotientSign(maxSize as real, width as real);
    QuotientSign(maxSize as real, height as real);
    Min(maxSize as real / width as real, maxSize as real / height as real)
  }

  /** `Math.round(side * scale)`. */
  function Fitted(side: int, scale: real): (n: int)
    requires side > 0 && scale >= 0.0
    ensures n >= 0
  {
    ProductSign(side as real, scale);
    Round(side as real * scale)
  }

  /** `width / height`, positive for a non-empty image. */
  function AspectRatio(width: int, height: int): (a: real)
    requires width > 0 && height > 0
    ensures a > 0.0 && a * height as real == width as real
  {
    width as real / height as real
  }

  /**
   * The first part of calculateDivisibleDimensions: the image scaled to fit `maxSize`, both sides
   * rounded down to a multiple of 4, and then the side the aspect ratio makes too long derived
   * again from the other.
   */
  method ScaleToFit(width: int, height: int, maxSize: int) returns (w: int, h: int)
    requires width > 0 && height > 0 && maxSize > 0
    ensures 0 <= w && 0 <= h && w % 4 == 0 && h % 4 == 0
    ensures var a := width as real / height as real;
      h == HeightFor(w, a) || w == WidthFor(h, a)
  {
    var scale := FitScale(width, height, maxSize);
    w := Fitted(width, scale);
    h := Fitted(height, scale);
    w := Down4(w);
    h := Down4(h);
    var a := AspectRatio(width, height);
    if WiderThan(w, h, a) {
      h := Down4(h);
      w := WidthFor(h, a);
    } else {
      w := Down4(w);
      h := HeightFor(w, a);
    }
  }

  /**
   * calculateDivisibleDimensions: both sides a multiple of 4 and at most `maxSize`, and one side
   * derived from the other by the aspect ratio of `width` x `height`, rounded down to a multiple
   * of 4. The repair loop ends because each pass lowers the width, or keeps it and lowers the
   * height.
   */
  method CalculateDivisibleDimensions(width: int, height: int, maxSize: int) returns (w: int, h: int)
    requires width > 0 && height > 0 && maxSize > 0
    ensures 0 <= w <= maxSize && 0 <= h <= maxSize && w % 4 == 0 && h % 4 == 0
    ensures var a := width as real / height as real;
      h == HeightFor(w, a) || w == WidthFor(h, a)
  {
    var a := width as real / height as real;
    w, h := ScaleToFit(width, height, maxSize);
    while w > maxSize || h > maxSize
      invariant 0 <= w && 0 <= h && w % 4 == 0 && h % 4 == 0
      invariant h == HeightFor(w, a) || w == WidthFor(h, a)
      decreases w, h
    {
      ghost var w0, h0 := w, h;
      if w > maxSize {
        MultipleOfFour(w);
        w := w - 4;
        h := HeightFor(w, a);
      }
      if h > maxSize {
        if w == w0 && w0 == WidthFor(h0, a) {
          WidthForMonotone(h, a);
        } else {
          WidthBelowDerivedHeight(w, a);
        }
        MultipleOfFour(h);
        h := h - 4;
        w := WidthFor(h, a);
      }
    }
  }

  // ---------------------------------------------------------------------------------------------
  // The palette and the parameters that do not need a rebuild

  /** CONFIG.palette in key order: name, background colour, particle colour. */
  const PALETTE: seq<(string, string, string)> := [
    ("noir", "#000000", "#FFFFFF"),
    ("crimson", "#300907", "#f49092"),
    ("sea", "#2f5575", "#94f0dc"),
    ("cherry", "#f1faee", "#e63946"),
    ("maroon", "#360b1a", "#f6e3c7"),
    ("lakers", "#2f0f5b", "#ffe35a"),
    ("copper", "#2b1404", "#fec9b9"),
    ("foam", "#780C28", "#EAFAEA"),
    ("retro", "#feda62", "#8f1414"),
    ("galaxy", "#0f0d2e", "#dda290"),
    ("ink", "#441752", "#EFB6C8"),
    ("blackberry", "#21062b", "#e78686"),
    ("emerald", "#00261f", "#95e5bd"),
    ("slate", "#ddc1a1", "#1c1c1c"),
    ("sakura", "#FFB3A7", "#C93756"),
    ("indigo", "#22117c", "#EAFAEA")
  ]

  /** CONFIG.backgroundColor as the module initializes it. */
  const INITIAL_BACKGROUND: string := "#0f0d2e"

  /** The keys whose change updateConfig applies without rebuilding the particle system. */
  const NO_RESTART_PARAMS: seq<string> := [
    "particleOpacity", "particleSpeed", "attractionStrength", "particleSize",
    "particleColor", "backgroundColor", "IS_PLAYING"
  ]

  /** Every colour of the palette is `#` and six hexadecimal digits. */
  lemma {:induction false} PaletteColorsWellFormed()
    ensures forall i :: 0 <= i < |PALETTE| ==> IsHexColor(PALETTE[i].1) && IsHexColor(PALETTE[i].2)
  {
    forall i | 0 <= i < |PALETTE|
      ensures IsHexColor(PALETTE[i].1) && IsHexColor(PALETTE[i].2)
    {
      PaletteEntryWellFormed(i);
    }
  }

  lemma PaletteEntryWellFormed(i: int)
    requires 0 <= i < |PALETTE|
    ensures IsHexColor(PALETTE[i].1) && IsHexColor(PALETTE[i].2)
  {
  }

  /** `Math.floor(r * keys.length)`: the palette entry a draw picks. */
  function PaletteIndex(r: real): (i: int)
    requires 0.0 <= r < 1.0
    ensures 0 <= i < |PALETTE|
  {
    FloorOfFraction(r, |PALETTE|);
    StepIndex(r, |PALETTE|)
  }

  // ---------------------------------------------------------------------------------------------
  // randomizeInputs

  /** The Math.random draws of one randomizeInputs call, each in [0, 1). */
  datatype Draws = Draws(palette: real, noise: real, values: seq<real>, adjustment: real) {
    predicate Valid() {
      && 0.0 <= palette < 1.0 && 0.0 <= noise < 1.0 && 0.0 <= adjustment < 1.0
      && |values| == 6 && forall i :: 0 <= i < 6 ==> 0.0 <= values[i] < 1.0
    }
  }

  /** A range keeps its bounds and step: only its value is ever rewritten. */
  predicate SameBounds(r: Range, q: Range) {
    r.min == q.min && r.max == q.max && r.step == q.step
  }

  predicate SameRanges(s: Settings, t: Settings) {
    && SameBounds(s.particleSpeed, t.particleSpeed) && SameBounds(s.attractionStrength, t.attractionStrength)
    && SameBounds(s.particleOpacity, t.particleOpacity) && SameBounds(s.particleSize, t.particleSize)
    && SameBounds(s.particleCount, t.particleCount) && SameBounds(s.edgeThreshold, t.edgeThreshold)
    && SameBounds(s.flowFieldScale, t.flowFieldScale)
  }

  /** getRandomValue over a range with a positive step: a value between its bounds. */
  function Pick(r: Range, draw: real): (v: real)
    requires 0.0 < r.step && r.min <= r.max && 0.0 <= draw < 1.0
    ensures r.min <= v <= r.max
    ensures Finite(v) == GetRandomValue(r.min, r.max, r.step, draw)
  {
    GetRandomValueInRange(r.min, r.max, r.step, draw);
    assert Steps(r.min, r.max, r.step) >= 0 by {
      assert (r.max - r.min) / r.step >= 0.0;
    }
    GetRandomValue(r.min, r.max, r.step, draw).value
  }

  /**
   * The new attraction strength: `max * Math.min(speed / speedMax + adjustment, 1)`, with the
   * adjustment `draw * 0.7 - 0.3`.
   */
  function AttractionStrength(speed: real, speedMax: real, strengthMax: real, draw: real): real
    requires speedMax != 0.0
  {
    strengthMax * Min(speed / speedMax + (draw * 0.7 - 0.3), 1.0)
  }

  /**
   * The attraction strength never exceeds its maximum, and it is at least the maximum times the
   * speed ratio less 0.3, which goes below zero for slow particles (a speed under 30% of its
   * maximum with the smallest adjustment): the lower bound of the control is not enforced.
   */
  lemma AttractionBounds(speed: real, speedMax: real, strengthMax: real, draw: real)
    requires speedMax > 0.0 && strengthMax >= 0.0 && 0.0 <= draw < 1.0
    ensures AttractionStrength(speed, speedMax, strengthMax, draw) <= strengthMax
    ensures speed / speedMax <= 1.3 ==>
      strengthMax * (speed / speedMax - 0.3) <= AttractionStrength(speed, speedMax, strengthMax, draw)
  {
    var m := Min(speed / speedMax + (draw * 0.7 - 0.3), 1.0);
    assert strengthMax * (1.0 - m) >= 0.0;
    if speed / speedMax <= 1.3 {
      assert speed / speedMax - 0.3 <= m;
      assert strengthMax * (m - (speed / speedMax - 0.3)) >= 0.0;
    }
  }

  /** With the default ranges, the slowest speed and the smallest draw give a negative strength. */
  lemma AttractionCanBeNegative()
    ensures var speed := Pick(PARTICLE_CONFIG.particleSpeed, 0.0);
      speed == 2.0
      && AttractionStrength(speed, PARTICLE_CONFIG.particleSpeed.max, PARTICLE_CONFIG.attractionStrength.max, 0.0) == -55.0
      && -55.0 < PARTICLE_CONFIG.attractionStrength.min
  {
  }

  /**
   * PARTICLE_CONFIG after randomizeInputs: particle colour from the palette entry, noise type
   * from the draw, a stepped value for each of the six ranges other than the attraction
   * strength (in the order of the config), and the attraction strength from the new speed.
   */
  function Randomized(s: Settings, d: Draws, particleColor: string): (t: Settings)
    requires d.Valid()
    requires 0.0 < s.particleSpeed.step && s.particleSpeed.min <= s.particleSpeed.max && s.particleSpeed.max != 0.0
    requires 0.0 < s.particleOpacity.step && s.particleOpacity.min <= s.particleOpacity.max
    requires 0.0 < s.particleSize.step && s.particleSize.min <= s.particleSize.max
    requires 0.0 < s.particleCount.step && s.particleCount.min <= s.particleCount.max
    requires 0.0 < s.edgeThreshold.step && s.edgeThreshold.min <= s.edgeThreshold.max
    requires 0.0 < s.flowFieldScale.step && s.flowFieldScale.min <= s.flowFieldScale.max
    ensures SameRanges(t, s)
  {
    var speed := Pick(s.particleSpeed, d.values[0]);
    s.(particleColor := particleColor,
       noiseType := if d.noise < 0.5 then Noise2D else Noise3D,
       particleSpeed := s.particleSpeed.(value := speed),
       particleOpacity := s.particleOpacity.(value := Pick(s.particleOpacity, d.values[1])),
       particleSize := s.particleSize.(value := Pick(s.particleSize, d.values[2])),
       particleCount := s.particleCount.(value := Pick(s.particleCount, d.values[3])),
       edgeThreshold := s.edgeThreshold.(value := Pick(s.edgeThreshold, d.values[4])),
       flowFieldScale := s.flowFieldScale.(value := Pick(s.flowFieldScale, d.values[5])),
       attractionStrength := s.attractionStrength.(value :=
         AttractionStrength(speed, s.particleSpeed.max, s.attractionStrength.max, d.adjustment)))
  }

  /**
   * Every randomized value other than the attraction strength lies within its range, and the
   * attraction strength is at most its maximum.
   */
  lemma RandomizedInRange(s: Settings, d: Draws, particleColor: string)
    requires d.Valid() && SameRanges(s, PARTICLE_CONFIG)
    ensures var t := Randomized(s, d, particleColor);
      && t.particleSpeed.min <= t.particleSpeed.value <= t.particleSpeed.max
      && t.particleOpacity.min <= t.particleOpacity.value <= t.particleOpacity.max
      && t.particleSize.min <= t.particleSize.value <= t.particleSize.max
      && t.particleCount.min <= t.particleCount.value <= t.particleCount.max
      && t.edgeThreshold.min <= t.edgeThreshold.value <= t.edgeThreshold.max
      && t.flowFieldScale.min <= t.flowFieldScale.value <= t.flowFieldScale.max
      && t.attractionStrength.value <= t.attractionStrength.max
      && t.particleColor == particleColor
      && (t.noiseType == Noise3D <==> d.noise >= 0.5)
  {
    var speed := Pick(s.particleSpeed, d.values[0]);
    AttractionBounds(speed, s.particleSpeed.max, s.attractionStrength.max, d.adjustment);
  }

  // ---------------------------------------------------------------------------------------------
  // The orchestrator

  /** What the orchestrator does outside its own variables, in order. */
  datatype Effect =
    | RequestFrame(id: int)             // requestAnimationFrame(animate), answered with `id`
    | CancelFrame(id: int)              // cancelAnimationFrame(id)
    | DisposeSystem                     // particleSystem.dispose()
    | ClearCanvas                       // glState.clear()
    | ScheduleRestart                   // setTimeout(the restart's completion, 25)
    | CreateSystem(particleCount: real) // new ParticleSystem(gl, count, resourceManager, glState)
    | ProcessImage(image: Image)        // particleSystem.processImage(currentImage)
    | DrawFrame(deltaTime: real)        // glState.clear(); update(deltaTime); render()
    | FrameFailed(deltaTime: real)      // the same, interrupted by an exception
    | RestartFailed                     // the error is logged and an alert is shown
    | SetBackground(color: string)      // updateBackgroundColor: clear colour from hexToRGB, clear

  /** The life-cycle variables, gathered to state what an operation leaves alone. */
  datatype Lifecycle = Lifecycle(
    currentImage: Option<Image>, hasSystem: bool, animationFrameId: Option<int>,
    isAnimating: bool, isPlaying: bool, lastTime: real, isRestarting: bool, restartPending: bool)

  /** stopAnimation's cancellation: only when a frame id is held. */
  function Cancelled(frame: Option<int>): seq<Effect> {
    if frame.Some? then [CancelFrame(frame.value)] else []
  }

  /** The effects of a restart that begins: stop, dispose the system if any, clear, schedule. */
  function BeginEffects(frame: Option<int>, hadSystem: bool): seq<Effect> {
    Cancelled(frame) + (if hadSystem then [DisposeSystem] else []) + [ClearCanvas, ScheduleRestart]
  }

  /** `lastTime ? currentTime - lastTime : 0`: no time has passed on the first frame. */
  function FrameDelta(lastTime: real, currentTime: real): real {
    if lastTime != 0.0 then currentTime - lastTime else 0.0
  }

  class Engine {
    var currentImage: Option<Image>
    var hasSystem: bool
    var animationFrameId: Option<int>
    var isAnimating: bool
    var isPlaying: bool
    var lastTime: real
    var isRestarting: bool
    /** The 25 ms completion of a restart has been scheduled and has not yet run. */
    var restartPending: bool
    /** PARTICLE_CONFIG. */
    var settings: Settings
    /** CONFIG.backgroundColor and CONFIG.selectedPalette. */
    var backgroundColor: string
    var selectedPalette: Option<string>
    var effects: seq<Effect>

    /**
     * The life cycle: a restart is in progress exactly while its completion is pending, and
     * then there is no particle system and nothing animates; the animation runs only with a
     * system; a system or a restart needs an image; and the ranges of the settings never change.
     */
    ghost predicate Valid()
      reads this
    {
      && (restartPending <==> isRestarting)
      && (isRestarting ==> !hasSystem)
      && (isAnimating ==> hasSystem && !isRestarting)
      && (hasSystem || isRestarting ==> currentImage.Some?)
      && SameRanges(settings, PARTICLE_CONFIG)
    }

    function Flags(): Lifecycle
      reads this
    {
      Lifecycle(currentImage, hasSystem, animationFrameId, isAnimating, isPlaying, lastTime, isRestarting, restartPending)
    }

    /** The module state when particle-engine.ts is loaded. */
    constructor()
      ensures Valid()
      ensures Flags() == Lifecycle(None, false, None, false, false, 0.0, false, false)
      ensures settings == PARTICLE_CONFIG && backgroundColor == INITIAL_BACKGROUND && selectedPalette == None
      ensures effects == []
    {
      currentImage := None;
      hasSystem := false;
      animationFrameId := None;
      isAnimating := false;
      isPlaying := false;
      lastTime := 0.0;
      isRestarting := false;
      restartPending := false;
      settings := PARTICLE_CONFIG;
      backgroundColor := INITIAL_BACKGROUND;
      selectedPalette := None;
      effects := [];
    }

    /** stopAnimation: not animating, and the pending frame, if any, cancelled. */
    method StopAnimation()
      modifies this`isAnimating, this`animationFrameId, this`effects
      ensures Flags() == old(Flags()).(isAnimating := false, animationFrameId := None)
      ensures effects == old(effects) + Cancelled(old(animationFrameId))
      ensures old(Valid()) ==> Valid()
    {
      isAnimating := false;
      if animationFrameId.Some? {
        effects := effects + [CancelFrame(animationFrameId.value)];
        animationFrameId := None;
      }
    }

    /**
     * startAnimation: acts only when not animating, not restarting and with a system; then the
     * clock restarts at 0 and the first frame is requested.
     */
    method StartAnimation(frameId: int)
      modifies this`isAnimating, this`lastTime, this`animationFrameId, this`effects
      ensures if !old(isAnimating) && !isRestarting && hasSystem then
          && Flags() == old(Flags()).(isAnimating := true, lastTime := 0.0, animationFrameId := Some(frameId))
          && effects == old(effects) + [RequestFrame(frameId)]
        else Flags() == old(Flags()) && effects == old(effects)
      ensures old(Valid()) ==> Valid()
    {
      if !isAnimating && !isRestarting && hasSystem {
        isAnimating := true;
        lastTime := 0.0;
        animationFrameId := Some(frameId);
        effects := effects + [RequestFrame(frameId)];
      }
    }

    /**
     * safeRestartAnimation, up to the scheduled completion: nothing without an image or while a
     * restart is in progress; otherwise the animation is stopped, the system disposed and
     * dropped, the canvas cleared and the completion scheduled.
     */
    method BeginRestart()
      modifies this`isRestarting, this`restartPending, this`isAnimating, this`animationFrameId
      modifies this`hasSystem, this`effects
      ensures if old(currentImage.None? || isRestarting) then
          Flags() == old(Flags()) && effects == old(effects)
        else
          && Flags() == old(Flags()).(isRestarting := true, restartPending := true, isAnimating := false,
                                      animationFrameId := None, hasSystem := false)
          && effects == old(effects) + BeginEffects(old(animationFrameId), old(hasSystem))
      ensures old(Valid()) ==> Valid()
    {
      if currentImage.None? || isRestarting {
        return;
      }
      isRestarting := true;
      StopAnimation();
      if hasSystem {
        effects := effects + [DisposeSystem];
        hasSystem := false;
      }
      effects := effects + [ClearCanvas, ScheduleRestart];
      restartPending := true;
    }

    /**
     * The deferred completion of safeRestartAnimation. `constructed` says whether the new system
     * is built, `processed` whether it then processes the current image without throwing. On
     * both, playing is switched on, the restart ends and the animation starts. When building
     * throws, the restart ends with no system; when only processImage throws, the new system
     * stays installed, the restart ends and nothing is animated.
     */
    method CompleteRestart(constructed: bool, processed: bool, frameId: int)
      requires Valid() && restartPending
      modifies this`hasSystem, this`isPlaying, this`isRestarting, this`restartPending, this`isAnimating
      modifies this`lastTime, this`animationFrameId, this`effects
      ensures Valid() && !isRestarting && !restartPending
      ensures constructed && processed ==>
        && Flags() == old(Flags()).(hasSystem := true, isPlaying := true, isRestarting := false, restartPending := false,
                                    isAnimating := true, lastTime := 0.0, animationFrameId := Some(frameId))
        && effects == old(effects)
             + [CreateSystem(settings.particleCount.value), ProcessImage(currentImage.value), RequestFrame(frameId)]
      ensures constructed && !processed ==>
        && Flags() == old(Flags()).(hasSystem := true, isRestarting := false, restartPending := false)
        && !isAnimating
        && effects == old(effects)
             + [CreateSystem(settings.particleCount.value), ProcessImage(currentImage.value), RestartFailed]
      ensures !constructed ==>
        && Flags() == old(Flags()).(isRestarting := false, restartPending := false)
        && !hasSystem && !isAnimating
        && effects == old(effects) + [RestartFailed]
    {
      restartPending := false;
      if !constructed {
        isRestarting := false;
        effects := effects + [RestartFailed];
        return;
      }
      hasSystem := true;
      effects := effects + [CreateSystem(settings.particleCount.value), ProcessImage(currentImage.value)];
      if !processed {
        isRestarting := false;
        effects := effects + [RestartFailed];
        return;
      }
      isPlaying := true;
      isRestarting := false;
      StartAnimation(frameId);
    }

    /**
     * animate: without a system or during a restart it only stops animating. Otherwise it draws
     * a frame with the time since the last one (0 on the first), and asks for the next frame
     * exactly when it is animating and playing. A frame that throws stops the animation and
     * begins a restart, and no next frame is asked for.
     */
    method Animate(currentTime: real, failed: bool, frameId: int)
      requires Valid()
      modifies this`isAnimating, this`lastTime, this`animationFrameId, this`effects
      modifies this`isRestarting, this`restartPending, this`hasSystem
      ensures Valid()
      ensures old(!hasSystem || isRestarting) ==>
        Flags() == old(Flags()).(isAnimating := false) && effects == old(effects)
      ensures old(hasSystem && !isRestarting) && !failed ==>
        var again := old(isAnimating) && isPlaying;
        && Flags() == old(Flags()).(lastTime := currentTime,
                                    animationFrameId := if again then Some(frameId) else old(animationFrameId))
        && effects == old(effects) + [DrawFrame(FrameDelta(old(lastTime), currentTime))]
                        + (if again then [RequestFrame(frameId)] else [])
      ensures old(hasSystem && !isRestarting) && failed ==>
        && Flags() == old(Flags()).(lastTime := currentTime, isAnimating := false, animationFrameId := None,
                                    isRestarting := true, restartPending := true, hasSystem := false)
        && effects == old(effects) + [FrameFailed(FrameDelta(old(lastTime), currentTime))]
                        + BeginEffects(old(animationFrameId), true)
    {
      if !hasSystem || isRestarting {
        isAnimating := false;
        return;
      }
      var deltaTime := FrameDelta(lastTime, currentTime);
      lastTime := currentTime;
      if !failed {
        effects := effects + [DrawFrame(deltaTime)];
      } else {
        effects := effects + [FrameFailed(deltaTime)];
        ghost var frame := animationFrameId;
        StopAnimation();
        BeginRestart();
        assert Cancelled(frame) + [] == Cancelled(frame);
      }
      if isAnimating && isPlaying {
        animationFrameId := Some(frameId);
        effects := effects + [RequestFrame(frameId)];
      }
    }

    /**
     * togglePlayPause: nothing during a restart; otherwise playing flips, and the animation is
     * started when it now plays and stopped when it now pauses.
     */
    method TogglePlayPause(frameId: int)
      requires Valid()
      modifies this`isPlaying, this`isAnimating, this`lastTime, this`animationFrameId, this`effects
      ensures Valid()
      ensures old(isRestarting) ==> Flags() == old(Flags()) && effects == old(effects)
      ensures !old(isRestarting) && !old(isPlaying) ==>
        if !old(isAnimating) && hasSystem then
          && Flags() == old(Flags()).(isPlaying := true, isAnimating := true, lastTime := 0.0,
                                      animationFrameId := Some(frameId))
          && effects == old(effects) + [RequestFrame(frameId)]
        else Flags() == old(Flags()).(isPlaying := true) && effects == old(effects)
      ensures !old(isRestarting) && old(isPlaying) ==>
        && Flags() == old(Flags()).(isPlaying := false, isAnimating := false, animationFrameId := None)
        && effects == old(effects) + Cancelled(old(animationFrameId))
    {
      if isRestarting {
        return;
      }
      isPlaying := !isPlaying;
      if isPlaying {
        StartAnimation(frameId);
      } else {
        StopAnimation();
      }
    }

    /**
     * updateConfig's decision: nothing during a restart; a new background colour is applied
     * and never rebuilds; any other key rebuilds exactly when it is not one of the seven keys
     * that only affect drawing and an image is loaded.
     */
    method UpdateConfig(key: string, value: string)
      requires Valid()
      modifies this`backgroundColor, this`effects, this`isRestarting, this`restartPending
      modifies this`isAnimating, this`animationFrameId, this`hasSystem
      ensures Valid()
      ensures old(isRestarting) ==>
        Flags() == old(Flags()) && effects == old(effects) && backgroundColor == old(backgroundColor)
      ensures !old(isRestarting) && key == "backgroundColor" ==>
        && Flags() == old(Flags()) && backgroundColor == value
        && effects == old(effects) + [SetBackground(value)]
      ensures !old(isRestarting) && key != "backgroundColor" ==>
        && backgroundColor == old(backgroundColor)
        && (isRestarting <==> key !in NO_RESTART_PARAMS && currentImage.Some?)
        && (isRestarting ==> effects == old(effects) + BeginEffects(old(animationFrameId), old(hasSystem)))
        && (!isRestarting ==> Flags() == old(Flags()) && effects == old(effects))
    {
      if isRestarting {
        return;
      }
      if key == "backgroundColor" {
        backgroundColor := value;
        effects := effects + [SetBackground(value)];
        return;
      }
      if key !in NO_RESTART_PARAMS && currentImage.Some? {
        BeginRestart();
      }
    }

    /**
     * randomizeInputs: nothing during a restart; otherwise a palette entry is picked for the
     * background and particle colours, the settings are randomized, the background is applied,
     * and, with an image loaded, a restart begins.
     */
    method RandomizeInputs(d: Draws)
      requires Valid() && d.Valid()
      modifies this`settings, this`backgroundColor, this`selectedPalette, this`effects
      modifies this`isRestarting, this`restartPending, this`isAnimating, this`animationFrameId, this`hasSystem
      ensures Valid()
      ensures old(isRestarting) ==>
        && Flags() == old(Flags()) && effects == old(effects)
        && settings == old(settings) && backgroundColor == old(backgroundColor)
      ensures !old(isRestarting) ==>
        var entry := PALETTE[PaletteIndex(d.palette)];
        && selectedPalette == Some(entry.0) && backgroundColor == entry.1
        && settings == Randomized(old(settings), d, entry.2)
        && (isRestarting <==> currentImage.Some?)
        && (currentImage.Some? ==>
              effects == old(effects) + [SetBackground(entry.1)] + BeginEffects(old(animationFrameId), old(hasSystem)))
        && (currentImage.None? ==> Flags() == old(Flags()) && effects == old(effects) + [SetBackground(entry.1)])
    {
      if isRestarting {
        return;
      }
      var entry := PALETTE[PaletteIndex(d.palette)];
      selectedPalette := Some(entry.0);
      backgroundColor := entry.1;
      settings := Randomized(settings, d, entry.2);
      effects := effects + [SetBackground(backgroundColor)];
      if currentImage.Some? {
        BeginRestart();
      }
    }

    /**
     * The part of handleImageUpload after the image is decoded: the animation is stopped, the
     * canvas cleared, the image made current, and a restart begun (unless one is in progress,
     * whose completion then processes this image).
     */
    method ImageLoaded(image: Image)
      requires Valid()
      modifies this`currentImage, this`isAnimating, this`animationFrameId, this`effects
      modifies this`isRestarting, this`restartPending, this`hasSystem
      ensures Valid() && currentImage == Some(image) && isRestarting
      ensures old(isRestarting) ==>
        && Flags() == old(Flags()).(currentImage := Some(image), isAnimating := false, animationFrameId := None)
        && effects == old(effects) + Cancelled(old(animationFrameId)) + [ClearCanvas]
      ensures !old(isRestarting) ==>
        && Flags() == old(Flags()).(currentImage := Some(image), isAnimating := false, animationFrameId := None,
                                    isRestarting := true, restartPending := true, hasSystem := false)
        && effects == old(effects) + Cancelled(old(animationFrameId)) + [ClearCanvas] + BeginEffects(None, old(hasSystem))
    {
      StopAnimation();
      effects := effects + [ClearCanvas];
      currentImage := Some(image);
      BeginRestart();
    }
  }
}
