/**
 * The `LED` class of led/led.py: a NeoPixel strip that exists only between `start` and
 * `close`, colours resolved from names or RGB triples, a blinking sequence, and the
 * per-emotion display. The strip is an array of pixel colours; a ghost log `shown` records
 * the colour of every `fill` + `show`, oldest first. Sleeps only time the display and are
 * not modelled.
 */
module Led {
  import opened Wrappers

  datatype Rgb = Rgb(r: int, g: int, b: int)

  /** `num_pixels`. */
  const NumPixels := 22

  const OffRgb := Rgb(0, 0, 0)
  const IdleRgb := Rgb(255, 180, 80)
  const RedRgb := Rgb(255, 0, 0)

  /** `color_codes`. */
  const ColorCodes: map<string, Rgb> := map[
    "off" := OffRgb,
    "idle" := IdleRgb,
    "happy" := Rgb(255, 255, 0),
    "sad" := Rgb(0, 0, 255),
    "angry" := RedRgb,
    "suprise" := Rgb(255, 255, 255),
    "fear" := Rgb(128, 0, 128),
    "red" := RedRgb,
    "blue" := Rgb(0, 0, 255),
    "green" := Rgb(0, 255, 0),
    "white" := Rgb(255, 255, 255),
    "yellow" := Rgb(255, 255, 0),
    "cyan" := Rgb(0, 255, 255),
    "magenta" := Rgb(255, 0, 255)
  ]

  /** A colour argument: a name, a tuple or list of components, or anything else. */
  datatype Color = Name(name: string) | Components(items: seq<int>) | Other

  datatype LedError = ValueError | TypeError | RuntimeError

  function LowerChar(c: char): char
  {
    if 'A' <= c <= 'Z' then (c as int + 32) as char else c
  }

  /** `str.lower()` on ASCII letters. */
  function Lower(s: string): (r: string)
    ensures |r| == |s| && forall i :: 0 <= i < |s| ==> r[i] == LowerChar(s[i])
  {
    seq(|s|, i requires 0 <= i < |s| => LowerChar(s[i]))
  }

  lemma LowerIdempotent(s: string)
    ensures Lower(Lower(s)) == Lower(s)
  {
  }

  /** `_resolve_color`. */
  function ResolveColor(c: Color): (r: Result<Rgb, LedError>)
    ensures r.Err? ==> r.error == (if c.Name? then ValueError else TypeError)
    ensures c.Components? && r.Ok? ==> [r.value.r, r.value.g, r.value.b] == c.items
  {
    match c
    case Name(s) => if Lower(s) in ColorCodes then Ok(ColorCodes[Lower(s)]) else Err(ValueError)
    case Components(items) => if |items| == 3 then Ok(Rgb(items[0], items[1], items[2])) else Err(TypeError)
    case Other => Err(TypeError)
  }

  /**
   * Names are looked up case-insensitively and an unknown one is a `ValueError`; a triple
   * passes through component by component; any other shape is a `TypeError`.
   */
  lemma ResolveColorCases(c: Color)
    ensures c.Name? ==> ResolveColor(c) == ResolveColor(Name(Lower(c.name)))
    ensures c.Name? ==> (ResolveColor(c).Err? <==> Lower(c.name) !in ColorCodes)
    ensures c.Name? && ResolveColor(c).Err? ==> ResolveColor(c).error == ValueError
    ensures c.Components? && |c.items| == 3 ==>
      ResolveColor(c) == Ok(Rgb(c.items[0], c.items[1], c.items[2]))
      && [ResolveColor(c).value.r, ResolveColor(c).value.g, ResolveColor(c).value.b] == c.items
    ensures (c.Components? && |c.items| != 3) || c.Other? ==> ResolveColor(c) == Err(TypeError)
  {
    if c.Name? {
      LowerIdempotent(c.name);
    }
  }

  /** The names the display uses are lower-case keys of `color_codes`, so each names its own colour. */
  lemma KnownName(n: string)
    requires n in {"off", "idle", "happy", "sad", "fear", "angry", "red"}
    ensures n in ColorCodes && ResolveColor(Name(n)) == Ok(ColorCodes[n])
  {
    if n == "off" {
      assert Lower("off") == "off";
    } else if n == "idle" {
      assert Lower("idle") == "idle";
    } else if n == "happy" {
      assert Lower("happy") == "happy";
    } else if n == "sad" {
      assert Lower("sad") == "sad";
    } else if n == "fear" {
      assert Lower("fear") == "fear";
    } else if n == "angry" {
      assert Lower("angry") == "angry";
    } else {
      assert Lower("red") == "red";
    }
  }

  /** The colours a run of `change_color` calls shows, up to the first that raises, and that error. */
  function Shows(cs: seq<Color>): (seq<Rgb>, Option<LedError>)
  {
    if cs == [] then ([], None)
    else
      var before := Shows(cs[..|cs| - 1]);
      if before.1.Some? then before
      else match ResolveColor(cs[|cs| - 1])
        case Ok(rgb) => (before.0 + [rgb], None)
        case Err(e) => (before.0, Some(e))
  }

  /** Running two batches of calls: the second runs only if the first raised nothing. */
  lemma {:induction false} ShowsAppend(a: seq<Color>, b: seq<Color>)
    ensures Shows(a).1.Some? ==> Shows(a + b) == Shows(a)
    ensures Shows(a).1.None? ==> Shows(a + b) == (Shows(a).0 + Shows(b).0, Shows(b).1)
  {
    if b != [] {
      var init := b[..|b| - 1];
      ShowsAppend(a, init);
      assert (a + b)[..|a + b| - 1] == a + init;
      assert (a + b)[|a + b| - 1] == b[|b| - 1];
      if Shows(a).1.None? && Shows(init).1.None? && ResolveColor(b[|b| - 1]).Ok? {
        var rgb := ResolveColor(b[|b| - 1]).value;
        assert Shows(a + b).0 == (Shows(a).0 + Shows(init).0) + [rgb];
        assert Shows(b).0 == Shows(init).0 + [rgb];
        assert (Shows(a).0 + Shows(init).0) + [rgb] == Shows(a).0 + (Shows(init).0 + [rgb]);
      }
    } else {
      assert a + b == a;
      assert Shows(a).0 + Shows(b).0 == Shows(a).0;
    }
  }

  /** When every colour resolves, nothing raises and each colour is shown once, in order. */
  lemma {:induction false} ShowsAllResolve(cs: seq<Color>)
    requires forall i :: 0 <= i < |cs| ==> ResolveColor(cs[i]).Ok?
    ensures Shows(cs).1 == None && |Shows(cs).0| == |cs|
    ensures forall i :: 0 <= i < |cs| ==> Shows(cs).0[i] == ResolveColor(cs[i]).value
  {
    if cs != [] {
      ShowsAllResolve(cs[..|cs| - 1]);
    }
  }

  /** A name spelling "off" in any case becomes "off"; every other colour is passed as given. */
  function BlinkCall(c: Color): Color
  {
    if c.Name? && Lower(c.name) == "off" then Name("off") else c
  }

  /** One pass of `blinking_sequence`'s inner loop: the calls it makes, in order. */
  function BlinkPass(sequence: seq<Color>): (r: seq<Color>)
    ensures |r| == |sequence| && forall i :: 0 <= i < |sequence| ==> r[i] == BlinkCall(sequence[i])
  {
    seq(|sequence|, i requires 0 <= i < |sequence| => BlinkCall(sequence[i]))
  }

  /** The `change_color` calls of `blinking_sequence`: the pass repeated `loops` times. */
  function BlinkPlan(sequence: seq<Color>, loops: int): seq<Color>
    decreases loops
  {
    if loops <= 0 then [] else BlinkPlan(sequence, loops - 1) + BlinkPass(sequence)
  }

  /** Replacing an "off" spelling with "off" changes no colour. */
  lemma BlinkPassSameColours(sequence: seq<Color>, i: nat)
    requires i < |sequence|
    ensures ResolveColor(BlinkPass(sequence)[i]) == ResolveColor(sequence[i])
  {
    if BlinkCall(sequence[i]) != sequence[i] {
      LowerIdempotent(sequence[i].name);
      KnownName("off");
    }
  }

  /** When every element of the sequence resolves, so does every call of the blink. */
  lemma {:induction false} BlinkPlanResolves(sequence: seq<Color>, loops: int)
    requires forall i :: 0 <= i < |sequence| ==> ResolveColor(sequence[i]).Ok?
    ensures forall i :: 0 <= i < |BlinkPlan(sequence, loops)| ==> ResolveColor(BlinkPlan(sequence, loops)[i]).Ok?
    decreases loops
  {
    if loops > 0 {
      BlinkPlanResolves(sequence, loops - 1);
      var prev := BlinkPlan(sequence, loops - 1);
      var plan := BlinkPlan(sequence, loops);
      forall i | 0 <= i < |plan| ensures ResolveColor(plan[i]).Ok? {
        if i < |prev| {
          assert plan[i] == prev[i];
        } else {
          BlinkPassSameColours(sequence, i - |prev|);
          assert plan[i] == BlinkPass(sequence)[i - |prev|];
        }
      }
    }
  }

  /** One more `change_color` call after calls that raised nothing. */
  lemma ShowsStep(prefix: seq<Color>, step: Color)
    requires Shows(prefix).1 == None
    ensures ResolveColor(step).Ok? ==> Shows(prefix + [step]) == (Shows(prefix).0 + [ResolveColor(step).value], None)
    ensures ResolveColor(step).Err? ==> Shows(prefix + [step]) == (Shows(prefix).0, Some(ResolveColor(step).error))
  {
    assert (prefix + [step])[..|prefix + [step]| - 1] == prefix;
  }

  /**
   * When every element of the sequence resolves, the blink raises nothing, shows one colour
   * per call, and (with at least one pass over a non-empty sequence) ends on the colour of
   * the sequence's last element.
   */
  lemma BlinkEndsOnLast(sequence: seq<Color>, loops: int)
    requires forall i :: 0 <= i < |sequence| ==> ResolveColor(sequence[i]).Ok?
    ensures Shows(BlinkPlan(sequence, loops)).1 == None
    ensures |Shows(BlinkPlan(sequence, loops)).0| == |BlinkPlan(sequence, loops)|
    ensures loops >= 1 && sequence != [] ==>
      |Shows(BlinkPlan(sequence, loops)).0| > 0
      && Shows(BlinkPlan(sequence, loops)).0[|Shows(BlinkPlan(sequence, loops)).0| - 1]
         == ResolveColor(sequence[|sequence| - 1]).value
  {
    var plan := BlinkPlan(sequence, loops);
    BlinkPlanResolves(sequence, loops);
    ShowsAllResolve(plan);
    if loops >= 1 && sequence != [] {
      var n := |sequence|;
      assert plan[|plan| - 1] == BlinkPass(sequence)[n - 1] by {
        assert plan == BlinkPlan(sequence, loops - 1) + BlinkPass(sequence);
      }
      BlinkPassSameColours(sequence, n - 1);
      assert Shows(plan).0[|plan| - 1] == ResolveColor(plan[|plan| - 1]).value;
    }
  }

  /** All pixels of the strip show `c`. */
  ghost predicate AllPixels(a: array<Rgb>, c: Rgb)
    reads a
  {
    forall i :: 0 <= i < a.Length ==> a[i] == c
  }

  class Strip {
    /** `pixels`: the NeoPixel strip, `None` (null) before `start` and after `close`. */
    var pixels: array?<Rgb>
    /** Every colour filled and shown so far, oldest first. */
    ghost var shown: seq<Rgb>

    /**
     * A present strip has `num_pixels` pixels, all displaying the last colour shown; a strip
     * is only dropped once it has been turned off.
     */
    ghost predicate Valid()
      reads this, pixels
    {
      && (pixels == null ==> shown == [] || shown[|shown| - 1] == OffRgb)
      && (pixels != null ==> pixels.Length == NumPixels && (shown != [] ==> AllPixels(pixels, shown[|shown| - 1])))
    }

    /** `__init__`: no strip yet. */
    constructor ()
      ensures Valid() && pixels == null && shown == []
    {
      pixels := null;
      shown := [];
    }

    /** `change_color`: a `RuntimeError` without a strip, the resolution's error, or every pixel set and shown. */
    method ChangeColor(c: Color) returns (r: Outcome<LedError>)
      requires Valid()
      modifies this, pixels
      ensures Valid() && pixels == old(pixels)
      ensures pixels == null ==> r == Fail(RuntimeError) && shown == old(shown)
      ensures pixels != null && ResolveColor(c).Err? ==>
        r == Fail(ResolveColor(c).error) && shown == old(shown) && unchanged(pixels)
      ensures pixels != null && ResolveColor(c).Ok? ==>
        r == Pass && shown == old(shown) + [ResolveColor(c).value]
    {
      if pixels == null {
        return Fail(RuntimeError);
      }
      var rgb := ResolveColor(c);
      if rgb.Err? {
        return Fail(rgb.error);
      }
      var strip := pixels;
      var i := 0;
      while i < strip.Length
        invariant 0 <= i <= strip.Length && pixels == strip && shown == old(shown)
        invariant forall j :: 0 <= j < i ==> strip[j] == rgb.value
      {
        strip[i] := rgb.value;
        i := i + 1;
      }
      shown := shown + [rgb.value];
      return Pass;
    }

    /** `start`: creates the strip when there is none, then turns it off. */
    method Start()
      requires Valid()
      modifies this, pixels
      ensures Valid() && pixels != null && (old(pixels) != null ==> pixels == old(pixels))
      ensures shown == old(shown) + [OffRgb] && AllPixels(pixels, OffRgb)
    {
      if pixels == null {
        pixels := new Rgb[NumPixels](_ => OffRgb);
      }
      KnownName("off");
      var r := ChangeColor(Name("off"));
    }

    /** `close`: turns a present strip off and drops it; without a strip it does nothing. */
    method Close()
      requires Valid()
      modifies this, pixels
      ensures Valid() && pixels == null
      ensures old(pixels) == null ==> shown == old(shown)
      ensures old(pixels) != null ==> shown == old(shown) + [OffRgb] && AllPixels(old(pixels), OffRgb)
    {
      if pixels != null {
        KnownName("off");
        var r := ChangeColor(Name("off"));
        pixels := null;
      }
    }

    /**
     * `blinking_sequence`: `loops` passes over the sequence, one `change_color` per element,
     * stopping at the first that raises.
     */
    method BlinkingSequence(sequence: seq<Color>, loops: int) returns (r: Outcome<LedError>)
      requires Valid()
      modifies this, pixels
      ensures Valid() && pixels == old(pixels)
      ensures pixels == null ==> r == Fail(RuntimeError) && shown == old(shown)
      ensures pixels != null ==>
        var run := Shows(BlinkPlan(sequence, loops));
        && shown == old(shown) + run.0
        && r == (if run.1.None? then Pass else Fail(run.1.value))
    {
      if pixels == null {
        return Fail(RuntimeError);
      }
      ghost var shown0 := shown;
      var l := 0;
      while l < loops
        invariant pixels == old(pixels) && Valid() && (loops <= 0 ==> l == 0) && (loops > 0 ==> l <= loops)
        invariant Shows(BlinkPlan(sequence, l)).1 == None
        invariant shown == shown0 + Shows(BlinkPlan(sequence, l)).0
      {
        ghost var done := BlinkPlan(sequence, l);
        ghost var before := shown;
        ShowsAppend(done, BlinkPass(sequence));
        assert BlinkPlan(sequence, l + 1) == done + BlinkPass(sequence);
        var out := ShowPass(sequence);
        Associative(shown0, Shows(done).0, Shows(BlinkPass(sequence)).0);
        if out.Fail? {
          BlinkStops(sequence, l, loops);
          return out;
        }
        l := l + 1;
      }
      return Pass;
    }

    /** One pass of `blinking_sequence`'s inner loop over the sequence. */
    method ShowPass(sequence: seq<Color>) returns (r: Outcome<LedError>)
      requires Valid() && pixels != null
      modifies this, pixels
      ensures Valid() && pixels == old(pixels)
      ensures var run := Shows(BlinkPass(sequence));
        && shown == old(shown) + run.0
        && r == (if run.1.None? then Pass else Fail(run.1.value))
    {
      ghost var shown0 := shown;
      ghost var calls: seq<Color> := [];
      var i := 0;
      while i < |sequence|
        invariant i <= |sequence| && pixels == old(pixels) && Valid()
        invariant calls == BlinkPass(sequence)[..i]
        invariant Shows(calls).1 == None && shown == shown0 + Shows(calls).0
      {
        var step := BlinkCall(sequence[i]);
        PassStep(sequence, i);
        ShowsStep(calls, step);
        var out := ChangeColor(step);
        if out.Fail? {
          PassStops(sequence, i + 1);
          return out;
        }
        Associative(shown0, Shows(calls).0, [ResolveColor(step).value]);
        calls := calls + [step];
        i := i + 1;
      }
      PassStops(sequence, |sequence|);
      return Pass;
    }

    /**
     * `show_emotion`: the lower-cased name picks a display; "suprise" raises `TypeError`
     * before anything is shown, and an unknown name shows the idle colour.
     */
    method ShowEmotion(emotion: string) returns (r: Outcome<LedError>)
      requires Valid()
      modifies this, pixels
      ensures Valid() && pixels == old(pixels)
      ensures Lower(emotion) == "suprise" ==> r == Fail(TypeError) && shown == old(shown)
      ensures Lower(emotion) != "suprise" && pixels == null ==> r == Fail(RuntimeError) && shown == old(shown)
      ensures Lower(emotion) != "suprise" && pixels != null ==>
        && r == Pass
        && shown == old(shown) + Shows(EmotionDisplay(Lower(emotion))).0
        && AllPixels(pixels, EmotionColour(Lower(emotion)))
    {
      var e := Lower(emotion);
      if e == "suprise" {
        return Fail(TypeError);
      }
      if pixels == null {
        return Fail(RuntimeError);
      }
      ShowDisplay(e);
      return Pass;
    }

    /** The display a name other than "suprise" picks, on a strip that is started. */
    method ShowDisplay(e: string)
      requires Valid() && pixels != null && e != "suprise"
      modifies this, pixels
      ensures Valid() && pixels == old(pixels)
      ensures shown == old(shown) + Shows(EmotionDisplay(e)).0
      ensures AllPixels(pixels, EmotionColour(e))
    {
      EmotionDisplayEnds(e);
      if e == "angry" {
        ShowAngry();
      } else {
        ShowSimple(e);
      }
    }

    /** Every name but angry shows one colour: its own when it has one, idle otherwise. */
    method ShowSimple(e: string)
      requires Valid() && pixels != null && e != "angry"
      modifies this, pixels
      ensures Valid() && pixels == old(pixels)
      ensures shown == old(shown) + Shows(EmotionDisplay(e)).0
    {
      var name := if e in {"idle", "happy", "sad", "fear"} then e else "idle";
      KnownName(name);
      assert EmotionDisplay(e) == [Name(name)];
      assert [Name(name)][..0] == [];
      var out := ChangeColor(Name(name));
    }

    /** `default`: the idle colour. */
    method Default() returns (r: Outcome<LedError>)
      requires Valid()
      modifies this, pixels
      ensures Valid() && pixels == old(pixels)
      ensures pixels == null ==> r == Fail(RuntimeError) && shown == old(shown)
      ensures pixels != null ==> r == Pass && shown == old(shown) + [IdleRgb] && AllPixels(pixels, IdleRgb)
    {
      KnownName("idle");
      r := ChangeColor(Name("idle"));
    }

    /** `show_emotion`'s angry branch: red, six blinks between angry and off, then angry. */
    method ShowAngry()
      requires Valid() && pixels != null
      modifies this, pixels
      ensures Valid() && pixels == old(pixels)
      ensures shown == old(shown) + Shows(EmotionDisplay("angry")).0
    {
      ghost var before := shown;
      ghost var blink := Shows(BlinkPlan(AngryBlink, AngryBlinks)).0;
      KnownName("red");
      KnownName("angry");
      var out := ChangeColor(Name("red"));
      out := BlinkingSequence(AngryBlink, AngryBlinks);
      assert shown == (before + [RedRgb]) + blink;
      out := ChangeColor(Name("angry"));
      assert shown == ((before + [RedRgb]) + blink) + [RedRgb];
      AngryDisplay();
      Associative(before, [RedRgb], blink);
      Associative(before, [RedRgb] + blink, [RedRgb]);
    }
  }

  lemma Associative(a: seq<Rgb>, b: seq<Rgb>, c: seq<Rgb>)
    ensures (a + b) + c == a + (b + c)
  {
  }

  /** The angry display blinks between angry and off, six times. */
  const AngryBlink: seq<Color> := [Name("angry"), Name("off")]
  const AngryBlinks: int := 6

  /** The names `show_emotion` passes to `change_color`, in order, for a lower-cased emotion. */
  function EmotionDisplay(e: string): seq<Color>
  {
    if e == "angry" then [Name("red")] + BlinkPlan(AngryBlink, AngryBlinks) + [Name("angry")]
    else if e in {"idle", "happy", "sad", "fear"} then [Name(e)]
    else [Name("idle")]
  }

  /** The colour `show_emotion` leaves on the strip. */
  function EmotionColour(e: string): Rgb
  {
    if e == "angry" then RedRgb
    else if e in {"idle", "happy", "sad", "fear"} then ColorCodes[e]
    else IdleRgb
  }

  /**
   * Idle, happy, sad and fear show their own colour once; angry shows red, blinks six times
   * between red and off, and ends on red; any other name shows idle. Nothing raises, and the
   * last colour shown is the one the strip is left with.
   */
  lemma EmotionDisplayEnds(e: string)
    requires e != "suprise"
    ensures Shows(EmotionDisplay(e)).1 == None && Shows(EmotionDisplay(e)).0 != []
    ensures Shows(EmotionDisplay(e)).0[|Shows(EmotionDisplay(e)).0| - 1] == EmotionColour(e)
    ensures e == "angry" ==> EmotionColour(e) == Rgb(255, 0, 0)
    ensures e !in {"idle", "happy", "sad", "fear", "angry"} ==> EmotionColour(e) == Rgb(255, 180, 80)
  {
    if e == "angry" {
      AngryDisplay();
    } else {
      var name := if e in {"idle", "happy", "sad", "fear"} then e else "idle";
      KnownName(name);
      assert EmotionDisplay(e) == [Name(name)];
      assert [Name(name)][..0] == [];
    }
  }

  /** The angry display, call by call: red, the twelve blink colours, then angry red. */
  lemma AngryDisplay()
    ensures Shows(EmotionDisplay("angry")).1 == None
    ensures Shows(EmotionDisplay("angry")).0
         == [RedRgb] + Shows(BlinkPlan(AngryBlink, AngryBlinks)).0 + [RedRgb]
  {
    KnownName("red");
    KnownName("angry");
    KnownName("off");
    BlinkEndsOnLast(AngryBlink, AngryBlinks);
    FramedBlink(Name("red"), BlinkPlan(AngryBlink, AngryBlinks), Name("angry"));
  }

  /** Calls that raise nothing, between two more that raise nothing. */
  lemma FramedBlink(first: Color, middle: seq<Color>, last: Color)
    requires ResolveColor(first).Ok? && ResolveColor(last).Ok? && Shows(middle).1 == None
    ensures Shows([first] + middle + [last])
         == ([ResolveColor(first).value] + Shows(middle).0 + [ResolveColor(last).value], None)
  {
    ShowsOne(first);
    ShowsAppend([first], middle);
    ShowsStep([first] + middle, last);
  }

  /** A single call that raises nothing shows its colour. */
  lemma ShowsOne(c: Color)
    requires ResolveColor(c).Ok?
    ensures Shows([c]) == ([ResolveColor(c).value], None)
  {
    assert [c][..0] == [];
    assert Shows([]) == ([], None);
    assert [] + [ResolveColor(c).value] == [ResolveColor(c).value];
  }

  /** The calls of a pass up to element `i`, one at a time. */
  lemma PassStep(sequence: seq<Color>, i: nat)
    requires i < |sequence|
    ensures BlinkPass(sequence)[..i + 1] == BlinkPass(sequence)[..i] + [BlinkPass(sequence)[i]]
  {
  }

  /** A pass whose first `i` calls raised stops there; after all of them, the pass is done. */
  lemma PassStops(sequence: seq<Color>, i: nat)
    requires i <= |sequence|
    ensures Shows(BlinkPass(sequence)[..i]).1.Some? ==> Shows(BlinkPass(sequence)) == Shows(BlinkPass(sequence)[..i])
    ensures i == |sequence| ==> BlinkPass(sequence)[..i] == BlinkPass(sequence)
  {
    var pass := BlinkPass(sequence);
    assert pass == pass[..i] + pass[i..];
    ShowsAppend(pass[..i], pass[i..]);
  }

  /** Once a pass of the blink raises, the passes after it add nothing. */
  lemma BlinkStops(sequence: seq<Color>, l: int, loops: int)
    requires 0 <= l < loops
    requires Shows(BlinkPlan(sequence, l + 1)).1.Some?
    ensures Shows(BlinkPlan(sequence, loops)) == Shows(BlinkPlan(sequence, l + 1))
  {
    PlanSplit(sequence, l, loops);
    assert BlinkPlan(sequence, l + 1) == BlinkPlan(sequence, l) + BlinkPass(sequence);
    ShowsAppend(BlinkPlan(sequence, l + 1), BlinkPlanFrom(sequence, l + 1, loops));
  }

  /** The passes `from .. loops - 1`. */
  function BlinkPlanFrom(sequence: seq<Color>, from: int, loops: int): seq<Color>
    decreases loops - from
  {
    if from >= loops then [] else BlinkPass(sequence) + BlinkPlanFrom(sequence, from + 1, loops)
  }

  lemma {:induction false} PlanSplit(sequence: seq<Color>, l: int, loops: int)
    requires 0 <= l < loops
    ensures BlinkPlan(sequence, loops) == BlinkPlan(sequence, l) + BlinkPass(sequence) + BlinkPlanFrom(sequence, l + 1, loops)
    decreases loops - l
  {
    if l + 1 < loops {
      PlanSplit(sequence, l + 1, loops);
      assert BlinkPlanFrom(sequence, l + 1, loops) == BlinkPass(sequence) + BlinkPlanFrom(sequence, l + 2, loops);
    }
  }
}
