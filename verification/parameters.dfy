/** Validation and derived constants of the three parameter records of femto:
    the G-code (compiler) parameters, the waveguide parameters and the trench
    parameters. Arithmetic is exact over `real`. */
module Parameters {
  import opened Wrappers
  import opened Ascii

  /** The exceptions the constructors can raise. */
  datatype ParamError =
    | WrongSampleSize(x: Option<real>, y: Option<real>)  // ValueError: warp needs both sizes
    | UnknownLab(lab: string)                            // ValueError: lab not recognised
    | ScanNotInteger                                     // ValueError: scan is not an int
    | ZeroDivision                                       // ZeroDivisionError of a float division

  /** The warp-compensation surface: focus offset as a function of (x, y). */
  type WarpFunction = (real, real) -> real

  /** `x ** 2`. */
  function Square(x: real): real {
    x * x
  }

  /** A numeric argument as Python sees it: an `int` or a `float`. */
  datatype Number = Int(i: int) | Float(f: real)

  /** The labs the compiler knows, in upper case. */
  const Labs: seq<string> := ["CAPABLE", "DIAMOND", "FIRE"]

  /** Shutter settling time of a lab without a settling delay, in seconds. */
  const NoSettling: real := 0.0
  /** Shutter settling time of every other lab, in seconds. */
  const Settling: real := 0.005

  /** `lab` names one of the known labs, in any letter case. */
  predicate KnownLab(lab: string) {
    || SameIgnoringCase(lab, "CAPABLE")
    || SameIgnoringCase(lab, "DIAMOND")
    || SameIgnoringCase(lab, "FIRE")
  }

  lemma LabsAreUpperWords()
    ensures forall k :: 0 <= k < |Labs| ==> IsUpperWord(Labs[k])
  {
  }

  /** `set_tshutter`: the shutter settling time of a lab. CAPABLE, in any
      letter case, needs none; DIAMOND and FIRE need 5 ms; any other name is
      rejected. */
  function TShutter(lab: string): (r: Result<real, ParamError>)
    ensures SameIgnoringCase(lab, "CAPABLE") <==> r == Success(NoSettling)
    ensures (SameIgnoringCase(lab, "DIAMOND") || SameIgnoringCase(lab, "FIRE")) <==> r == Success(Settling)
    ensures !KnownLab(lab) <==> r == Failure(UnknownLab(lab))
  {
    LabsAreUpperWords();
    UpperMatches(lab, "CAPABLE");
    UpperMatches(lab, "DIAMOND");
    UpperMatches(lab, "FIRE");
    var up := Upper(lab);
    if up !in Labs then Failure(UnknownLab(lab))
    else if up == "CAPABLE" then Success(NoSettling)
    else Success(Settling)
  }

  /** The compensation used when warp compensation is off. */
  function ZeroWarp(): (f: WarpFunction)
    ensures forall x, y :: f(x, y) == 0.0
  {
    (x: real, y: real) => 0.0
  }

  /** The non-interactive part of `antiwarp_management`. With the flag off the
      compensation is zero everywhere. With it on, both sample-size components
      must be given; the surface itself comes from a file or from an operator
      dialogue, so it is the parameter `fitted` here. */
  function AntiwarpManagement(warpFlag: bool, samplesize: (Option<real>, Option<real>), fitted: WarpFunction)
    : (r: Result<WarpFunction, ParamError>)
    ensures !warpFlag ==> r.Success? && forall x, y :: r.value(x, y) == 0.0
    ensures warpFlag ==> (r.Success? <==> samplesize.0.Some? && samplesize.1.Some?)
    ensures warpFlag && r.Success? ==> forall x, y :: r.value(x, y) == fitted(x, y)
    ensures r.Failure? ==> r.error == WrongSampleSize(samplesize.0, samplesize.1)
  {
    if warpFlag then
      if samplesize.0.None? || samplesize.1.None? then Failure(WrongSampleSize(samplesize.0, samplesize.1))
      else Success(fitted)
    else Success(ZeroWarp())
  }

  /** The arguments of `GcodeParameters`. */
  datatype GcodeArgs = GcodeArgs(
    filename: Option<string>,
    samplesize: (Option<real>, Option<real>),
    lab: string,
    warpFlag: bool,
    nGlass: real,
    nEnvironment: real,
    angle: real,
    longPause: real,
    shortPause: real,
    outputDigits: int)

  /** The defaults of the `GcodeParameters` constructor. */
  function DefaultGcodeArgs(): GcodeArgs {
    GcodeArgs(None, (None, None), "CAPABLE", false, 1.50, 1.33, 0.0, 0.5, 0.25, 6)
  }

  /** A constructed `GcodeParameters` object. */
  datatype GcodeParameters = GcodeParameters(
    filename: Option<string>,
    samplesize: (Option<real>, Option<real>),
    lab: string,
    warpFlag: bool,
    fwarp: WarpFunction,
    tshutter: real,
    longPause: real,
    shortPause: real,
    outputDigits: int,
    nglass: real,
    nenv: real,
    angle: real,
    neff: real,
    xsample: Option<real>,
    ysample: Option<real>)

  /** The constructor arguments that `GcodeParameters` keeps as given. */
  predicate StoresArgs(a: GcodeArgs, g: GcodeParameters) {
    && g.filename == a.filename
    && g.samplesize == a.samplesize
    && g.lab == a.lab
    && g.warpFlag == a.warpFlag
    && g.longPause == a.longPause
    && g.shortPause == a.shortPause
    && g.outputDigits == a.outputDigits
    && g.nglass == a.nGlass
    && g.nenv == a.nEnvironment
    && g.angle == a.angle
  }

  /** `GcodeParameters.__init__`. The compensation is settled first, then the
      lab, then the effective index `neff = nglass / nenv`; the first failure
      is the one reported. */
  function NewGcodeParameters(a: GcodeArgs, fitted: WarpFunction): (r: Result<GcodeParameters, ParamError>)
    ensures r.Success? <==> (a.warpFlag ==> a.samplesize.0.Some? && a.samplesize.1.Some?) && KnownLab(a.lab) && a.nEnvironment != 0.0
    ensures a.warpFlag && (a.samplesize.0.None? || a.samplesize.1.None?) ==>
              r.Failure? && r.error == WrongSampleSize(a.samplesize.0, a.samplesize.1)
    ensures (a.warpFlag ==> a.samplesize.0.Some? && a.samplesize.1.Some?) && !KnownLab(a.lab) ==>
              r.Failure? && r.error == UnknownLab(a.lab)
    ensures (a.warpFlag ==> a.samplesize.0.Some? && a.samplesize.1.Some?) && KnownLab(a.lab)
            && a.nEnvironment == 0.0 ==>
              r.Failure? && r.error == ZeroDivision
    ensures r.Success? ==>
              && StoresArgs(a, r.value)
              && (SameIgnoringCase(a.lab, "CAPABLE") ==> r.value.tshutter == NoSettling)
              && (!SameIgnoringCase(a.lab, "CAPABLE") ==> r.value.tshutter == Settling)
              && r.value.neff * a.nEnvironment == a.nGlass
              && r.value.xsample == a.samplesize.0
              && r.value.ysample == a.samplesize.1
              && (!a.warpFlag ==> forall x, y :: r.value.fwarp(x, y) == 0.0)
              && (a.warpFlag ==> forall x, y :: r.value.fwarp(x, y) == fitted(x, y))
  {
    var fwarp :- AntiwarpManagement(a.warpFlag, a.samplesize, fitted);
    var tshutter :- TShutter(a.lab);
    if a.nEnvironment == 0.0 then Failure(ZeroDivision)
    else
      Success(GcodeParameters(
        a.filename, a.samplesize, a.lab, a.warpFlag, fwarp, tshutter,
        a.longPause, a.shortPause, a.outputDigits,
        a.nGlass, a.nEnvironment, a.angle,
        a.nGlass / a.nEnvironment, a.samplesize.0, a.samplesize.1))
  }

  /** With every default, construction succeeds with no shutter delay, no warp
      and the default refractive indices. */
  lemma DefaultGcodeParameters(fitted: WarpFunction)
    ensures var r := NewGcodeParameters(DefaultGcodeArgs(), fitted);
            && r.Success?
            && r.value.tshutter == NoSettling
            && r.value.neff == 1.50 / 1.33
            && (forall x, y :: r.value.fwarp(x, y) == 0.0)
  {
  }

  /** The arguments of `WaveguideParameters`. */
  datatype WaveguideArgs = WaveguideArgs(
    scan: Number,
    speed: real,
    depth: real,
    radius: real,
    speedpos: real,
    dwelltime: real,
    dsafe: real,
    margin: real,
    cmdRateMax: real,
    accMax: real)

  /** `WaveguideParameters(scan, speed)` with every other argument defaulted. */
  function DefaultWaveguideArgs(scan: Number, speed: real): WaveguideArgs {
    WaveguideArgs(scan, speed, 0.035, 15.0, 40.0, 0.5, 0.015, 1.0, 1200.0, 500.0)
  }

  /** A constructed `WaveguideParameters` object. */
  datatype WaveguideParameters = WaveguideParameters(
    scan: int,
    speed: real,
    depth: real,
    radius: real,
    speedpos: real,
    dwelltime: real,
    cmdRateMax: real,
    accMax: real,
    dsafe: real,
    margin: real,
    lvelo: real,   // length needed to reach the writing speed [mm]
    dl: real,      // minimum separation between two points [mm]
    lwarp: real)   // separation of the warp-compensation points [mm]

  /** The constructor arguments that `WaveguideParameters` keeps as given. */
  predicate StoresWaveguideArgs(a: WaveguideArgs, w: WaveguideParameters) {
    && a.scan.Int? && w.scan == a.scan.i
    && w.speed == a.speed
    && w.depth == a.depth
    && w.radius == a.radius
    && w.speedpos == a.speedpos
    && w.dwelltime == a.dwelltime
    && w.cmdRateMax == a.cmdRateMax
    && w.accMax == a.accMax
    && w.dsafe == a.dsafe
    && w.margin == a.margin
  }

  /** `WaveguideParameters.__init__`: a non-integer scan count is rejected;
      `lvelo` divides by the acceleration limit and `dl` by the command-rate
      limit, in that order. */
  function NewWaveguideParameters(a: WaveguideArgs): (r: Result<WaveguideParameters, ParamError>)
    ensures r.Success? <==> a.scan.Int? && a.accMax != 0.0 && a.cmdRateMax != 0.0
    ensures a.scan.Float? ==> r == Failure(ScanNotInteger)
    ensures a.scan.Int? && (a.accMax == 0.0 || a.cmdRateMax == 0.0) ==> r == Failure(ZeroDivision)
    ensures r.Success? ==>
              // one command per dl at the maximum rate covers the writing speed
              && r.value.dl * a.cmdRateMax == a.speed
              && r.value.lwarp == 10.0 * r.value.dl
              // three times the distance needed to reach `speed` from rest at `accMax`
              && r.value.lvelo * (2.0 * a.accMax) == 3.0 * Square(a.speed)
              && StoresWaveguideArgs(a, r.value)
  {
    if a.scan.Float? then Failure(ScanNotInteger)
    else if a.accMax == 0.0 then Failure(ZeroDivision)
    else
      var lvelo := 3.0 * (0.5 * Square(a.speed) / a.accMax);
      if a.cmdRateMax == 0.0 then Failure(ZeroDivision)
      else
        var dl := a.speed / a.cmdRateMax;
        Success(WaveguideParameters(
          a.scan.i, a.speed, a.depth, a.radius, a.speedpos, a.dwelltime,
          a.cmdRateMax, a.accMax, a.dsafe, a.margin,
          lvelo, dl, 10.0 * dl))
  }

  /** With positive speed and positive tool limits the derived lengths are
      positive and the warp spacing is coarser than the point spacing. */
  lemma WaveguideLengthsPositive(a: WaveguideArgs)
    requires a.scan.Int? && a.speed > 0.0 && a.accMax > 0.0 && a.cmdRateMax > 0.0
    ensures var r := NewWaveguideParameters(a);
            r.Success? && 0.0 < r.value.dl < r.value.lwarp && 0.0 < r.value.lvelo
  {
    SquarePositive(a.speed);
    PositiveQuotient(0.5 * Square(a.speed), a.accMax);
    PositiveQuotient(a.speed, a.cmdRateMax);
  }

  lemma PositiveProduct(x: real, y: real)
    requires x > 0.0 && y > 0.0
    ensures x * y > 0.0
  {
  }

  lemma SquarePositive(x: real)
    requires x > 0.0
    ensures Square(x) > 0.0
  {
    calc {
      Square(x);
      x * x;
    >  { PositiveProduct(x, x); }
      0.0;
    }
  }

  lemma PositiveQuotient(x: real, y: real)
    requires x > 0.0 && y > 0.0
    ensures x / y > 0.0
  {
  }

  /** `WaveguideParameters(scan, speed)` with an integer scan and the default
      limits (1200 commands/s, 500 mm/s^2): dl is speed/1200, lwarp is
      speed/120 and lvelo is 3 speed^2/1000. */
  lemma DefaultWaveguideParameters(scan: int, speed: real)
    ensures var r := NewWaveguideParameters(DefaultWaveguideArgs(Int(scan), speed));
            && r.Success?
            && r.value.dl == speed / 1200.0
            && r.value.lwarp == speed / 120.0
            && r.value.lvelo == 3.0 * Square(speed) / 1000.0
  {
  }

  /** The ceiling of a real number, as Python's `math.ceil`. */
  function Ceil(x: real): (n: int)
    ensures (n - 1) as real < x <= n as real
  {
    -((-x).Floor)
  }

  /** The arguments of `TrenchParameters`. */
  datatype TrenchArgs = TrenchArgs(
    xCenter: Option<real>,
    yMin: Option<real>,
    yMax: Option<real>,
    bridge: real,
    length: real,
    nboxz: int,
    zOff: real,
    hBox: real,
    deltaz: real,
    deltaFloor: real,
    beamWaist: real,
    roundCorner: real,
    speed: real,
    speedpos: real)

  /** The defaults of the `TrenchParameters` constructor. */
  function DefaultTrenchArgs(): TrenchArgs {
    TrenchArgs(None, None, None, 0.026, 1.0, 4, 0.020, 0.075, 0.0015, 0.001, 0.004, 0.005, 4.0, 5.0)
  }

  /** A constructed `TrenchParameters` object. */
  datatype TrenchParameters = TrenchParameters(
    xCenter: Option<real>,
    yMin: Option<real>,
    yMax: Option<real>,
    bridge: real,
    length: real,
    nboxz: int,
    zOff: real,
    hBox: real,
    deltaz: real,
    deltaFloor: real,
    beamWaist: real,
    roundCorner: real,
    speed: real,
    speedpos: real,
    adjBridge: real,   // half bridge widened by the beam waist and the corner radius
    nRepeat: int)      // number of z-layers of height deltaz covering box and offset

  /** The constructor arguments that `TrenchParameters` keeps as given. */
  predicate StoresTrenchArgs(a: TrenchArgs, t: TrenchParameters) {
    && t.xCenter == a.xCenter
    && t.yMin == a.yMin
    && t.yMax == a.yMax
    && t.bridge == a.bridge
    && t.length == a.length
    && t.nboxz == a.nboxz
    && t.zOff == a.zOff
    && t.hBox == a.hBox
    && t.deltaz == a.deltaz
    && t.deltaFloor == a.deltaFloor
    && t.beamWaist == a.beamWaist
    && t.roundCorner == a.roundCorner
    && t.speed == a.speed
    && t.speedpos == a.speedpos
  }

  /** `TrenchParameters.__init__`: `n_repeat` is the ceiling of
      `(h_box + z_off) / deltaz`, so a zero `deltaz` is a division by zero. */
  function NewTrenchParameters(a: TrenchArgs): (r: Result<TrenchParameters, ParamError>)
    ensures r.Success? <==> a.deltaz != 0.0
    ensures r.Failure? ==> r.error == ZeroDivision
    ensures r.Success? ==>
              && r.value.adjBridge - a.beamWaist - a.roundCorner == a.bridge / 2.0
              && (r.value.nRepeat - 1) as real < (a.hBox + a.zOff) / a.deltaz <= r.value.nRepeat as real
              && (a.deltaz > 0.0 ==>
                    (r.value.nRepeat - 1) as real * a.deltaz < a.hBox + a.zOff <= r.value.nRepeat as real * a.deltaz)
              && StoresTrenchArgs(a, r.value)
  {
    if a.deltaz == 0.0 then Failure(ZeroDivision)
    else
      var n := Ceil((a.hBox + a.zOff) / a.deltaz);
      Success(TrenchParameters(
        a.xCenter, a.yMin, a.yMax, a.bridge, a.length, a.nboxz, a.zOff, a.hBox,
        a.deltaz, a.deltaFloor, a.beamWaist, a.roundCorner, a.speed, a.speedpos,
        a.bridge / 2.0 + a.beamWaist + a.roundCorner, n))
  }

  /** For a positive layer step, `n_repeat` is the least number of layers
      whose total height reaches `h_box + z_off`. */
  lemma TrenchLayersLeast(a: TrenchArgs, k: int)
    requires a.deltaz > 0.0
    requires k as real * a.deltaz >= a.hBox + a.zOff
    ensures NewTrenchParameters(a).Success?
    ensures NewTrenchParameters(a).value.nRepeat <= k
  {
    var h, d := a.hBox + a.zOff, a.deltaz;
    var n := NewTrenchParameters(a).value.nRepeat;
    assert (n - 1) as real < h / d;
    assert h / d <= k as real by {
      assert h / d * d == h <= k as real * d;
    }
  }

  /** With the default trench arguments, the 0.095 mm of box and offset take
      64 layers of 1.5 um, and the adjusted bridge is 22 um. */
  lemma DefaultTrenchParameters()
    ensures var r := NewTrenchParameters(DefaultTrenchArgs());
            && r.Success?
            && r.value.nRepeat == 64
            && r.value.adjBridge == 0.022
  {
  }
}
