# femto front end: parameters and the Cell composition root, in Dafny

femto compiles laser-written photonic structures (waveguides, markers,
trenches) into numeric-control programs. This project models two small,
self-contained parts of its front end and proves properties of them:

- **Parameter records** (`femto/Parameters.py`). `GcodeParameters` checks the
  lab name (case-insensitive) and sets the shutter settling time `tshutter`.
  It also settles the warp compensation `fwarp` and derives `neff`, `xsample`
  and `ysample`. `WaveguideParameters` rejects a non-integer scan count and
  derives the point spacing `dl`, the ramp length `lvelo` and the warp spacing
  `lwarp`. `TrenchParameters` derives `adj_bridge` and the layer count
  `n_repeat`, a ceiling.
- **The Cell** (`femto/Cell.py`). `Cell.add` dispatches on the type of the
  value into four collections: waveguides, markers, trenches and trench
  columns. A trench column is flattened into the trench list before the column
  itself is recorded. `Cell._shutter_mask` keeps `x` and blanks `y` and `z`
  with NaN wherever a point's shutter flag differs from the requested state.

Modelling choices:

- Arithmetic is exact over `real`. NaN is `None`.
- Exceptions are the `Failure` side of a `Result`. Python's
  `ZeroDivisionError` on a float division by zero is modelled too.
- `Cell.add` appends in place. So when it raises `TypeError` inside a column,
  the elements added before the failure stay. `AddOutcome` therefore carries
  the cell state after the call in both of its cases.
- The geometry classes (`Waveguide`, `Marker`, `Trench`, `TrenchColumn`) are
  opaque payloads. A column is the sequence of values its iteration yields.
  `add` recurses into each of them with `self.add`, so a column element may be
  any value.
- A list matches none of the `isinstance` tests, so `add` raises `TypeError`;
  the model treats a list as an `OtherObj`.

Files: `wrappers.dfy` (`Option`, `Result`), `ascii.dfy` (upper-casing and
case-insensitive comparison), `parameters.dfy` (module `Parameters`),
`cell.dfy` (module `Cells`).

## Model

| member | source | states |
|---|---|---|
| Ascii.UpperMatches | femto/Parameters.py:44-47 | upper-casing a name and comparing it with an upper-case lab name holds exactly when the name spells that lab letter by letter in either case (both directions) |
| Ascii.Upper | femto/Parameters.py:44-47 | `str.upper` on ASCII: same length, no lower-case letter left, each character kept or replaced by its upper-case partner |
| Ascii.UpperIdempotent | femto/Parameters.py:44-47 | upper-casing an upper-cased name changes nothing |
| Parameters.TShutter | femto/Parameters.py:43-50 | CAPABLE in any letter case gives 0.0 s; DIAMOND or FIRE in any letter case gives 0.005 s; every other name fails with UnknownLab carrying the given name (each an if-and-only-if) |
| Parameters.ZeroWarp | femto/Parameters.py:79-80 | the disabled compensation is 0 at every (x, y) |
| Parameters.AntiwarpManagement | femto/Parameters.py:52-81 | flag off: succeeds with the zero function; flag on: succeeds iff both sample-size components are given, and then returns the fitted surface; a failure reports the given sizes |
| Parameters.NewGcodeParameters | femto/Parameters.py:13-41 | construction succeeds iff the sample size suits the warp flag, the lab is known and n_environment is non-zero; a missing size with warp on is reported even when the lab is also bad; with size and lab valid, a zero n_environment is a division failure; filename, sample size, lab, warp flag, pauses, output digits, indices and angle are stored as given; tshutter follows the lab; neff times nenv is nglass; xsample/ysample are the sample size; fwarp is zero when warp is off and the fitted surface when on |
| Parameters.DefaultGcodeParameters | femto/Parameters.py:13-23 | with every default argument, construction succeeds with tshutter 0, neff 1.50/1.33 and zero warp |
| Parameters.NewWaveguideParameters | femto/Parameters.py:128-165 | a float scan fails with ScanNotInteger; zero acceleration or zero command-rate limits are division failures; otherwise scan, speed, depth, radius, speedpos, dwelltime, cmd_rate_max, acc_max, dsafe and margin are stored as given, dl times cmd_rate_max is the speed, lwarp is ten dl, and lvelo times twice acc_max is three speed squared |
| Parameters.DefaultWaveguideParameters | femto/Parameters.py:128-165 | with an integer scan and the default limits, dl is speed/1200, lwarp speed/120 and lvelo 3 speed²/1000 |
| Parameters.WaveguideLengthsPositive | femto/Parameters.py:157-165 | with positive speed and limits, dl, lwarp and lvelo are positive and lwarp exceeds dl |
| Parameters.Ceil | femto/Parameters.py:202 | `math.ceil`: the result n satisfies n - 1 < x <= n |
| Parameters.NewTrenchParameters | femto/Parameters.py:170-202 | succeeds iff deltaz is non-zero; x_center, y_min, y_max, bridge, length, nboxz, z_off, h_box, deltaz, delta_floor, beam_waist, round_corner, speed and speedpos are stored as given; adj_bridge is half the bridge widened by beam waist and round corner; n_repeat is the ceiling of (h_box + z_off) / deltaz, so for positive deltaz n_repeat layers reach h_box + z_off and one layer fewer does not |
| Parameters.TrenchLayersLeast | femto/Parameters.py:202 | for positive deltaz, any layer count whose height reaches h_box + z_off is at least n_repeat |
| Parameters.DefaultTrenchParameters | femto/Parameters.py:170-202 | with the default trench arguments, n_repeat is 64 and adj_bridge is 0.022 |
| Cells.NewCell | femto/Cell.py:9-15 | a new cell has the given dimensions, `(None, None)` by default, and four empty collections |
| Cells.Add | femto/Cell.py:17-29 | the collections only grow (old contents are a prefix), even on error; add succeeds iff the value is insertable; a marker, waveguide or trench is appended to its own collection and the other three are unchanged; any other value raises TypeError naming its type and changes nothing |
| Cells.AddEach | femto/Cell.py:24-26 | adding a column's elements in turn only grows the collections, and succeeds iff every element is insertable |
| Cells.AddMatchesEvents | femto/Cell.py:17-27 | adding an insertable value equals appending each of its single insertions (elements before their column, in order) to its own collection, against an independent reference definition |
| Cells.AddEachMatchesEvents | femto/Cell.py:24-26 | the same reference equality for the loop over a column's elements |
| Cells.AddEachTrenches | femto/Cell.py:24-26 | adding a sequence of trenches appends their handles to `trenches` in order and changes nothing else |
| Cells.AddTrenchColumn | femto/Cell.py:24-27 | adding a column of trenches appends its trenches in column order, then records the column; waveguides and markers are unchanged |
| Cells.MarkerThenNumberColumn | femto/Cell.py:17-29 | an instance of `AddRejected`: a column holding a marker and then an `int` leaves the marker appended, records no column, and raises TypeError naming `int` |
| Cells.AddRejected | femto/Cell.py:17-29 | adding any rejected value, at any depth of column nesting, raises TypeError naming the first non-geometry value reached, after appending exactly the insertions completed before it; no column on the way is recorded (against the reference `Before`/`Rejected`; with `AddMatchesEvents` this fixes `add` on every value) |
| Cells.AddEachRejectedAny | femto/Cell.py:24-26 | the loop over a column with some rejected element stops with TypeError at the first one, after the insertions of the earlier elements and of the part of that element added before it failed |
| Cells.NestedColumnRejected | femto/Cell.py:17-29 | a column holding a trench and then an inner column of a trench and a non-geometry value leaves both trenches appended, records neither column, and names the inner value's type |
| Cells.Where | femto/Cell.py:126-131 | `np.where(s == state, coord, nan)`: same length as the points; row i holds the coordinate iff the row's flag equals the state, NaN otherwise |
| Cells.ShutterMask | femto/Cell.py:119-132 | the state defaults to open (1); fails with InvalidShutter iff the state is not 0 or 1; otherwise returns three columns of the input's length, x unchanged, feed dropped, and y/z kept at a row iff its flag equals the state, NaN otherwise |
| Cells.MaskComplement | femto/Cell.py:124-131 | with binary flags, each row's y and z are drawn by exactly one of the open and closed masks |
| Cells.WhereDrawsKept | femto/Cell.py:126-131 | the defined entries of a `where` column are the coordinates of the rows in that state, in order |
| Cells.MaskDrawsKeptRows | femto/Cell.py:123-132 | what a mask draws in y and z is exactly the y and z trace of the rows in the requested state, in their original order |
| Cells.KeptPartition | femto/Cell.py:124-131 | with binary flags, the rows kept by the closed mask and by the open mask together number all the rows |

## Left out

- `plot2d` and `plot3d`: matplotlib rendering. This includes the `aspect` check and the `transform_points` call.
- `PGMCompiler`, the superclass that `Cell.__init__` initialises, is not part of this model. Its state (new origin, `transform_points`) is absent.
- `Waveguide`, `Marker`, `Trench` and `TrenchColumn` are not part of this model. They are opaque payloads. Waveguides and markers hold their points, and a trench is a handle.
- `add` treats the four classes as disjoint. If one were a subclass of another, the first `isinstance` test in source order would win.
- `antiwarp_generation`: interactive `input()` prompts, scipy `interp2d` fitting and 3D plotting. The fitted surface enters as the parameter `fitted`.
- Loading and dumping `fwarp.pkl` and the `CWD` path handling. Whether the surface was loaded or generated makes no difference to the model.
- `base_folder`, `filename` paths and `_example()`.
- IEEE floating point. The ratio in `n_repeat` is exact here. A float ratio that rounds just above an integer would give one more layer in the source.
- Parameters.TShutter: the lab check models `str.upper` on ASCII only. Python also maps some non-ASCII letters to ASCII (dotless `ı` to `I`, the ligature `ﬁ` to `FI`). So a name such as `ﬁre` is accepted by the source and rejected by the model.
- Parameters.NewWaveguideParameters: `scan` is either an `int` or a `float`. Python also accepts `bool` as an `int` (the `Int` case covers it) and rejects other integer-like types, such as numpy integers. Those cases are not modelled.
- Argument types that the source does not check (strings passed as numbers, `None` as the lab) raise Python errors that are not modelled.
- Cells.ShutterMask: the state is an `int`. Python's `shutter not in [0, 1]` also accepts `1.0`, `0.0`, `True` and `False`, which compare equal to 1 and 0; they are not modelled.
