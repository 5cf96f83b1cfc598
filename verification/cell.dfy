/** The composition root of femto (`Cell`): four collections filled by a
    type-dispatching `add`, and the shutter mask used to split a point array
    into beam-on and beam-off traces. */
module Cells {
  import opened Wrappers

  /** One row of a points array: position [mm], feed rate or placeholder,
      and the shutter flag (1 open, 0 closed). */
  datatype Point = Point(x: real, y: real, z: real, f: real, s: real)

  /** Stand-ins for the geometry classes, whose construction is not part of
      this model: waveguides and markers own their sampled points, a trench
      is an opaque handle. */
  datatype Waveguide = Waveguide(points: seq<Point>)
  datatype Marker = Marker(points: seq<Point>)
  datatype Trench = Trench(id: nat)

  /** A value handed to `Cell.add`. A trench column is iterable and yields
      its elements in order; any other Python value is `OtherObj`, known only
      by the name of its type. */
  datatype Obj =
    | WaveguideObj(w: Waveguide)
    | MarkerObj(m: Marker)
    | TrenchObj(t: Trench)
    | ColumnObj(items: seq<Obj>)
    | OtherObj(typeName: string)

  /** The state of a `Cell`: its dimensions and its four collections. */
  datatype Cell = Cell(
    dim: (Option<real>, Option<real>),
    waveguides: seq<Waveguide>,
    markers: seq<Marker>,
    trenches: seq<Trench>,
    trenchCols: seq<seq<Obj>>)

  /** `Cell.__init__`: all four collections start empty. */
  function NewCell(dim: (Option<real>, Option<real>) := (None, None)): (c: Cell)
    ensures c.dim == dim
    ensures |c.waveguides| == 0 && |c.markers| == 0 && |c.trenches| == 0 && |c.trenchCols| == 0
  {
    Cell(dim, [], [], [], [])
  }

  /** What a call of `add` leaves behind. `add` appends in place, so when it
      raises `TypeError` the elements appended before the failure stay; the
      error carries the name of the rejected type. */
  datatype AddOutcome = Ok(cell: Cell) | TypeError(cell: Cell, given: string)

  /** Values `add` accepts: the four geometry classes, and columns all of
      whose elements are accepted. */
  predicate Insertable(o: Obj)
    decreases o
  {
    match o
    case OtherObj(_) => false
    case ColumnObj(items) => forall i :: 0 <= i < |items| ==> Insertable(items[i])
    case _ => true
  }

  /** `d` extends `c`: same dimensions, and each collection of `c` is a
      prefix of the corresponding collection of `d`. */
  predicate Grows(c: Cell, d: Cell) {
    && c.dim == d.dim
    && c.waveguides <= d.waveguides
    && c.markers <= d.markers
    && c.trenches <= d.trenches
    && c.trenchCols <= d.trenchCols
  }

  lemma GrowsTransitive(a: Cell, b: Cell, c: Cell)
    requires Grows(a, b) && Grows(b, c)
    ensures Grows(a, c)
  {
  }

  /** `Cell.add`: dispatch on the type of `o`. A column adds each of its
      elements in order and is recorded only once all of them were added. */
  function Add(c: Cell, o: Obj): (r: AddOutcome)
    decreases o
    ensures Grows(c, r.cell)
    ensures r.Ok? <==> Insertable(o)
    ensures o.OtherObj? ==> r == TypeError(c, o.typeName)
    ensures o.MarkerObj? ==>
              && r.Ok? && r.cell.markers == c.markers + [o.m]
              && r.cell.waveguides == c.waveguides && r.cell.trenches == c.trenches && r.cell.trenchCols == c.trenchCols
    ensures o.WaveguideObj? ==>
              && r.Ok? && r.cell.waveguides == c.waveguides + [o.w]
              && r.cell.markers == c.markers && r.cell.trenches == c.trenches && r.cell.trenchCols == c.trenchCols
    ensures o.TrenchObj? ==>
              && r.Ok? && r.cell.trenches == c.trenches + [o.t]
              && r.cell.waveguides == c.waveguides && r.cell.markers == c.markers && r.cell.trenchCols == c.trenchCols
  {
    match o
    case MarkerObj(m) => Ok(c.(markers := c.markers + [m]))
    case WaveguideObj(w) => Ok(c.(waveguides := c.waveguides + [w]))
    case TrenchObj(t) => Ok(c.(trenches := c.trenches + [t]))
    case ColumnObj(items) =>
      var r := AddEach(c, items);
      if r.TypeError? then r
      else Ok(r.cell.(trenchCols := r.cell.trenchCols + [items]))
    case OtherObj(name) => TypeError(c, name)
  }

  /** The loop `for trc in obj: self.add(trc)`, stopping at the first error. */
  function AddEach(c: Cell, items: seq<Obj>): (r: AddOutcome)
    decreases items
    ensures Grows(c, r.cell)
    ensures r.Ok? <==> forall i :: 0 <= i < |items| ==> Insertable(items[i])
  {
    if |items| == 0 then Ok(c)
    else
      var r := Add(c, items[0]);
      if r.TypeError? then r
      else
        var rest := AddEach(r.cell, items[1..]);
        GrowsTransitive(c, r.cell, rest.cell);
        assert forall i :: 1 <= i < |items| ==> items[i] == items[1..][i - 1];
        rest
  }

  // A reference description of `add`, independent of its recursion: the
  // sequence of single insertions a value amounts to, and the cell that
  // results from appending each to its own collection.

  /** The single insertions `add(o)` performs, in order: a geometry object is
      itself; a column is the insertions of its elements followed by the
      column. A rejected value contributes none. */
  function Events(o: Obj): seq<Obj>
    decreases o
  {
    match o
    case ColumnObj(items) => EventsOf(items) + [o]
    case OtherObj(_) => []
    case _ => [o]
  }

  function EventsOf(items: seq<Obj>): seq<Obj>
    decreases items
  {
    if |items| == 0 then [] else Events(items[0]) + EventsOf(items[1..])
  }

  /** The payloads that `pick` selects from `es`, in order. */
  function Select<T>(es: seq<Obj>, pick: Obj -> Option<T>): seq<T>
  {
    if |es| == 0 then []
    else (if pick(es[0]).Some? then [pick(es[0]).value] else []) + Select(es[1..], pick)
  }

  lemma {:induction false} SelectAppend<T>(a: seq<Obj>, b: seq<Obj>, pick: Obj -> Option<T>)
    ensures Select(a + b, pick) == Select(a, pick) + Select(b, pick)
  {
    if |a| > 0 {
      assert (a + b)[1..] == a[1..] + b;
      SelectAppend(a[1..], b, pick);
    } else {
      assert a + b == b;
    }
  }

  function PickWaveguide(e: Obj): Option<Waveguide> {
    if e.WaveguideObj? then Some(e.w) else None
  }

  function PickMarker(e: Obj): Option<Marker> {
    if e.MarkerObj? then Some(e.m) else None
  }

  function PickTrench(e: Obj): Option<Trench> {
    if e.TrenchObj? then Some(e.t) else None
  }

  function PickColumn(e: Obj): Option<seq<Obj>> {
    if e.ColumnObj? then Some(e.items) else None
  }

  lemma SelectOne(e: Obj)
    ensures Select([e], PickWaveguide) == if e.WaveguideObj? then [e.w] else []
    ensures Select([e], PickMarker) == if e.MarkerObj? then [e.m] else []
    ensures Select([e], PickTrench) == if e.TrenchObj? then [e.t] else []
    ensures Select([e], PickColumn) == if e.ColumnObj? then [e.items] else []
  {
  }

  /** `c` with every insertion of `es` appended to its own collection. */
  function Extend(c: Cell, es: seq<Obj>): Cell {
    Cell(
      c.dim,
      c.waveguides + Select(es, PickWaveguide),
      c.markers + Select(es, PickMarker),
      c.trenches + Select(es, PickTrench),
      c.trenchCols + Select(es, PickColumn))
  }

  /** Extending in two steps is extending by the concatenation. */
  lemma ExtendAppend(c: Cell, a: seq<Obj>, b: seq<Obj>)
    ensures Extend(Extend(c, a), b) == Extend(c, a + b)
  {
    var e, f := Extend(Extend(c, a), b), Extend(c, a + b);
    SelectAppend(a, b, PickWaveguide);
    assert e.waveguides == f.waveguides;
    SelectAppend(a, b, PickMarker);
    assert e.markers == f.markers;
    SelectAppend(a, b, PickTrench);
    assert e.trenches == f.trenches;
    SelectAppend(a, b, PickColumn);
    assert e.trenchCols == f.trenchCols;
  }

  /** Extending by one insertion appends it to its own collection. */
  lemma ExtendSingle(c: Cell, e: Obj)
    ensures e.WaveguideObj? ==> Extend(c, [e]) == c.(waveguides := c.waveguides + [e.w])
    ensures e.MarkerObj? ==> Extend(c, [e]) == c.(markers := c.markers + [e.m])
    ensures e.TrenchObj? ==> Extend(c, [e]) == c.(trenches := c.trenches + [e.t])
    ensures e.ColumnObj? ==> Extend(c, [e]) == c.(trenchCols := c.trenchCols + [e.items])
  {
    SelectOne(e);
  }

  /** `add` of an accepted value appends exactly its insertions, each to its
      own collection and in order; nothing else changes. */
  lemma {:induction false} AddMatchesEvents(c: Cell, o: Obj)
    requires Insertable(o)
    ensures Add(c, o) == Ok(Extend(c, Events(o)))
    decreases o
  {
    match o
    case ColumnObj(items) =>
      AddEachMatchesEvents(c, items);
      var d := Extend(c, EventsOf(items));
      ExtendSingle(d, o);
      ExtendAppend(c, EventsOf(items), [o]);
    case WaveguideObj(_) => ExtendSingle(c, o);
    case MarkerObj(_) => ExtendSingle(c, o);
    case TrenchObj(_) => ExtendSingle(c, o);
  }

  lemma {:induction false} AddEachMatchesEvents(c: Cell, items: seq<Obj>)
    requires forall i :: 0 <= i < |items| ==> Insertable(items[i])
    ensures AddEach(c, items) == Ok(Extend(c, EventsOf(items)))
    decreases items
  {
    if |items| == 0 {
      assert Extend(c, []) == c;
    } else {
      AddMatchesEvents(c, items[0]);
      var d := Extend(c, Events(items[0]));
      AddEachMatchesEvents(d, items[1..]);
      ExtendAppend(c, Events(items[0]), EventsOf(items[1..]));
    }
  }

  /** The trench handles of a column made only of trenches, in column order. */
  function TrenchHandles(items: seq<Obj>): (ts: seq<Trench>)
    requires forall i :: 0 <= i < |items| ==> items[i].TrenchObj?
    ensures |ts| == |items|
    ensures forall i :: 0 <= i < |items| ==> items[i] == TrenchObj(ts[i])
  {
    seq(|items|, i requires 0 <= i < |items| => items[i].t)
  }

  /** For a run of trenches the insertions are the trenches themselves. */
  lemma {:induction false} TrenchRunEvents(items: seq<Obj>)
    requires forall i :: 0 <= i < |items| ==> items[i].TrenchObj?
    ensures EventsOf(items) == items
    decreases items
  {
    if |items| > 0 {
      TrenchRunEvents(items[1..]);
      assert Events(items[0]) == [items[0]];
      assert [items[0]] + items[1..] == items;
    }
  }

  /** A run of trenches selects its handles as trenches and nothing else. */
  lemma {:induction false} TrenchRunSelect(items: seq<Obj>)
    requires forall i :: 0 <= i < |items| ==> items[i].TrenchObj?
    ensures Select(items, PickTrench) == TrenchHandles(items)
    ensures Select(items, PickWaveguide) == []
    ensures Select(items, PickMarker) == []
    ensures Select(items, PickColumn) == []
    decreases items
  {
    if |items| > 0 {
      TrenchRunSelect(items[1..]);
      assert PickTrench(items[0]) == Some(items[0].t);
      assert TrenchHandles(items) == [items[0].t] + TrenchHandles(items[1..]);
    }
  }

  /** Extending by a run of trenches appends their handles to `trenches`. */
  lemma TrenchRunExtend(c: Cell, items: seq<Obj>)
    requires forall i :: 0 <= i < |items| ==> items[i].TrenchObj?
    ensures EventsOf(items) == items
    ensures Extend(c, items) == c.(trenches := c.trenches + TrenchHandles(items))
  {
    TrenchRunEvents(items);
    TrenchRunSelect(items);
    var e := Extend(c, items);
    assert e.waveguides == c.waveguides + [] == c.waveguides;
    assert e.markers == c.markers + [] == c.markers;
    assert e.trenchCols == c.trenchCols + [] == c.trenchCols;
  }

  lemma AddEachTrenches(c: Cell, items: seq<Obj>)
    requires forall i :: 0 <= i < |items| ==> items[i].TrenchObj?
    ensures AddEach(c, items) == Ok(c.(trenches := c.trenches + TrenchHandles(items)))
  {
    AddEachMatchesEvents(c, items);
    TrenchRunExtend(c, items);
  }

  /** Adding a column of trenches appends its trenches to `trenches` in
      column order, then records the column; waveguides and markers are
      unchanged. */
  lemma AddTrenchColumn(c: Cell, items: seq<Obj>)
    requires forall i :: 0 <= i < |items| ==> items[i].TrenchObj?
    ensures Add(c, ColumnObj(items))
            == Ok(c.(trenches := c.trenches + TrenchHandles(items), trenchCols := c.trenchCols + [items]))
  {
    AddEachTrenches(c, items);
  }

  // A reference description of the error path: for a rejected value, the
  // insertions completed before the failure and the type name reported.
  // Together with `Events` it fixes the outcome of `add` on every value.

  /** For a rejected value, the single insertions `add(o)` completes before
      it raises: none for a non-geometry value; for a column, those of its
      elements up to the first rejected one. */
  function Before(o: Obj): seq<Obj>
    decreases o
  {
    match o
    case ColumnObj(items) => BeforeEach(items)
    case _ => []
  }

  /** The insertions of the accepted elements before the first rejected
      one, followed by what that element completes before it raises. */
  function BeforeEach(items: seq<Obj>): seq<Obj>
    decreases items
  {
    if |items| == 0 then []
    else if Insertable(items[0]) then Events(items[0]) + BeforeEach(items[1..])
    else Before(items[0])
  }

  /** For a rejected value, the name of the type in the `TypeError`: the
      innermost non-geometry value reached first. */
  function Rejected(o: Obj): string
    decreases o
  {
    match o
    case OtherObj(name) => name
    case ColumnObj(items) => RejectedEach(items)
    case _ => ""
  }

  function RejectedEach(items: seq<Obj>): string
    decreases items
  {
    if |items| == 0 then ""
    else if Insertable(items[0]) then RejectedEach(items[1..])
    else Rejected(items[0])
  }

  /** `add` of a rejected value, at any depth of nesting: the insertions
      completed before the failure stay appended, no column on the way is
      recorded, and the error names the first non-geometry value reached. */
  lemma {:induction false} AddRejected(c: Cell, o: Obj)
    requires !Insertable(o)
    ensures Add(c, o) == TypeError(Extend(c, Before(o)), Rejected(o))
    decreases o
  {
    match o
    case OtherObj(_) =>
      assert Extend(c, []) == c;
    case ColumnObj(items) =>
      AddEachRejectedAny(c, items);
  }

  lemma {:induction false} AddEachRejectedAny(c: Cell, items: seq<Obj>)
    requires exists i :: 0 <= i < |items| && !Insertable(items[i])
    ensures AddEach(c, items) == TypeError(Extend(c, BeforeEach(items)), RejectedEach(items))
    decreases items
  {
    if Insertable(items[0]) {
      var k :| 0 <= k < |items| && !Insertable(items[k]);
      assert items[1..][k - 1] == items[k];
      AddMatchesEvents(c, items[0]);
      var d := Extend(c, Events(items[0]));
      AddEachRejectedAny(d, items[1..]);
      ExtendAppend(c, Events(items[0]), BeforeEach(items[1..]));
    } else {
      AddRejected(c, items[0]);
    }
  }

  /** A marker followed by a plain number: the marker stays appended and
      the column is not recorded. */
  lemma MarkerThenNumberColumn(c: Cell, m: Marker)
    ensures Add(c, ColumnObj([MarkerObj(m), OtherObj("int")]))
            == TypeError(c.(markers := c.markers + [m]), "int")
  {
    var mk, bad := MarkerObj(m), OtherObj("int");
    var items := [mk, bad];
    var o := ColumnObj(items);
    assert Rejected(bad) == "int" && Before(bad) == [] && !Insertable(bad);
    assert items[1..] == [bad];
    assert !Insertable(o) by { assert items[1] == bad; }
    assert BeforeEach([bad]) == [] && RejectedEach([bad]) == "int";
    assert Events(mk) == [mk] && Insertable(mk);
    assert Before(o) == [mk] && Rejected(o) == "int";
    AddRejected(c, o);
    ExtendSingle(c, mk);
  }

  /** A column holding a trench and then a failing inner column: both
      trenches stay appended, neither column is recorded, and the error
      names the innermost rejected type. */
  lemma NestedColumnRejected(c: Cell, t: Trench, u: Trench, name: string)
    ensures Add(c, ColumnObj([TrenchObj(t), ColumnObj([TrenchObj(u), OtherObj(name)])]))
            == TypeError(c.(trenches := c.trenches + [t, u]), name)
  {
    var bad := OtherObj(name);
    var inner := [TrenchObj(u), bad];
    var col := ColumnObj(inner);
    var outer := [TrenchObj(t), col];
    var o := ColumnObj(outer);
    assert Rejected(bad) == name && Before(bad) == [] && !Insertable(bad);
    assert inner[1..] == [bad];
    assert RejectedEach([bad]) == name && BeforeEach([bad]) == [];
    assert !Insertable(col) by { assert inner[1] == bad; }
    assert Events(TrenchObj(u)) == [TrenchObj(u)] && Insertable(TrenchObj(u));
    assert RejectedEach(inner) == name && BeforeEach(inner) == [TrenchObj(u)];
    assert Before(col) == BeforeEach(inner) && Rejected(col) == RejectedEach(inner);
    assert outer[1..] == [col];
    assert RejectedEach([col]) == name && BeforeEach([col]) == [TrenchObj(u)];
    assert !Insertable(o) by { assert outer[1] == col; }
    assert Before(o) == [TrenchObj(t), TrenchObj(u)] && Rejected(o) == name;
    AddRejected(c, o);
    TrenchRunExtend(c, [TrenchObj(t), TrenchObj(u)]);
  }

  // The shutter mask.

  /** `_shutter_mask` accepts only the closed (0) and open (1) states. */
  datatype MaskError = InvalidShutter(given: int)

  /** The three columns `_shutter_mask` returns; `None` stands for NaN, the
      value a plot does not draw. */
  datatype Masked = Masked(x: seq<real>, ym: seq<Option<real>>, zm: seq<Option<real>>)

  function Y(p: Point): real {
    p.y
  }

  function Z(p: Point): real {
    p.z
  }

  /** `np.where(s == state, coord, nan)` over the rows of `points`. */
  function Where(points: seq<Point>, state: real, coord: Point -> real): (m: seq<Option<real>>)
    ensures |m| == |points|
    ensures forall i :: 0 <= i < |points| ==>
              m[i] == if points[i].s == state then Some(coord(points[i])) else None
  {
    if |points| == 0 then []
    else
      [if points[0].s == state then Some(coord(points[0])) else None]
      + Where(points[1..], state, coord)
  }

  /** `Cell._shutter_mask`: x is returned as is, the feed column is dropped,
      and y and z are kept exactly at the rows whose shutter flag equals the
      requested state and are NaN at every other row. */
  function ShutterMask(points: seq<Point>, shutter: int := 1): (r: Result<Masked, MaskError>)
    ensures r.Failure? <==> shutter != 0 && shutter != 1
    ensures r.Failure? ==> r.error == InvalidShutter(shutter)
    ensures r.Success? ==>
              && |r.value.x| == |points| && |r.value.ym| == |points| && |r.value.zm| == |points|
              && forall i :: 0 <= i < |points| ==>
                   && r.value.x[i] == points[i].x
                   && (points[i].s == shutter as real <==> r.value.ym[i] == Some(points[i].y))
                   && (points[i].s == shutter as real <==> r.value.zm[i] == Some(points[i].z))
                   && (points[i].s != shutter as real ==> r.value.ym[i] == None && r.value.zm[i] == None)
  {
    if shutter != 0 && shutter != 1 then Failure(InvalidShutter(shutter))
    else
      var xs := seq(|points|, i requires 0 <= i < |points| => points[i].x);
      if shutter == 1 then Success(Masked(xs, Where(points, 1.0, Y), Where(points, 1.0, Z)))
      else Success(Masked(xs, Where(points, 0.0, Y), Where(points, 0.0, Z)))
  }

  /** Every row carries a binary shutter flag. */
  predicate BinaryShutter(points: seq<Point>) {
    forall i :: 0 <= i < |points| ==> points[i].s == 0.0 || points[i].s == 1.0
  }

  /** With binary flags, the open and the closed mask keep complementary
      rows: each row is drawn in exactly one of the two traces. */
  lemma MaskComplement(points: seq<Point>, i: int)
    requires BinaryShutter(points) && 0 <= i < |points|
    ensures var open, closed := ShutterMask(points, 1).value, ShutterMask(points, 0).value;
            && (open.ym[i] == Some(points[i].y) <==> closed.ym[i] == None)
            && (open.zm[i] == Some(points[i].z) <==> closed.zm[i] == None)
            && (open.ym[i] == None <==> closed.ym[i] == Some(points[i].y))
            && (open.zm[i] == None <==> closed.zm[i] == Some(points[i].z))
  {
  }

  /** The rows whose shutter flag equals `state`, in order. */
  function Kept(points: seq<Point>, state: real): seq<Point> {
    if |points| == 0 then []
    else (if points[0].s == state then [points[0]] else []) + Kept(points[1..], state)
  }

  /** The defined entries of a masked column, in order. */
  function Drawn(m: seq<Option<real>>): seq<real> {
    if |m| == 0 then []
    else (if m[0].Some? then [m[0].value] else []) + Drawn(m[1..])
  }

  /** `coord` of every point, in order. */
  function Coords(points: seq<Point>, coord: Point -> real): (cs: seq<real>)
    ensures |cs| == |points|
  {
    seq(|points|, i requires 0 <= i < |points| => coord(points[i]))
  }

  lemma CoordsAppend(a: seq<Point>, b: seq<Point>, coord: Point -> real)
    ensures Coords(a + b, coord) == Coords(a, coord) + Coords(b, coord)
  {
  }

  lemma {:induction false} WhereDrawsKept(points: seq<Point>, state: real, coord: Point -> real)
    ensures Drawn(Where(points, state, coord)) == Coords(Kept(points, state), coord)
  {
    if |points| > 0 {
      var p, tail := points[0], points[1..];
      var head := if p.s == state then [p] else [];
      WhereDrawsKept(tail, state, coord);
      var w := Where(points, state, coord);
      assert w == [if p.s == state then Some(coord(p)) else None] + Where(tail, state, coord);
      assert w[1..] == Where(tail, state, coord);
      assert Drawn(w) == Coords(head, coord) + Drawn(w[1..]);
      assert Kept(points, state) == head + Kept(tail, state);
      CoordsAppend(head, Kept(tail, state), coord);
    }
  }

  /** What a mask draws is exactly the y (or z) trace of the rows in the
      requested shutter state, in their original order. */
  lemma MaskDrawsKeptRows(points: seq<Point>, shutter: int)
    requires shutter == 0 || shutter == 1
    ensures var m := ShutterMask(points, shutter).value;
            && Drawn(m.ym) == Coords(Kept(points, shutter as real), Y)
            && Drawn(m.zm) == Coords(Kept(points, shutter as real), Z)
  {
    WhereDrawsKept(points, shutter as real, Y);
    WhereDrawsKept(points, shutter as real, Z);
  }

  /** With binary flags, the open and the closed rows partition the points. */
  lemma {:induction false} KeptPartition(points: seq<Point>)
    requires BinaryShutter(points)
    ensures |Kept(points, 0.0)| + |Kept(points, 1.0)| == |points|
  {
    if |points| > 0 {
      assert BinaryShutter(points[1..]) by {
        forall i | 0 <= i < |points[1..]|
          ensures points[1..][i].s == 0.0 || points[1..][i].s == 1.0
        {
          assert points[1..][i] == points[i + 1];
        }
      }
      KeptPartition(points[1..]);
    }
  }
}
