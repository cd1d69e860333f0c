/** Turning an image upright, by the orientation its EXIF tag states. */
module Orientation {
  // ----- where a stored pixel belongs

  datatype Side = Top | Bottom | Left | Right

  /** The side row 0 and column 0 show, per value of the Orientation tag (section 8 of
      TIFF 6.0). */
  function RowSide(o: int): Side
    requires 1 <= o <= 8
  {
    match o
    case 1 => Top
    case 2 => Top
    case 3 => Bottom
    case 4 => Bottom
    case 5 => Left
    case 6 => Right
    case 7 => Right
    case 8 => Left
  }

  function ColumnSide(o: int): Side
    requires 1 <= o <= 8
  {
    match o
    case 1 => Left
    case 2 => Right
    case 3 => Right
    case 4 => Left
    case 5 => Top
    case 6 => Top
    case 7 => Bottom
    case 8 => Bottom
  }

  /** A coordinate counted from a side of an extent: from Left or Top upwards, from Right or
      Bottom downwards. */
  function FromSide(side: Side, extent: nat, k: int): int {
    if side == Left || side == Top then k else extent - 1 - k
  }

  predicate Horizontal(side: Side) {
    side == Left || side == Right
  }

  /** The visual position the standard gives the pixel in column x of row y. */
  function Upright(o: int, w: nat, h: nat, x: int, y: int): (int, int)
    requires 1 <= o <= 8
  {
    var row, column := FromSide(RowSide(o), h, y), FromSide(ColumnSide(o), w, x);
    if Horizontal(ColumnSide(o)) then (column, row) else (row, column)
  }

  predicate Turns(o: int) {
    o >= 5
  }

  /** The switch of the pixel loop. */
  function Place(o: int, w: nat, h: nat, x: int, y: int): (int, int) {
    if o == 2 then (w - 1 - x, y)
    else if o == 3 then (w - 1 - x, h - 1 - y)
    else if o == 4 then (x, h - 1 - y)
    else if o == 5 then (y, x)
    else if o == 6 then (h - 1 - y, x)
    else if o == 7 then (h - 1 - y, w - 1 - x)
    else if o == 8 then (y, w - 1 - x)
    else (x, y)
  }

  lemma PlaceMeetsStandard(o: int, w: nat, h: nat, x: int, y: int)
    requires 1 <= o <= 8
    ensures Place(o, w, h, x, y) == Upright(o, w, h, x, y)
  {
    var row, column := FromSide(RowSide(o), h, y), FromSide(ColumnSide(o), w, x);
    assert Upright(o, w, h, x, y) == if Horizontal(ColumnSide(o)) then (column, row) else (row, column);
  }

  /** The orientation that takes a turn back. */
  function Undo(o: int): int {
    if o == 6 then 8 else if o == 8 then 6 else o
  }

  function Wide(o: int, w: nat, h: nat): nat {
    if Turns(o) then h else w
  }

  function High(o: int, w: nat, h: nat): nat {
    if Turns(o) then w else h
  }

  predicate Within(w: nat, h: nat, x: int, y: int) {
    0 <= x < w && 0 <= y < h
  }

  /** Every pixel has its own place inside the target, and the opposite turn takes it back:
      6 and 8 undo each other, the others themselves. */
  lemma PlaceIsOneToOne(o: int, w: nat, h: nat, x: int, y: int)
    requires 1 <= o <= 8 && Within(w, h, x, y)
    ensures var (dx, dy) := Place(o, w, h, x, y);
            Within(Wide(o, w, h), High(o, w, h), dx, dy)
            && Place(Undo(o), Wide(o, w, h), High(o, w, h), dx, dy) == (x, y)
    ensures Wide(Undo(o), Wide(o, w, h), High(o, w, h)) == w && High(Undo(o), Wide(o, w, h), High(o, w, h)) == h
    ensures Undo(Undo(o)) == o
  {
  }

  ghost predicate IsUpright<T>(source: array2<T>, target: array2<T>, o: int)
    requires 1 <= o <= 8
    reads source, target
  {
    target.Length0 == Wide(o, source.Length0, source.Length1)
        && target.Length1 == High(o, source.Length0, source.Length1)
    && forall x, y :: 0 <= x < source.Length0 && 0 <= y < source.Length1 ==>
         var p := Place(o, source.Length0, source.Length1, x, y);
         Within(target.Length0, target.Length1, p.0, p.1) && target[p.0, p.1] == source[x, y]
  }

  /** Turning an image and turning it back gives the image. */
  lemma TurnedBack<T>(source: array2<T>, target: array2<T>, back: array2<T>, o: int)
    requires 1 <= o <= 8 && IsUpright(source, target, o) && IsUpright(target, back, Undo(o))
    ensures back.Length0 == source.Length0 && back.Length1 == source.Length1
    ensures forall x, y :: 0 <= x < source.Length0 && 0 <= y < source.Length1 ==> back[x, y] == source[x, y]
  {
    var w, h := source.Length0, source.Length1;
    forall x, y | 0 <= x < w && 0 <= y < h ensures back[x, y] == source[x, y] {
      PlaceIsOneToOne(o, w, h, x, y);
      var p := Place(o, w, h, x, y);
      var q := Place(Undo(o), target.Length0, target.Length1, p.0, p.1);
      assert target[p.0, p.1] == source[x, y] && back[q.0, q.1] == target[p.0, p.1];
    }
  }

  /** The places of the pixels before (x, y) in the order of the loop. */
  function PlacesBefore(o: int, w: nat, h: nat, x: nat, y: nat): set<(int, int)> {
    set i, j | 0 <= i < w && 0 <= j < h && (j < y || (j == y && i < x)) :: Place(o, w, h, i, j)
  }

  /** The switch, as the loop runs it. */
  method Aim(o: int, w: nat, h: nat, x: nat, y: nat) returns (dx: int, dy: int)
    ensures (dx, dy) == Place(o, w, h, x, y)
  {
    dx, dy := x, y;
    match o {
      case 2 => dx := w - 1 - x;
      case 3 => dx, dy := w - 1 - x, h - 1 - y;
      case 4 => dy := h - 1 - y;
      case 5 => dx, dy := y, x;
      case 6 => dx, dy := h - 1 - y, x;
      case 7 => dx, dy := h - 1 - y, w - 1 - x;
      case 8 => dx, dy := y, w - 1 - x;
      case _ =>
    }
  }

  /** The pixel loop. No target pixel is written twice and none is left out. */
  method PaintUpright<T(0)>(source: array2<T>, o: int) returns (target: array2<T>, ghost written: seq<(int, int)>)
    requires 1 <= o <= 8
    ensures fresh(target) && IsUpright(source, target, o)
    ensures forall i, j :: 0 <= i < j < |written| ==> written[i] != written[j]
    ensures forall dx, dy :: 0 <= dx < target.Length0 && 0 <= dy < target.Length1 ==> (dx, dy) in written
  {
    assert PlacesBefore(o, source.Length0, source.Length1, 0, 0) == {};
    hide Place, PlacesBefore;
    var w, h := source.Length0, source.Length1;
    var dw, dh := w, h;
    if o >= 5 {
      dw, dh := h, w;
    }
    target := new T[dw, dh];
    written := [];
    for y := 0 to h
      invariant forall p :: p in written <==> p in PlacesBefore(o, w, h, 0, y)
      invariant forall i, j :: 0 <= i < j < |written| ==> written[i] != written[j]
      invariant forall i, j :: 0 <= i < w && 0 <= j < y ==> Painted(source, target, o, i, j)
    {
      for x := 0 to w
        invariant forall p :: p in written <==> p in PlacesBefore(o, w, h, x, y)
        invariant forall i, j :: 0 <= i < j < |written| ==> written[i] != written[j]
        invariant forall i, j :: 0 <= i < w && 0 <= j < h && (j < y || (j == y && i < x)) ==>
                  Painted(source, target, o, i, j)
      {
        var dx, dy := Aim(o, w, h, x, y);
        NotYetPainted(o, w, h, x, y);
        assert (dx, dy) !in written;
        label before:
        target[dx, dy] := source[x, y];
        forall i, j | 0 <= i < w && 0 <= j < h && (j < y || (j == y && i <= x))
          ensures Painted(source, target, o, i, j)
        {
          if i != x || j != y {
            assert old@before(Painted(source, target, o, i, j));
            OthersStay(o, w, h, x, y, i, j);
          }
        }
        written := written + [(dx, dy)];
        OneMorePlace(o, w, h, x, y);
      }
      RowDone(o, w, h, y);
    }
    forall x, y | 0 <= x < w && 0 <= y < h
      ensures var p := Place(o, w, h, x, y);
              Within(target.Length0, target.Length1, p.0, p.1) && target[p.0, p.1] == source[x, y]
    {
      assert Painted(source, target, o, x, y);
    }
    forall dx, dy | 0 <= dx < dw && 0 <= dy < dh ensures (dx, dy) in written {
      EveryPlaceTaken(o, w, h, dx, dy);
    }
  }

  ghost predicate Painted<T>(source: array2<T>, target: array2<T>, o: int, x: int, y: int)
    requires 0 <= x < source.Length0 && 0 <= y < source.Length1
    reads source, target
  {
    var p := Place(o, source.Length0, source.Length1, x, y);
    Within(target.Length0, target.Length1, p.0, p.1) && target[p.0, p.1] == source[x, y]
  }

  lemma NotYetPainted(o: int, w: nat, h: nat, x: nat, y: nat)
    requires 1 <= o <= 8 && x < w && y < h
    ensures Place(o, w, h, x, y) !in PlacesBefore(o, w, h, x, y)
    ensures var p := Place(o, w, h, x, y); Within(Wide(o, w, h), High(o, w, h), p.0, p.1)
  {
  }

  lemma OthersStay(o: int, w: nat, h: nat, x: nat, y: nat, i: int, j: int)
    requires 1 <= o <= 8 && x < w && y < h && Within(w, h, i, j) && (i != x || j != y)
    ensures Place(o, w, h, i, j) != Place(o, w, h, x, y)
  {
  }

  lemma OneMorePlace(o: int, w: nat, h: nat, x: nat, y: nat)
    requires x < w && y < h
    ensures PlacesBefore(o, w, h, x + 1, y) == PlacesBefore(o, w, h, x, y) + {Place(o, w, h, x, y)}
  {
  }

  /** Every pixel of the target is the place of one pixel of the source. */
  lemma EveryPlaceTaken(o: int, w: nat, h: nat, dx: nat, dy: nat)
    requires 1 <= o <= 8 && Within(Wide(o, w, h), High(o, w, h), dx, dy)
    ensures (dx, dy) in PlacesBefore(o, w, h, 0, h)
  {
    PlaceIsOneToOne(Undo(o), Wide(o, w, h), High(o, w, h), dx, dy);
    var p := Place(Undo(o), Wide(o, w, h), High(o, w, h), dx, dy);
    assert Place(o, w, h, p.0, p.1) == (dx, dy);
  }

  lemma RowDone(o: int, w: nat, h: nat, y: nat)
    ensures PlacesBefore(o, w, h, w, y) == PlacesBefore(o, w, h, 0, y + 1)
  {
  }
}
