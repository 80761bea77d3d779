/** The square generator that serves as fallback camera (test/frame_generator.cc): squares are moved
    and painted into the strided planes of a frame. The picture is defined per pixel; the methods
    write whole rows in place and are proved to produce exactly that picture. */
module FramePainter {
  import opened Arithmetic

  type Byte = b: int | 0 <= b < 256

  datatype Square = Square(x: nat, y: nat, length: nat, luma: Byte, u: Byte, v: Byte, alpha: Byte)

  /** The planes of a frame: luma, the two chroma planes, and alpha where the format has it. */
  datatype Channel = Y | U | V | A

  /** The random move of one square before it is drawn. */
  datatype Move = Move(dx: nat, dy: nat)

  const GREY: Byte := 127

  /** The side actually drawn on a frame of this size. */
  function Side(s: Square, width: nat, height: nat): nat {
    Min(s.length, Min(height, width) / 4)
  }

  function Moved(s: Square, m: Move, width: nat, height: nat): Square
    requires width > 0 && height > 0
  {
    var side := Side(s, width, height);
    s.(x := (s.x + m.dx) % (width - side), y := (s.y + m.dy) % (height - side))
  }

  predicate Covers(s: Square, side: nat, px: int, py: int) {
    s.x <= px < s.x + side && s.y <= py < s.y + side
  }

  /** The chroma planes have half the resolution: every second row of the square, half its width. */
  predicate CoversChroma(s: Square, side: nat, cx: int, cy: int) {
    s.x / 2 <= cx < s.x / 2 + side / 2 && s.y / 2 <= cy < s.y / 2 + (side + 1) / 2
  }

  predicate Touches(s: Square, side: nat, ch: Channel, px: int, py: int) {
    if ch.U? || ch.V? then CoversChroma(s, side, px, py) else Covers(s, side, px, py)
  }

  function Value(s: Square, ch: Channel): Byte {
    match ch
    case Y => s.luma
    case U => s.u
    case V => s.v
    case A => s.alpha
  }

  /** The picture: each pixel of each plane shows the last square that covers it, or grey. */
  function Picture(squares: seq<Square>, width: nat, height: nat, ch: Channel, px: int, py: int): Byte {
    if squares == [] then GREY
    else
      var top := squares[|squares| - 1];
      if Touches(top, Side(top, width, height), ch, px, py) then Value(top, ch)
      else Picture(squares[..|squares| - 1], width, height, ch, px, py)
  }

  predicate CoveredBy(squares: seq<Square>, i: nat, width: nat, height: nat, ch: Channel, px: int, py: int)
    requires i < |squares|
  {
    Touches(squares[i], Side(squares[i], width, height), ch, px, py)
  }

  /** On every plane, a pixel shows the last square that covers it. */
  lemma {:induction false} LastCoverWins(squares: seq<Square>, width: nat, height: nat, ch: Channel, px: int, py: int,
                                         i: nat)
    requires i < |squares| && CoveredBy(squares, i, width, height, ch, px, py)
    requires forall j | i < j < |squares| :: !CoveredBy(squares, j, width, height, ch, px, py)
    ensures ch == Y ==> Picture(squares, width, height, ch, px, py) == squares[i].luma
    ensures ch == U ==> Picture(squares, width, height, ch, px, py) == squares[i].u
    ensures ch == V ==> Picture(squares, width, height, ch, px, py) == squares[i].v
    ensures ch == A ==> Picture(squares, width, height, ch, px, py) == squares[i].alpha
    decreases |squares|
  {
    var last := |squares| - 1;
    if i < last {
      var below := squares[..last];
      forall j | i < j < |below| ensures !CoveredBy(below, j, width, height, ch, px, py) {
        assert !CoveredBy(squares, j, width, height, ch, px, py);
      }
      assert !CoveredBy(squares, last, width, height, ch, px, py);
      LastCoverWins(below, width, height, ch, px, py, i);
    }
  }

  /** On every plane, a pixel no square covers is grey. */
  lemma {:induction false} UncoveredIsGrey(squares: seq<Square>, width: nat, height: nat, ch: Channel, px: int, py: int)
    requires forall j | 0 <= j < |squares| :: !CoveredBy(squares, j, width, height, ch, px, py)
    ensures Picture(squares, width, height, ch, px, py) == GREY
    decreases |squares|
  {
    if squares != [] {
      var below := squares[..|squares| - 1];
      forall j | 0 <= j < |below| ensures !CoveredBy(below, j, width, height, ch, px, py) {
        assert !CoveredBy(squares, j, width, height, ch, px, py);
      }
      assert !CoveredBy(squares, |squares| - 1, width, height, ch, px, py);
      UncoveredIsGrey(below, width, height, ch, px, py);
    }
  }

  /** The side drawn is the largest that is neither longer than the square's own nor than a quarter of the
      frame in either direction. */
  lemma SideIsLargest(s: Square, width: nat, height: nat, longer: nat)
    ensures var side := Side(s, width, height); side <= s.length && 4 * side <= width && 4 * side <= height
    ensures longer <= s.length && 4 * longer <= width && 4 * longer <= height ==> longer <= Side(s, width, height)
  {
  }

  lemma GoesRound(from: nat, round: nat) returns (turns: nat)
    requires round > 0
    ensures from == turns * round + from % round && from % round < round
    ensures from < round ==> from % round == from
  {
    turns := from / round;
  }

  /** A square moves by what was drawn for it, and comes in again on the other side each time that takes
      it past the last place at which it fits; nothing else about it changes. */
  lemma MovedBy(s: Square, m: Move, width: nat, height: nat) returns (across: nat, down: nat)
    requires width > 0 && height > 0
    ensures var t, side := Moved(s, m, width, height), Side(s, width, height);
            && s.x + m.dx == across * (width - side) + t.x && s.y + m.dy == down * (height - side) + t.y
            && (s.x + m.dx < width - side ==> t.x == s.x + m.dx)
            && (s.y + m.dy < height - side ==> t.y == s.y + m.dy)
            && t == s.(x := t.x, y := t.y)
  {
    var side := Side(s, width, height);
    across := GoesRound(s.x + m.dx, width - side);
    down := GoesRound(s.y + m.dy, height - side);
  }

  /** Where a square lies on even coordinates with an even side, a chroma pixel is covered exactly when
      the four luma pixels it stands for are. */
  lemma ChromaFollowsLuma(s: Square, side: nat, cx: int, cy: int)
    requires s.x % 2 == 0 && s.y % 2 == 0 && side % 2 == 0
    ensures CoversChroma(s, side, cx, cy) <==>
            && Covers(s, side, 2 * cx, 2 * cy) && Covers(s, side, 2 * cx + 1, 2 * cy)
            && Covers(s, side, 2 * cx, 2 * cy + 1) && Covers(s, side, 2 * cx + 1, 2 * cy + 1)
  {
  }

  /** In general the chroma rows covered are those of every second row of the square, its first one
      included, and of each of them half the side. */
  lemma ChromaRows(s: Square, side: nat, cx: int, cy: int)
    ensures CoversChroma(s, side, cx, cy) <==>
            s.x / 2 <= cx < s.x / 2 + side / 2 && exists y | s.y <= y < s.y + side :: EverySecond(s, y, cy)
  {
    var y := s.y + 2 * (cy - s.y / 2);
    if s.y / 2 <= cy < s.y / 2 + (side + 1) / 2 {
      assert EverySecond(s, y, cy);
    }
  }

  /** Row `y` is reached from the square's first row in steps of two and lies on chroma row `cy`. */
  predicate EverySecond(s: Square, y: int, cy: int) {
    (y - s.y) % 2 == 0 && y / 2 == cy
  }

  /** In general a covered chroma pixel stands for luma pixels of which one lies in the square. */
  lemma ChromaTouchesLuma(s: Square, side: nat, cx: int, cy: int)
    requires CoversChroma(s, side, cx, cy)
    ensures || Covers(s, side, 2 * cx, 2 * cy) || Covers(s, side, 2 * cx + 1, 2 * cy)
            || Covers(s, side, 2 * cx, 2 * cy + 1) || Covers(s, side, 2 * cx + 1, 2 * cy + 1)
  {
  }

  /** The position of pixel `(x, y)` in a plane with this stride. */
  function At(x: int, y: int, stride: int): int {
    x + y * stride
  }

  lemma RowsApart(x: int, y: int, x': int, y': int, stride: int)
    requires 0 <= x < stride && 0 <= x' < stride
    ensures At(x, y, stride) == At(x', y', stride) ==> x == x' && y == y'
  {
    Distance(y, y', stride);
    Distance(y', y, stride);
    if y < y' {
      AtLeast(y' - y, stride);
    } else if y > y' {
      AtLeast(y - y', stride);
    }
  }

  lemma InPlane(x: int, y: int, stride: int, rows: int)
    requires 0 <= x <= stride && 0 <= y < rows
    ensures 0 <= At(0, y, stride) <= At(x, y, stride) <= rows * stride
    ensures x < stride ==> At(x, y, stride) < rows * stride
  {
    Distance(y, rows, stride);
    AtLeast(rows - y, stride);
    if y > 0 {
      AtLeast(y, stride);
    }
  }

  /** A plane of a frame: `rows` rows of `stride` bytes. */
  class Plane {
    const stride: nat
    const rows: nat
    const data: array<Byte>

    ghost predicate Valid() {
      data.Length == rows * stride
    }

    /** A plane filled with grey. */
    constructor (stride: nat, rows: nat)
      ensures Valid() && this.stride == stride && this.rows == rows && fresh(data)
      ensures forall x, y | 0 <= x < stride && 0 <= y < rows :: Pixel(x, y) == GREY
    {
      this.stride, this.rows := stride, rows;
      data := new Byte[rows * stride](_ => GREY);
      new;
      forall x, y | 0 <= x < stride && 0 <= y < rows ensures Pixel(x, y) == GREY {
        InPlane(x, y, stride, rows);
      }
    }

    ghost function Pixel(x: int, y: int): Byte
      requires Valid()
      reads data
    {
      if 0 <= x < stride && 0 <= y < rows then InPlane(x, y, stride, rows); data[At(x, y, stride)] else GREY
    }

    /** Every byte of the plane, padding included, is the picture of these squares. */
    ghost predicate Shows(squares: seq<Square>, width: nat, height: nat, ch: Channel)
      requires Valid()
      reads data
    {
      forall x, y | 0 <= x < stride && 0 <= y < rows :: Pixel(x, y) == Picture(squares, width, height, ch, x, y)
    }

    /** `memset` on part of a row. */
    method FillRow(x0: nat, y0: nat, n: nat, value: Byte)
      requires Valid() && y0 < rows && x0 + n <= stride
      modifies data
      ensures forall x, y | 0 <= x < stride && 0 <= y < rows ::
                Pixel(x, y) == if y == y0 && x0 <= x < x0 + n then value else old(Pixel(x, y))
    {
      InPlane(x0, y0, stride, rows);
      InPlane(x0 + n, y0, stride, rows);
      var from := At(x0, y0, stride);
      var i := 0;
      while i < n
        invariant 0 <= i <= n
        invariant forall k | 0 <= k < data.Length ::
                    data[k] == if from <= k < from + i then value else old(data[k])
      {
        data[from + i] := value;
        i := i + 1;
      }
      forall x, y | 0 <= x < stride && 0 <= y < rows
        ensures Pixel(x, y) == if y == y0 && x0 <= x < x0 + n then value else old(Pixel(x, y))
      {
        InPlane(x, y, stride, rows);
        var k := At(x, y, stride);
        if from <= k < from + n {
          RowsApart(x, y, x0 + (k - from), y0, stride);
        }
      }
    }
  }

  /** The planes of a frame; the chroma planes have half the rows and columns, rounded up, and the
      alpha plane has no rows unless the format is I420A. */
  class I420Buffer {
    const width: nat
    const height: nat
    const hasAlpha: bool
    const luma: Plane
    const u: Plane
    const v: Plane
    const alpha: Plane

    ghost predicate Valid() {
      && luma.Valid() && u.Valid() && v.Valid() && alpha.Valid()
      && luma.rows == height && u.rows == v.rows == (height + 1) / 2
      && alpha.rows == (if hasAlpha then height else 0)
      && width <= luma.stride && width <= alpha.stride
      && (width + 1) / 2 <= u.stride && (width + 1) / 2 <= v.stride
      && luma.data != u.data && luma.data != v.data && u.data != v.data
      && alpha.data != luma.data && alpha.data != u.data && alpha.data != v.data
    }

    ghost function Bytes(): set<object> {
      {luma.data, u.data, v.data, alpha.data}
    }

    constructor (width: nat, height: nat, hasAlpha: bool, strideY: nat, strideUV: nat)
      requires width <= strideY && (width + 1) / 2 <= strideUV
      ensures Valid() && fresh(Bytes())
      ensures this.width == width && this.height == height && this.hasAlpha == hasAlpha
      ensures Shows([])
    {
      this.width, this.height, this.hasAlpha := width, height, hasAlpha;
      luma := new Plane(strideY, height);
      u := new Plane(strideUV, (height + 1) / 2);
      v := new Plane(strideUV, (height + 1) / 2);
      alpha := new Plane(strideY, if hasAlpha then height else 0);
    }

    /** Every byte of the planes is the picture of these squares. */
    ghost predicate Shows(squares: seq<Square>)
      requires Valid()
      reads Bytes()
    {
      && luma.Shows(squares, width, height, Y) && alpha.Shows(squares, width, height, A)
      && u.Shows(squares, width, height, U) && v.Shows(squares, width, height, V)
    }
  }

  predicate Inside(s: Square, side: nat, width: nat, height: nat) {
    s.x + side <= width && s.y + side <= height
  }

  /** The modulus keeps every square inside the frame, for any resolution and any move. */
  lemma MovedIsInside(s: Square, m: Move, width: nat, height: nat)
    requires width > 0 && height > 0
    ensures Inside(Moved(s, m, width, height), Side(s, width, height), width, height)
    ensures Side(Moved(s, m, width, height), width, height) == Side(s, width, height)
  {
  }

  /** Draws on a plane of full resolution. */
  method DrawFull(plane: Plane, s: Square, side: nat, value: Byte)
    requires plane.Valid() && s.x + side <= plane.stride && s.y + side <= plane.rows
    modifies plane.data
    ensures forall x, y | 0 <= x < plane.stride && 0 <= y < plane.rows ::
              plane.Pixel(x, y) == if Covers(s, side, x, y) then value else old(plane.Pixel(x, y))
  {
    var y := s.y;
    while y < s.y + side
      invariant s.y <= y <= s.y + side
      invariant forall px, py | 0 <= px < plane.stride && 0 <= py < plane.rows ::
                  plane.Pixel(px, py) ==
                  if s.x <= px < s.x + side && s.y <= py < y then value else old(plane.Pixel(px, py))
    {
      plane.FillRow(s.x, y, side, value);
      y := y + 1;
    }
  }

  /** Draws on a plane of half resolution. */
  method DrawChroma(plane: Plane, s: Square, side: nat, value: Byte)
    requires plane.Valid() && s.x / 2 + side / 2 <= plane.stride && s.y / 2 + (side + 1) / 2 <= plane.rows
    modifies plane.data
    ensures forall x, y | 0 <= x < plane.stride && 0 <= y < plane.rows ::
              plane.Pixel(x, y) == if CoversChroma(s, side, x, y) then value else old(plane.Pixel(x, y))
  {
    var y, k := s.y, 0;
    while y < s.y + side
      invariant y == s.y + 2 * k && k <= (side + 1) / 2
      invariant forall px, py | 0 <= px < plane.stride && 0 <= py < plane.rows ::
                  plane.Pixel(px, py) ==
                  if s.x / 2 <= px < s.x / 2 + side / 2 && s.y / 2 <= py < s.y / 2 + k then value
                  else old(plane.Pixel(px, py))
    {
      plane.FillRow(s.x / 2, y / 2, side / 2, value);
      y, k := y + 2, k + 1;
    }
  }

  /** One plane, with one more square on top of its picture. */
  method DrawPlane(plane: Plane, s: Square, ch: Channel, width: nat, height: nat, ghost below: seq<Square>)
    requires plane.Valid() && plane.Shows(below, width, height, ch)
    requires Inside(s, Side(s, width, height), width, height)
    requires if ch.U? || ch.V? then (width + 1) / 2 <= plane.stride && plane.rows == (height + 1) / 2
             else width <= plane.stride && plane.rows == height
    modifies plane.data
    ensures plane.Shows(below + [s], width, height, ch)
  {
    var side := Side(s, width, height);
    assert (below + [s])[..|below|] == below;
    if ch.U? || ch.V? {
      DrawChroma(plane, s, side, Value(s, ch));
    } else {
      DrawFull(plane, s, side, Value(s, ch));
    }
  }

  /** One square on top of a picture. */
  method Draw(buffer: I420Buffer, s: Square, ghost below: seq<Square>)
    requires buffer.Valid() && Inside(s, Side(s, buffer.width, buffer.height), buffer.width, buffer.height)
    requires buffer.Shows(below)
    modifies buffer.Bytes()
    ensures buffer.Shows(below + [s])
  {
    DrawPlane(buffer.luma, s, Y, buffer.width, buffer.height, below);
    DrawPlane(buffer.u, s, U, buffer.width, buffer.height, below);
    DrawPlane(buffer.v, s, V, buffer.width, buffer.height, below);
    if buffer.hasAlpha {
      DrawPlane(buffer.alpha, s, A, buffer.width, buffer.height, below);
    }
  }

  class SquareGenerator {
    var width: nat
    var height: nat
    var squares: seq<Square>

    ghost predicate Valid()
      reads this
    {
      width > 0 && height > 0
    }

    constructor (width: nat, height: nat, squares: seq<Square>)
      requires width > 0 && height > 0
      ensures Valid() && this.width == width && this.height == height && this.squares == squares
    {
      this.width, this.height, this.squares := width, height, squares;
    }

    method ChangeResolution(newWidth: nat, newHeight: nat)
      requires newWidth > 0 && newHeight > 0
      modifies this`width, this`height
      ensures Valid() && width == newWidth && height == newHeight
    {
      width, height := newWidth, newHeight;
    }

    /** The first half of drawing one square: it moves, and stays inside the frame. */
    method MoveSquare(i: nat, m: Move) returns (s: Square)
      requires Valid() && i < |squares|
      modifies this`squares
      ensures s == Moved(old(squares)[i], m, width, height) && squares == old(squares)[i := s]
      ensures Inside(s, Side(s, width, height), width, height)
    {
      s := Moved(squares[i], m, width, height);
      MovedIsInside(squares[i], m, width, height);
      squares := squares[i := s];
    }

    /** Moves every square, at random, and paints them in order on a fresh grey frame. Every write
        stays inside its plane, and the frame shows exactly the picture of the moved squares. */
    method NextFrame(moves: seq<Move>, withAlpha: bool) returns (buffer: I420Buffer)
      requires Valid() && |moves| == |squares|
      modifies this`squares
      ensures Valid() && |squares| == |old(squares)|
      ensures forall j | 0 <= j < |squares| :: squares[j] == Moved(old(squares)[j], moves[j], width, height)
      ensures buffer.Valid() && buffer.width == width && buffer.height == height && buffer.hasAlpha == withAlpha
      ensures buffer.Shows(squares)
    {
      buffer := new I420Buffer(width, height, withAlpha, width, (width + 1) / 2);
      var i := 0;
      while i < |squares|
        invariant 0 <= i <= |squares| == |old(squares)|
        invariant forall j | 0 <= j < i :: squares[j] == Moved(old(squares)[j], moves[j], width, height)
        invariant forall j | i <= j < |squares| :: squares[j] == old(squares)[j]
        invariant buffer.Shows(squares[..i])
        invariant fresh(buffer.Bytes())
      {
        ghost var below := squares[..i];
        var s := MoveSquare(i, moves[i]);
        Draw(buffer, s, below);
        assert squares[..i + 1] == below + [s];
        i := i + 1;
      }
      assert squares[..i] == squares;
    }
  }
}
