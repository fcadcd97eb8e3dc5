/** The grid as a value, and the cell and port primitives of keiko.c as
    functions on it. The imperative `Engine.Grid` class is proved against
    these functions. */
module Board {
  import opened Codec

  const HOR: int := 35
  const VER: int := 25
  /** Capacity of the cell arrays (keiko.h `MAXSZ`). */
  const MAXSZ: int := HOR * VER

  /** The rendering category of a cell (keiko.h `Type`); it never influences
      which operators run. */
  datatype CellType = NoOp | Comment | LeftInput | Operator | RightInput | Output | Selected

  /** The `Grid` record. `seed` is the source's `random` field. */
  datatype GridState = GridState(
    width: int, height: int, length: int, frame: nat, seed: int,
    vars: seq<char>, data: seq<char>, lock: seq<bool>, types: seq<CellType>)

  predicate Wf(g: GridState)
  {
    && 0 <= g.width && 0 <= g.height
    && g.length == g.width * g.height && g.length <= MAXSZ
    && |g.vars| == N_VARS && |g.data| == MAXSZ && |g.lock| == MAXSZ && |g.types| == MAXSZ
  }

  type State = g: GridState | Wf(g) witness Blank(0, 0)

  /** `init_grid`: every cell '.', nothing locked or typed, every variable
      '.', frame 0, seed 1. */
  function Blank(w: int, h: int): (g: GridState)
    requires 0 <= w && 0 <= h && w * h <= MAXSZ
    ensures Wf(g) && Legal(g)
    ensures g.width == w && g.height == h && g.frame == 0 && g.seed == 1
    ensures forall i :: 0 <= i < MAXSZ ==> g.data[i] == '.' && !g.lock[i] && g.types[i] == NoOp
    ensures forall k :: 0 <= k < N_VARS ==> g.vars[k] == '.'
  {
    GridState(w, h, w * h, 0, 1,
              seq(N_VARS, _ => '.'), seq(MAXSZ, _ => '.'),
              seq(MAXSZ, _ => false), seq(MAXSZ, _ => NoOp))
  }

  /** Every cell and every variable slot holds a legal symbol. */
  predicate Legal(g: GridState)
  {
    && (forall i :: 0 <= i < |g.data| ==> IsValidChar(g.data[i]))
    && (forall k :: 0 <= k < |g.vars| ==> IsValidChar(g.vars[k]))
  }

  /** What no operation changes: the dimensions, the frame and the seed. */
  predicate SameShape(g: GridState, r: GridState)
  {
    && r.width == g.width && r.height == g.height && r.length == g.length
    && r.frame == g.frame && r.seed == g.seed
  }

  /** What every operation within a frame keeps: the shape, every lock already
      set, and the legality of every cell and variable. */
  predicate Evolves(g: State, r: State)
  {
    && SameShape(g, r)
    && (forall i :: 0 <= i < MAXSZ && g.lock[i] ==> r.lock[i])
    && (Legal(g) ==> Legal(r))
  }

  lemma EvolvesTransitive(a: State, b: State, c: State)
    requires Evolves(a, b) && Evolves(b, c)
    ensures Evolves(a, c)
  {
  }

  /** `valid_position`. */
  predicate ValidPosition(g: GridState, x: int, y: int)
  {
    x >= 0 && x <= g.width - 1 && y >= 0 && y <= g.height - 1
  }

  lemma IndexBound(w: int, h: int, x: int, y: int)
    requires 0 <= x < w && 0 <= y < h
    ensures 0 <= x + y * w < w * h
  {
    assert (h - 1 - y) * w >= 0;
    assert y * w + w <= h * w by {
      assert (h - 1 - y) * w == h * w - y * w - w;
    }
  }

  /** The row-major address `x + y * width` of an on-grid position. */
  function Index(g: State, x: int, y: int): (i: int)
    requires ValidPosition(g, x, y)
    ensures 0 <= i < g.length
  {
    IndexBound(g.width, g.height, x, y);
    x + y * g.width
  }

  lemma MulCancel(y: int, h: int, w: int)
    ensures w > 0 && y * w < h * w ==> y < h
  {
  }

  lemma MulPositive(a: int, b: int)
    ensures a >= 0 && b >= 0 && a * b > 0 ==> a > 0 && b > 0
  {
  }

  /** Quotient and remainder of a row-major address recover its position. */
  lemma DivUnique(x: int, y: int, w: int)
    requires 0 <= x < w
    ensures (x + y * w) / w == y && (x + y * w) % w == x
  {
    var i := x + y * w;
    var q, r := i / w, i % w;
    assert i == q * w + r;
    assert (y + 1) * w == y * w + w;
    assert (q + 1) * w == q * w + w;
    MulCancel(q, y + 1, w);
    MulCancel(y, q + 1, w);
  }

  /** The scan's decomposition `x = i % width`, `y = i / width` of an address
      names an on-grid position whose address is `i`. */
  lemma IndexOf(g: State, i: int)
    requires 0 <= i < g.length
    ensures g.width > 0
    ensures ValidPosition(g, i % g.width, i / g.width)
    ensures Index(g, i % g.width, i / g.width) == i
  {
    MulPositive(g.width, g.height);
    var w := g.width;
    var y := i / w;
    assert y * w <= i;
    MulCancel(y, g.height, w);
  }

  /** Distinct on-grid positions have distinct addresses. */
  lemma IndexInjective(g: State, x1: int, y1: int, x2: int, y2: int)
    requires ValidPosition(g, x1, y1) && ValidPosition(g, x2, y2)
    requires Index(g, x1, y1) == Index(g, x2, y2)
    ensures x1 == x2 && y1 == y2
  {
    DivUnique(x1, y1, g.width);
    DivUnique(x2, y2, g.width);
  }

  /** `get_cell`: off-grid reads give the empty symbol. */
  function GetCell(g: State, x: int, y: int): (c: char)
    ensures !ValidPosition(g, x, y) ==> c == '.'
    ensures Legal(g) ==> IsValidChar(c)
  {
    if ValidPosition(g, x, y) then g.data[Index(g, x, y)] else '.'
  }

  /** Every cell reads the same in `g` and `r`. */
  ghost predicate SameCells(g: State, r: State)
  {
    forall a, b {:trigger GetCell(r, a, b)} :: GetCell(r, a, b) == GetCell(g, a, b)
  }

  /** `set_cell`: writes `c` when the position is on the grid and `c` passes
      the legality filter, and otherwise changes nothing. */
  function SetCell(g: State, x: int, y: int, c: char): (r: State)
    ensures Evolves(g, r)
    ensures r.lock == g.lock && r.types == g.types && r.vars == g.vars
    ensures !(ValidPosition(g, x, y) && IsValidChar(c)) ==> r == g
    ensures ValidPosition(g, x, y) && IsValidChar(c) ==>
              GetCell(r, x, y) == c &&
              forall j :: 0 <= j < MAXSZ && j != Index(g, x, y) ==> r.data[j] == g.data[j]
  {
    if ValidPosition(g, x, y) && IsValidChar(c) then g.(data := g.data[Index(g, x, y) := c]) else g
  }

  /** `get_type`: off-grid cells read as `NoOp`. */
  function GetType(g: State, x: int, y: int): (t: CellType)
    ensures !ValidPosition(g, x, y) ==> t == NoOp
  {
    if ValidPosition(g, x, y) then g.types[Index(g, x, y)] else NoOp
  }

  /** `set_type`: recolours one on-grid cell. */
  function SetType(g: State, x: int, y: int, t: CellType): (r: State)
    ensures Evolves(g, r) && SameCells(g, r)
    ensures r.data == g.data && r.lock == g.lock && r.vars == g.vars
    ensures !ValidPosition(g, x, y) ==> r == g
    ensures ValidPosition(g, x, y) ==> r.types == g.types[Index(g, x, y) := t]
  {
    if ValidPosition(g, x, y) then g.(types := g.types[Index(g, x, y) := t]) else g
  }

  /** `set_lock`: locks one on-grid cell; a cell that already has a category
      is re-classified as `Comment`, an uncategorised one stays `NoOp`. */
  function SetLock(g: State, x: int, y: int): (r: State)
    ensures Evolves(g, r) && SameCells(g, r)
    ensures r.data == g.data && r.vars == g.vars
    ensures !ValidPosition(g, x, y) ==> r == g
    ensures ValidPosition(g, x, y) ==>
              && r.lock == g.lock[Index(g, x, y) := true]
              && r.types == g.types[Index(g, x, y) :=
                   if g.types[Index(g, x, y)] != NoOp then Comment else NoOp]
  {
    if ValidPosition(g, x, y) then
      var i := Index(g, x, y);
      g.(lock := g.lock[i := true],
         types := if g.types[i] != NoOp then g.types[i := Comment] else g.types)
    else g
  }

  /** `set_port`: an operator's output. Locks the cell so that it cannot act
      as an operator later in the frame, marks it `Output`, and writes `c`
      through the legality filter. */
  function SetPort(g: State, x: int, y: int, c: char): (r: State)
    ensures Evolves(g, r)
    ensures r.vars == g.vars && r.data == SetCell(g, x, y, c).data
    ensures ValidPosition(g, x, y) && IsValidChar(c) ==> GetCell(r, x, y) == c
    ensures !ValidPosition(g, x, y) ==> r == g
    ensures ValidPosition(g, x, y) ==>
              && r.lock == g.lock[Index(g, x, y) := true]
              && r.types == g.types[Index(g, x, y) := Output]
  {
    if ValidPosition(g, x, y) then
      var i := Index(g, x, y);
      g.(lock := g.lock[i := true], types := g.types[i := Output],
         data := if IsValidChar(c) then g.data[i := c] else g.data)
    else g
  }

  /** `get_port`: an operator's input. A right-hand (locking) read locks the
      cell and marks it `RightInput`; a left-hand read only marks it
      `LeftInput`. The value is what `get_cell` gives. */
  function GetPort(g: State, x: int, y: int, lock: bool): (r: (State, char))
    ensures Evolves(g, r.0) && SameCells(g, r.0)
    ensures r.1 == GetCell(g, x, y)
    ensures r.0.data == g.data && r.0.vars == g.vars
    ensures !(lock && ValidPosition(g, x, y)) ==> r.0.lock == g.lock
    ensures lock && ValidPosition(g, x, y) ==> r.0.lock == g.lock[Index(g, x, y) := true]
    ensures !ValidPosition(g, x, y) ==> r.0 == g
    ensures ValidPosition(g, x, y) ==>
              r.0.types == g.types[Index(g, x, y) := if lock then RightInput else LeftInput]
  {
    if ValidPosition(g, x, y) then
      var i := Index(g, x, y);
      (g.(lock := if lock then g.lock[i := true] else g.lock,
          types := g.types[i := if lock then RightInput else LeftInput]),
       g.data[i])
    else (g, '.')
  }

  /** `set_port` is the call sequence `set_lock`, `set_type(Output)`, `set_cell`. */
  lemma SetPortSequence(g: State, x: int, y: int, c: char)
    ensures SetPort(g, x, y, c) == SetCell(SetType(SetLock(g, x, y), x, y, Output), x, y, c)
  {
  }

  /** `get_port` is `set_lock` (for a locking read) then `set_type`, then
      `get_cell` on the result. */
  lemma GetPortSequence(g: State, x: int, y: int, lock: bool)
    ensures var g1 := if lock then SetType(SetLock(g, x, y), x, y, RightInput)
                      else SetType(g, x, y, LeftInput);
            GetPort(g, x, y, lock) == (g1, GetCell(g1, x, y))
  {
    if ValidPosition(g, x, y) && lock {
      var i := Index(g, x, y);
      var g1 := SetType(SetLock(g, x, y), x, y, RightInput);
      assert g1.types == g.types[i := RightInput];
    }
  }

  /** `get_bang`: one of the four neighbours holds '*'. Off-grid neighbours
      read as '.', so only on-grid cells can deliver a bang. */
  function GetBang(g: State, x: int, y: int): (b: bool)
    ensures b <==>
      || (ValidPosition(g, x - 1, y) && g.data[Index(g, x - 1, y)] == '*')
      || (ValidPosition(g, x + 1, y) && g.data[Index(g, x + 1, y)] == '*')
      || (ValidPosition(g, x, y - 1) && g.data[Index(g, x, y - 1)] == '*')
      || (ValidPosition(g, x, y + 1) && g.data[Index(g, x, y + 1)] == '*')
  {
    || GetCell(g, x - 1, y) == '*'
    || GetCell(g, x + 1, y) == '*'
    || GetCell(g, x, y - 1) == '*'
    || GetCell(g, x, y + 1) == '*'
  }
}
