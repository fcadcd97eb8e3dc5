/** The operator catalog of keiko.c (`op_a` .. `op_z`, `op_comment`,
    `op_midi`, the bang case of `operate`) as functions on the grid value.
    Each one is written as the sequence of port calls the source makes, so
    the imperative methods of `Engine.Grid` can be proved against them. */
module Operators {
  import opened Codec
  import opened Board
  import opened Notes

  /** `if (!v) v = d;`: a zero operand takes its default. */
  function OrDefault(v: int, d: int): (r: int)
    ensures v != 0 ==> r == v
    ensures v == 0 ==> r == d
  {
    if v == 0 then d else v
  }

  /** Only the data cell at `(x, y)` may differ between `g` and `r`. */
  predicate OnlyCellChanged(g: State, r: State, x: int, y: int)
  {
    forall i :: 0 <= i < MAXSZ && r.data[i] != g.data[i] ==> ValidPosition(g, x, y) && i == Index(g, x, y)
  }

  /** A port write into a grid with the cells of `g` changes at most the
      addressed cell of `g`, and leaves a legal symbol there, locked. */
  lemma PortWrite(g: State, h: State, x: int, y: int, c: char)
    requires h.data == g.data && h.width == g.width && h.height == g.height
    ensures OnlyCellChanged(g, SetPort(h, x, y, c), x, y)
    ensures IsValidChar(c) ==> Emits(g, SetPort(h, x, y, c), x, y, c)
    ensures !ValidPosition(g, x, y) ==> SetPort(h, x, y, c).data == g.data
  {
  }

  /** The cell `(x, y)` of `r` holds `c` and is locked, when it is on the grid. */
  predicate Emits(g: State, r: State, x: int, y: int, c: char)
  {
    ValidPosition(g, x, y) ==> GetCell(r, x, y) == c && r.lock[Index(g, x, y)]
  }

  /** Every on-grid cell `(z, y)` with `lo <= z < hi` is locked in `r`. */
  predicate RunLocked(r: State, lo: int, hi: int, y: int)
  {
    forall z :: lo <= z < hi && ValidPosition(r, z, y) ==> r.lock[Index(r, z, y)]
  }

  /** Locks already set stay set. */
  lemma RunLockedEvolves(a: State, b: State, lo: int, hi: int, y: int)
    requires RunLocked(a, lo, hi, y) && Evolves(a, b)
    ensures RunLocked(b, lo, hi, y)
  {
    forall z | lo <= z < hi && ValidPosition(b, z, y)
      ensures b.lock[Index(b, z, y)]
    {
      assert Index(a, z, y) == Index(b, z, y);
    }
  }

  /** A run is locked once its first cell is locked by a step from `g` to
      `a` and the rest of it by the steps from `a` to `r`. */
  lemma RunLockedStep(g: State, a: State, r: State, lo: int, hi: int, y: int)
    requires Evolves(g, a) && Evolves(a, r)
    requires ValidPosition(g, lo, y) ==> a.lock[Index(g, lo, y)]
    requires RunLocked(r, lo + 1, hi, y)
    ensures RunLocked(r, lo, hi, y)
  {
    if ValidPosition(r, lo, y) {
      assert Index(r, lo, y) == Index(g, lo, y);
    }
  }

  /** An operator of the form `a OP b` writing `f(a, b)` below itself. */
  function Binary(g: State, x: int, y: int, f: (char, char) -> char): (r: State)
    ensures Evolves(g, r) && r.vars == g.vars && OnlyCellChanged(g, r, x, y + 1)
    ensures ValidPosition(g, x, y + 1) ==> r.lock[Index(g, x, y + 1)]
    ensures IsValidChar(f(GetCell(g, x - 1, y), GetCell(g, x + 1, y))) ==>
              Emits(g, r, x, y + 1, f(GetCell(g, x - 1, y), GetCell(g, x + 1, y)))
  {
    var g1 := GetPort(g, x - 1, y, false).0;
    var a := GetPort(g, x - 1, y, false).1;
    var g2 := GetPort(g1, x + 1, y, true).0;
    var b := GetPort(g1, x + 1, y, true).1;
    SetPort(g2, x, y + 1, f(a, b))
  }

  /** The symbol `op_a` writes: the sum of the operands' values modulo 36,
      in the case of the right operand. */
  function AddSymbol(a: char, b: char): (r: char)
    ensures IsAlnum(r) && Base36(r) == (Base36(a) + Base36(b)) % N_VARS
    ensures IsLetter(r) ==> (IsUpper(r) <==> IsUpper(b))
  {
    CharOf(Base36(a) + Base36(b), b)
  }

  /** `op_a`, add. */
  function Add(g: State, x: int, y: int): (r: State)
    ensures Evolves(g, r) && r.vars == g.vars && OnlyCellChanged(g, r, x, y + 1)
    ensures Emits(g, r, x, y + 1, AddSymbol(GetCell(g, x - 1, y), GetCell(g, x + 1, y)))
  {
    Binary(g, x, y, AddSymbol)
  }

  /** The symbol `op_b` writes: the distance between the operands' values
      (`cchr` folds the sign, so it never wraps), in the right operand's case. */
  function SubtractSymbol(a: char, b: char): (r: char)
    ensures IsAlnum(r) && Base36(r) == Abs(Base36(a) - Base36(b))
    ensures IsLetter(r) ==> (IsUpper(r) <==> IsUpper(b))
  {
    CharOf(Base36(a) - Base36(b), b)
  }

  /** `op_b`, subtract. */
  function Subtract(g: State, x: int, y: int): (r: State)
    ensures Evolves(g, r) && r.vars == g.vars && OnlyCellChanged(g, r, x, y + 1)
    ensures Emits(g, r, x, y + 1, SubtractSymbol(GetCell(g, x - 1, y), GetCell(g, x + 1, y)))
  {
    Binary(g, x, y, SubtractSymbol)
  }

  /** The symbol `op_f` writes: a bang exactly when the operands are the same
      symbol, and '.' otherwise. */
  function IfSymbol(a: char, b: char): (r: char)
    ensures r == '*' <==> a == b
    ensures r == '*' || r == '.'
  {
    if a == b then '*' else '.'
  }

  /** `op_f`, if. */
  function If(g: State, x: int, y: int): (r: State)
    ensures Evolves(g, r) && r.vars == g.vars && OnlyCellChanged(g, r, x, y + 1)
    ensures Emits(g, r, x, y + 1, IfSymbol(GetCell(g, x - 1, y), GetCell(g, x + 1, y)))
  {
    Binary(g, x, y, IfSymbol)
  }

  /** The symbol `op_l` writes: whichever operand has the smaller value, as
      written; ties give the right operand. */
  function LessSymbol(a: char, b: char): (r: char)
    ensures r == a || r == b
    ensures Base36(r) <= Base36(a) && Base36(r) <= Base36(b)
    ensures Base36(a) == Base36(b) ==> r == b
  {
    if Base36(a) < Base36(b) then a else b
  }

  /** `op_l`, less. On a legal grid both operands pass the write filter. */
  function Less(g: State, x: int, y: int): (r: State)
    ensures Evolves(g, r) && r.vars == g.vars && OnlyCellChanged(g, r, x, y + 1)
    ensures Legal(g) ==> Emits(g, r, x, y + 1, LessSymbol(GetCell(g, x - 1, y), GetCell(g, x + 1, y)))
  {
    Binary(g, x, y, LessSymbol)
  }

  /** The symbol `op_m` writes: the product modulo 36, in the right operand's case. */
  function MultiplySymbol(a: char, b: char): (r: char)
    ensures IsAlnum(r) && Base36(r) == Base36(a) * Base36(b) % N_VARS
    ensures IsLetter(r) ==> (IsUpper(r) <==> IsUpper(b))
  {
    MulNonneg(Base36(a), Base36(b));
    CharOf(Base36(a) * Base36(b), b)
  }

  /** `op_m`, multiply. */
  function Multiply(g: State, x: int, y: int): (r: State)
    ensures Evolves(g, r) && r.vars == g.vars && OnlyCellChanged(g, r, x, y + 1)
    ensures Emits(g, r, x, y + 1, MultiplySymbol(GetCell(g, x - 1, y), GetCell(g, x + 1, y)))
  {
    Binary(g, x, y, MultiplySymbol)
  }

  /** `frame / rate % mod`, the value `op_c` shows. */
  function ClockPhase(frame: nat, rate: int, mod: int): (v: int)
    requires rate > 0 && mod > 0
    ensures 0 <= v < mod
  {
    frame / rate % mod
  }

  /** The symbol `op_c` writes on frame `frame`: its phase, with rate 1 and
      mod 8 for zero operands, in the case of the mod operand. */
  function ClockSymbol(frame: nat, rate: char, mod: char): (r: char)
    ensures IsAlnum(r)
    ensures Base36(r) == ClockPhase(frame, OrDefault(Base36(rate), 1), OrDefault(Base36(mod), 8))
    ensures IsLetter(r) ==> (IsUpper(r) <==> IsUpper(mod))
  {
    CharOf(ClockPhase(frame, OrDefault(Base36(rate), 1), OrDefault(Base36(mod), 8)), mod)
  }

  /** `op_c`, clock. The frame is the one the port reads leave unchanged. */
  function Clock(g: State, x: int, y: int): (r: State)
    ensures Evolves(g, r) && r.vars == g.vars && OnlyCellChanged(g, r, x, y + 1)
    ensures Emits(g, r, x, y + 1, ClockSymbol(g.frame, GetCell(g, x - 1, y), GetCell(g, x + 1, y)))
  {
    Binary(g, x, y, (rate, mod) => ClockSymbol(g.frame, rate, mod))
  }

  /** The symbol `op_d` writes on frame `frame`: a bang exactly on the frames
      divisible by `rate * mod` (1 and 8 for zero operands). */
  function DelaySymbol(frame: nat, rate: char, mod: char): (r: char)
    ensures r == '*' || r == '.'
    ensures r == '*' <==> frame % (OrDefault(Base36(rate), 1) * OrDefault(Base36(mod), 8)) == 0
  {
    MulPositive(OrDefault(Base36(rate), 1), OrDefault(Base36(mod), 8));
    if frame % (OrDefault(Base36(rate), 1) * OrDefault(Base36(mod), 8)) == 0 then '*' else '.'
  }

  /** `op_d`, delay. */
  function Delay(g: State, x: int, y: int): (r: State)
    ensures Evolves(g, r) && r.vars == g.vars && OnlyCellChanged(g, r, x, y + 1)
    ensures Emits(g, r, x, y + 1, DelaySymbol(g.frame, GetCell(g, x - 1, y), GetCell(g, x + 1, y)))
  {
    Binary(g, x, y, (rate, mod) => DelaySymbol(g.frame, rate, mod))
  }

  datatype Direction = East | North | South | West

  /** The cell one step from `(x, y)` in direction `d`. */
  function Neighbour(x: int, y: int, d: Direction): (int, int)
  {
    match d
    case East => (x + 1, y)
    case North => (x, y - 1)
    case South => (x, y + 1)
    case West => (x - 1, y)
  }

  /** The guard of `op_e`, `op_n`, `op_s`, `op_w`: the step would leave the
      grid, or the next cell is not empty. */
  predicate Blocked(g: State, x: int, y: int, d: Direction)
  {
    match d
    case East => x >= g.width - 1 || GetCell(g, x + 1, y) != '.'
    case North => y <= 0 || GetCell(g, x, y - 1) != '.'
    case South => y >= g.height - 1 || GetCell(g, x, y + 1) != '.'
    case West => x <= 0 || GetCell(g, x - 1, y) != '.'
  }

  /** `op_e`, `op_n`, `op_s`, `op_w`: a blocked mover turns into a bang;
      otherwise it empties its cell and writes its own symbol `c` (case kept)
      one step on, locked so that it does not move again this frame. */
  function Move(g: State, x: int, y: int, c: char, d: Direction): (r: State)
    ensures Evolves(g, r) && r.vars == g.vars
  {
    var g1 :=
      if Blocked(g, x, y, d) then SetCell(g, x, y, '*')
      else
        var (nx, ny) := Neighbour(x, y, d);
        SetType(SetPort(SetCell(g, x, y, '.'), nx, ny, c), nx, ny, NoOp);
    SetType(g1, x, y, NoOp)
  }

  /** `op_g`, generator: copies `len` locked inputs east of itself to the
      row below, shifted by `(px, py)`. */
  function Generator(g: State, x: int, y: int): (r: State)
    ensures Evolves(g, r) && r.vars == g.vars
  {
    var g1 := GetPort(g, x - 3, y, false).0;
    var px := GetPort(g, x - 3, y, false).1;
    var g2 := GetPort(g1, x - 2, y, false).0;
    var py := GetPort(g1, x - 2, y, false).1;
    var g3 := GetPort(g2, x - 1, y, false).0;
    var len := GetPort(g2, x - 1, y, false).1;
    GenerateFrom(g3, x, y, Base36(px), Base36(py), OrDefault(Base36(len), 1), 0)
  }

  /** Iteration `i` of the loop of `op_g`: a locking read of input
      `(x + 1 + i, y)`, written to `(x + i + px, y + 1 + py)`. */
  function GenerateNext(g: State, x: int, y: int, px: int, py: int, i: int): (r: State)
    ensures Evolves(g, r) && r.vars == g.vars
    ensures ValidPosition(g, x + 1 + i, y) ==> r.lock[Index(g, x + 1 + i, y)]
  {
    var g1 := GetPort(g, x + 1 + i, y, true).0;
    var v := GetPort(g, x + 1 + i, y, true).1;
    SetPort(g1, x + i + px, y + 1 + py, v)
  }

  /** Iterations `i .. n - 1` of the loop of `op_g`; every input read is
      locked. */
  function GenerateFrom(g: State, x: int, y: int, px: int, py: int, n: int, i: int): (r: State)
    ensures Evolves(g, r) && r.vars == g.vars
    ensures RunLocked(r, x + 1 + i, x + 1 + n, y)
    decreases n - i
  {
    if i >= n then g
    else
      var g1 := GetPort(g, x + 1 + i, y, true).0;
      var v := GetPort(g, x + 1 + i, y, true).1;
      var r := GenerateFrom(SetPort(g1, x + i + px, y + 1 + py, v), x, y, px, py, n, i + 1);
      RunLockedStep(g, g1, r, x + 1 + i, x + 1 + n, y);
      r
  }

  /** One iteration of the loop of `op_g`. */
  lemma GenerateStep(g: State, x: int, y: int, px: int, py: int, n: int, i: int, g1: State, v: char, g2: State)
    requires i < n && (g1, v) == GetPort(g, x + 1 + i, y, true) && g2 == SetPort(g1, x + i + px, y + 1 + py, v)
    ensures GenerateFrom(g, x, y, px, py, n, i) == GenerateFrom(g2, x, y, px, py, n, i + 1)
  {
  }

  /** `op_h`, halt: locks the cell below so that it cannot act this frame. */
  function Halt(g: State, x: int, y: int): (r: State)
    ensures Evolves(g, r) && r.vars == g.vars && r.data == g.data
    ensures ValidPosition(g, x, y + 1) ==> r.lock[Index(g, x, y + 1)]
  {
    GetPort(g, x, y + 1, true).0
  }

  /** An operator reading a left operand, a locked right operand and the
      locked cell below itself, and writing `f` of the three below itself. */
  function Ternary(g: State, x: int, y: int, f: (char, char, char) -> char): (r: State)
    ensures Evolves(g, r) && r.vars == g.vars && OnlyCellChanged(g, r, x, y + 1)
    ensures ValidPosition(g, x, y + 1) ==> r.lock[Index(g, x, y + 1)]
    ensures IsValidChar(f(GetCell(g, x - 1, y), GetCell(g, x + 1, y), GetCell(g, x, y + 1))) ==>
              Emits(g, r, x, y + 1, f(GetCell(g, x - 1, y), GetCell(g, x + 1, y), GetCell(g, x, y + 1)))
  {
    var g1 := GetPort(g, x - 1, y, false).0;
    var a := GetPort(g, x - 1, y, false).1;
    var g2 := GetPort(g1, x + 1, y, true).0;
    var b := GetPort(g1, x + 1, y, true).1;
    var g3 := GetPort(g2, x, y + 1, true).0;
    var v := GetPort(g2, x, y + 1, true).1;
    PortWrite(g, g3, x, y + 1, f(a, b, v));
    SetPort(g3, x, y + 1, f(a, b, v))
  }

  lemma SmallMod(v: int, m: int)
    requires 0 <= v < m
    ensures v % m == v
  {
  }

  /** The symbol `op_i` writes: `(val + rate) % mod` (rate 1 and mod 36 for
      zero operands), in the case of the mod operand. */
  function IncrementSymbol(rate: char, mod: char, val: char): (r: char)
    ensures IsAlnum(r)
    ensures Base36(r) == (Base36(val) + OrDefault(Base36(rate), 1)) % OrDefault(Base36(mod), N_VARS)
    ensures IsLetter(r) ==> (IsUpper(r) <==> IsUpper(mod))
  {
    var v := (Base36(val) + OrDefault(Base36(rate), 1)) % OrDefault(Base36(mod), N_VARS);
    SmallMod(v, N_VARS);
    CharOf(v, mod)
  }

  /** `op_i`, increment. */
  function Increment(g: State, x: int, y: int): (r: State)
    ensures Evolves(g, r) && r.vars == g.vars && OnlyCellChanged(g, r, x, y + 1)
    ensures Emits(g, r, x, y + 1, IncrementSymbol(GetCell(g, x - 1, y), GetCell(g, x + 1, y), GetCell(g, x, y + 1)))
  {
    Ternary(g, x, y, IncrementSymbol)
  }

  /** The loop of `op_j` from row `r` on: the first row at or below `r`
      whose cell in column `x` is off the grid or does not hold `c`. */
  function JumpDown(g: State, x: int, c: char, r: int): (k: int)
    ensures k >= r
    ensures k >= g.height || GetCell(g, x, k) != c
    ensures k == r || k <= g.height
    ensures forall z :: r <= z < k ==> GetCell(g, x, z) == c
    decreases g.height - r
  {
    if r < g.height && GetCell(g, x, r) == c then JumpDown(g, x, c, r + 1) else r
  }

  /** One iteration of the loop of `op_j` that moves on. */
  lemma JumpDownStep(g: State, x: int, c: char, r: int)
    requires r < g.height && GetCell(g, x, r) == c
    ensures JumpDown(g, x, c, r) == JumpDown(g, x, c, r + 1)
  {
  }

  /** The loop of `op_j` stops at a cell off the grid or unlike `c`. */
  lemma JumpDownStop(g: State, x: int, c: char, r: int)
    requires r >= g.height || GetCell(g, x, r) != c
    ensures JumpDown(g, x, c, r) == r
  {
  }

  /** `JumpDown` reads the grid only through its cells and height. */
  lemma {:induction false} JumpDownSameCells(g: State, h: State, x: int, c: char, r: int)
    requires SameCells(g, h) && h.height == g.height
    ensures JumpDown(h, x, c, r) == JumpDown(g, x, c, r)
    decreases g.height - r
  {
    if r < g.height && GetCell(g, x, r) == c {
      JumpDownSameCells(g, h, x, c, r + 1);
    }
  }

  /** `op_j`, jumper: passes the symbol above down through the run of cells
      holding the jumper's own symbol `c`, into the first cell after it; past
      the bottom edge, or when the symbol above is `c` itself, no symbol
      changes. */
  function Jumper(g: State, x: int, y: int, c: char): (r: State)
    ensures Evolves(g, r) && r.vars == g.vars
    ensures var ty, link := JumpDown(g, x, c, y + 1), GetCell(g, x, y - 1);
            && (link != c ==> OnlyCellChanged(g, r, x, ty))
            && (link != c && Legal(g) ==> Emits(g, r, x, ty, link))
            && (link == c || !ValidPosition(g, x, ty) ==> r.data == g.data)
  {
    var g1 := GetPort(g, x, y - 1, false).0;
    var link := GetPort(g, x, y - 1, false).1;
    JumpDownSameCells(g, g1, x, c, y + 1);
    Relay(g, g1, x, JumpDown(g1, x, c, y + 1), link, c)
  }

  /** The loop of `op_y` from column `k` on: the first column at or east of
      `k` whose cell in row `y` is off the grid or does not hold `c`. */
  function JumpRight(g: State, y: int, c: char, k: int): (r: int)
    ensures r >= k
    ensures r >= g.width || GetCell(g, r, y) != c
    ensures r == k || r <= g.width
    ensures forall z :: k <= z < r ==> GetCell(g, z, y) == c
    decreases g.width - k
  {
    if k < g.width && GetCell(g, k, y) == c then JumpRight(g, y, c, k + 1) else k
  }

  /** One iteration of the loop of `op_y` that moves on. */
  lemma JumpRightStep(g: State, y: int, c: char, k: int)
    requires k < g.width && GetCell(g, k, y) == c
    ensures JumpRight(g, y, c, k) == JumpRight(g, y, c, k + 1)
  {
  }

  /** The loop of `op_y` stops at a cell off the grid or unlike `c`. */
  lemma JumpRightStop(g: State, y: int, c: char, k: int)
    requires k >= g.width || GetCell(g, k, y) != c
    ensures JumpRight(g, y, c, k) == k
  {
  }

  /** `JumpRight` reads the grid only through its cells and width. */
  lemma {:induction false} JumpRightSameCells(g: State, h: State, y: int, c: char, k: int)
    requires SameCells(g, h) && h.width == g.width
    ensures JumpRight(h, y, c, k) == JumpRight(g, y, c, k)
    decreases g.width - k
  {
    if k < g.width && GetCell(g, k, y) == c {
      JumpRightSameCells(g, h, y, c, k + 1);
    }
  }

  /** `op_y`, jymper: passes the symbol to the west east through the run of
      cells holding `c`, into the first cell after it; past the east edge,
      or when the western symbol is `c` itself, no symbol changes. */
  function Jymper(g: State, x: int, y: int, c: char): (r: State)
    ensures Evolves(g, r) && r.vars == g.vars
    ensures var tx, link := JumpRight(g, y, c, x + 1), GetCell(g, x - 1, y);
            && (link != c ==> OnlyCellChanged(g, r, tx, y))
            && (link != c && Legal(g) ==> Emits(g, r, tx, y, link))
            && (link == c || !ValidPosition(g, tx, y) ==> r.data == g.data)
  {
    var g1 := GetPort(g, x - 1, y, false).0;
    var link := GetPort(g, x - 1, y, false).1;
    JumpRightSameCells(g, g1, y, c, x + 1);
    Relay(g, g1, JumpRight(g1, y, c, x + 1), y, link, c)
  }

  /** The end of a jumper: `link` goes to `(tx, ty)` unless it is the
      jumper's own symbol `c`. */
  function Relay(g: State, g1: State, tx: int, ty: int, link: char, c: char): (r: State)
    requires Evolves(g, g1) && g1.data == g.data && g1.vars == g.vars
    ensures Evolves(g, r) && r.vars == g.vars
    ensures link != c ==> OnlyCellChanged(g, r, tx, ty)
    ensures link != c && IsValidChar(link) ==> Emits(g, r, tx, ty, link)
    ensures link == c || !ValidPosition(g, tx, ty) ==> r.data == g.data
  {
    if link != c then
      PortWrite(g, g1, tx, ty, link);
      SetPort(g1, tx, ty, link)
    else g1
  }

  /** `op_k`, konkat: for each of `len` locked keys east of itself that is
      not '.', writes the variable the key names below the key. */
  function Konkat(g: State, x: int, y: int): (r: State)
    ensures Evolves(g, r) && r.vars == g.vars
  {
    var g1 := GetPort(g, x - 1, y, false).0;
    var len := GetPort(g, x - 1, y, false).1;
    KonkatFrom(g1, x, y, OrDefault(Base36(len), 1), 0)
  }

  /** Iteration `i` of the loop of `op_k`: a locking read of key
      `(x + 1 + i, y)` and, when it is not '.', the variable it names
      written below it. */
  function KonkatNext(g: State, x: int, y: int, i: int): (r: State)
    ensures Evolves(g, r) && r.vars == g.vars
    ensures ValidPosition(g, x + 1 + i, y) ==> r.lock[Index(g, x + 1 + i, y)]
  {
    var g1 := GetPort(g, x + 1 + i, y, true).0;
    var key := GetPort(g, x + 1 + i, y, true).1;
    if key != '.' then SetPort(g1, x + 1 + i, y + 1, g1.vars[Base36(key)]) else g1
  }

  /** Iterations `i .. n - 1` of the loop of `op_k`; every key read is locked. */
  function KonkatFrom(g: State, x: int, y: int, n: int, i: int): (r: State)
    ensures Evolves(g, r) && r.vars == g.vars
    ensures RunLocked(r, x + 1 + i, x + 1 + n, y)
    decreases n - i
  {
    if i >= n then g
    else
      var g1 := GetPort(g, x + 1 + i, y, true).0;
      var key := GetPort(g, x + 1 + i, y, true).1;
      var g2 := if key != '.' then SetPort(g1, x + 1 + i, y + 1, g1.vars[Base36(key)]) else g1;
      var r := KonkatFrom(g2, x, y, n, i + 1);
      RunLockedStep(g, g1, r, x + 1 + i, x + 1 + n, y);
      r
  }

  /** One iteration of the loop of `op_k`. */
  lemma KonkatStep(g: State, x: int, y: int, n: int, i: int, g1: State, key: char, g2: State)
    requires i < n && (g1, key) == GetPort(g, x + 1 + i, y, true)
    requires g2 == if key != '.' then SetPort(g1, x + 1 + i, y + 1, g1.vars[Base36(key)]) else g1
    ensures KonkatFrom(g, x, y, n, i) == KonkatFrom(g2, x, y, n, i + 1)
  {
  }

  /** The copy `set_port(x, y, get_port(sx, sy, 1))` that `op_o` and `op_t`
      end with: a locking read of `(sx, sy)` written to `(x, y)`. */
  function Copy(g: State, sx: int, sy: int, x: int, y: int): (r: State)
    ensures Evolves(g, r) && r.vars == g.vars && OnlyCellChanged(g, r, x, y)
    ensures ValidPosition(g, x, y) ==> r.lock[Index(g, x, y)]
    ensures Legal(g) ==> Emits(g, r, x, y, GetCell(g, sx, sy))
  {
    var g1 := GetPort(g, sx, sy, true).0;
    var v := GetPort(g, sx, sy, true).1;
    SetPort(g1, x, y, v)
  }

  /** `op_o`, read: copies the locked cell at offset `(px + 1, py)` below itself. */
  function Read(g: State, x: int, y: int): (r: State)
    ensures Evolves(g, r) && r.vars == g.vars && OnlyCellChanged(g, r, x, y + 1)
    ensures Legal(g) ==>
              Emits(g, r, x, y + 1, GetCell(g, Offset(x + 1, GetCell(g, x - 2, y)), Offset(y, GetCell(g, x - 1, y))))
  {
    var g1 := GetPort(g, x - 2, y, false).0;
    var px := GetPort(g, x - 2, y, false).1;
    var g2 := GetPort(g1, x - 1, y, false).0;
    var py := GetPort(g1, x - 1, y, false).1;
    Copy(g2, Offset(x + 1, px), Offset(y, py), x, y + 1)
  }

  /** The coordinate `base` moved on by the value of the operand `c`, as
      the offset operators place their reads and writes. */
  function Offset(base: int, c: char): int
  {
    base + Base36(c)
  }

  /** The position `key % len` (len 1 for a zero operand) within the run of
      `op_p` and `op_t`. */
  function Slot(key: char, len: char): (k: int)
    ensures 0 <= k < OrDefault(Base36(len), 1)
  {
    Base36(key) % OrDefault(Base36(len), 1)
  }

  /** The column `x + key % len` that `op_p` writes to and `op_t` reads. */
  function SlotColumn(x: int, key: char, len: char): int
  {
    x + Slot(key, len)
  }

  /** Locks the `n - i` cells `(x + i, y) .. (x + n - 1, y)`, as the loops of
      `op_p` and `op_t` do. */
  function LockRun(g: State, x: int, y: int, n: int, i: int): (r: State)
    ensures Evolves(g, r) && r.vars == g.vars && r.data == g.data && SameCells(g, r)
    ensures RunLocked(r, x + i, x + n, y)
    decreases n - i
  {
    if i >= n then g
    else
      var g1 := SetLock(g, x + i, y);
      var r := LockRun(g1, x, y, n, i + 1);
      RunLockedStep(g, g1, r, x + i, x + n, y);
      r
  }

  /** `op_p`, push: locks the `len` cells below itself and writes the value
      operand into the one at column `key % len`. */
  function Push(g: State, x: int, y: int): (r: State)
    ensures Evolves(g, r) && r.vars == g.vars
    ensures OnlyCellChanged(g, r, SlotColumn(x, GetCell(g, x - 2, y), GetCell(g, x - 1, y)), y + 1)
    ensures Legal(g) ==> Emits(g, r, SlotColumn(x, GetCell(g, x - 2, y), GetCell(g, x - 1, y)), y + 1, GetCell(g, x + 1, y))
    ensures RunLocked(r, x, x + OrDefault(Base36(GetCell(g, x - 1, y)), 1), y + 1)
  {
    var g1 := GetPort(g, x - 2, y, false).0;
    var key := GetPort(g, x - 2, y, false).1;
    var g2 := GetPort(g1, x - 1, y, false).0;
    var len := GetPort(g1, x - 1, y, false).1;
    var g3 := GetPort(g2, x + 1, y, true).0;
    var val := GetPort(g2, x + 1, y, true).1;
    LockThenPut(g, g3, x, y + 1, OrDefault(Base36(len), 1), SlotColumn(x, key, len), val)
  }

  /** Locks the run `(lx, ly) .. (lx + n - 1, ly)` of `h`, then writes `val`
      at `(tx, ly)`; `h` has the cells of `g`. */
  function LockThenPut(g: State, h: State, lx: int, ly: int, n: int, tx: int, val: char): (r: State)
    requires Evolves(g, h) && h.data == g.data && h.vars == g.vars
    ensures Evolves(g, r) && r.vars == g.vars
    ensures OnlyCellChanged(g, r, tx, ly)
    ensures IsValidChar(val) ==> Emits(g, r, tx, ly, val)
    ensures RunLocked(r, lx, lx + n, ly)
  {
    var h1 := LockRun(h, lx, ly, n, 0);
    PortWrite(g, h1, tx, ly, val);
    var r := SetPort(h1, tx, ly, val);
    RunLockedEvolves(h1, r, lx, lx + n, ly);
    r
  }

  /** `op_q`, query: copies `len` locked cells from offset `(px + 1, py)`
      into the row below, right-aligned to end under the operator's east
      neighbour. */
  function Query(g: State, x: int, y: int): (r: State)
    ensures Evolves(g, r) && r.vars == g.vars
  {
    var g1 := GetPort(g, x - 3, y, false).0;
    var px := GetPort(g, x - 3, y, false).1;
    var g2 := GetPort(g1, x - 2, y, false).0;
    var py := GetPort(g1, x - 2, y, false).1;
    var g3 := GetPort(g2, x - 1, y, false).0;
    var len := GetPort(g2, x - 1, y, false).1;
    QueryFrom(g3, x, y, Offset(x + 1, px), Offset(y, py), OrDefault(Base36(len), 1), 0)
  }

  /** Iterations `i .. n - 1` of the loop of `op_q`, reading from row `sy`
      starting at column `sx`; every input read is locked. */
  function QueryFrom(g: State, x: int, y: int, sx: int, sy: int, n: int, i: int): (r: State)
    ensures Evolves(g, r) && r.vars == g.vars
    ensures RunLocked(r, sx + i, sx + n, sy)
    decreases n - i
  {
    if i >= n then g
    else
      var g1 := GetPort(g, sx + i, sy, true).0;
      var v := GetPort(g, sx + i, sy, true).1;
      var r := QueryFrom(SetPort(g1, x + 1 - n + i, y + 1, v), x, y, sx, sy, n, i + 1);
      RunLockedStep(g, g1, r, sx + i, sx + n, sy);
      r
  }

  /** Iteration `i` of the loop of `op_q`: a locking read of `(sx + i, sy)`,
      written to `(x + 1 - n + i, y + 1)`. */
  function QueryNext(g: State, x: int, y: int, sx: int, sy: int, n: int, i: int): (r: State)
    ensures Evolves(g, r) && r.vars == g.vars
    ensures ValidPosition(g, sx + i, sy) ==> r.lock[Index(g, sx + i, sy)]
  {
    var g1 := GetPort(g, sx + i, sy, true).0;
    var v := GetPort(g, sx + i, sy, true).1;
    SetPort(g1, x + 1 - n + i, y + 1, v)
  }

  /** One iteration of the loop of `op_q`. */
  lemma QueryStep(g: State, x: int, y: int, sx: int, sy: int, n: int, i: int, g1: State, v: char, g2: State)
    requires i < n && (g1, v) == GetPort(g, sx + i, sy, true) && g2 == SetPort(g1, x + 1 - n + i, y + 1, v)
    ensures QueryFrom(g, x, y, sx, sy, n, i) == QueryFrom(g2, x, y, sx, sy, n, i + 1)
  {
  }

  const TWO32: int := 0x1_0000_0000
  const TWO31: int := 0x8000_0000

  /** Conversion of an `int` to `unsigned int`: modulo 2^32. */
  function ToBv32(n: int): bv32
  {
    (n % TWO32) as bv32
  }

  /** The key `op_r` hashes, in unsigned 32-bit arithmetic. */
  function Hash(seed: int, width: int, x: int, y: int, frame: int): bv32
  {
    var k0 := ToBv32(seed + y * width + x) ^ (ToBv32(frame) << 16);
    var k1 := (k0 ^ 61) ^ (k0 >> 16);
    var k2 := k1 + (k1 << 3);
    var k3 := k2 ^ (k2 >> 4);
    var k4 := k3 * 0x27d4eb2d;
    k4 ^ (k4 >> 15)
  }

  /** The bounds of `op_r`: `max` defaults to 36, and `min` is moved one
      below `max` when the two are equal. */
  function RandomBounds(minc: char, maxc: char): (r: (int, int))
    ensures r.1 - r.0 != 0
    ensures 1 <= r.1 <= N_VARS && -1 <= r.0 < N_VARS
    ensures Base36(minc) < OrDefault(Base36(maxc), N_VARS) ==> r.0 == Base36(minc) && r.0 < r.1
  {
    var hi := OrDefault(Base36(maxc), N_VARS);
    var lo := Base36(minc);
    if lo == hi then (hi - 1, hi) else (lo, hi)
  }

  /** `key % (max - min) + min` as C evaluates it: the modulus and the sum in
      `unsigned int`, the result read back as a 32-bit `int` by `cchr`. */
  function RandomValue(key: bv32, lo: int, hi: int): (v: int)
    requires hi != lo && -TWO31 < hi - lo < TWO31
  {
    ModulusNonZero(lo, hi);
    var m := (hi - lo) % TWO32;
    var s := ((key as int) % m + lo % TWO32) % TWO32;
    if s >= TWO31 then s - TWO32 else s
  }

  /** The symbol `op_r` writes at `(x, y)` of a grid with the given seed,
      width and frame: with `min` below `max` (36 for zero) a value in
      `[min, max)`, with `min == max` the value `max - 1`; letters take the case of
      the max operand. */
  function RandomSymbol(seed: int, width: int, frame: nat, x: int, y: int, minc: char, maxc: char): (r: char)
    ensures IsAlnum(r)
    ensures Base36(minc) < OrDefault(Base36(maxc), N_VARS) ==>
              Base36(minc) <= Base36(r) < OrDefault(Base36(maxc), N_VARS)
    ensures Base36(minc) == OrDefault(Base36(maxc), N_VARS) ==> Base36(r) == Base36(minc) - 1
    ensures IsLetter(r) ==> (IsUpper(r) <==> IsUpper(maxc))
  {
    var (lo, hi) := RandomBounds(minc, maxc);
    var key := Hash(seed, width, x, y, frame);
    var v := RandomValue(key, lo, hi);
    if Base36(minc) < hi then
      RandomInRange(key, lo, hi);
      SmallMod(v, N_VARS);
      CharOf(v, maxc)
    else if Base36(minc) == hi then
      RandomDegenerate(key, hi);
      SmallMod(v, N_VARS);
      CharOf(v, maxc)
    else CharOf(v, maxc)
  }

  /** With `min` below `max`, `op_r`'s value lies in `[min, max)`: the
      unsigned arithmetic does not wrap in that case. */
  lemma RandomInRange(key: bv32, lo: int, hi: int)
    requires 0 <= lo < hi <= N_VARS
    ensures lo <= RandomValue(key, lo, hi) < hi
  {
    SmallMod(hi - lo, TWO32);
    SmallMod(lo, TWO32);
    var s := (key as int) % (hi - lo) + lo;
    SmallMod(s, TWO32);
  }

  /** With `min == max`, `op_r` always gives `max - 1`. */
  lemma RandomDegenerate(key: bv32, hi: int)
    requires 1 <= hi <= N_VARS
    ensures RandomValue(key, hi - 1, hi) == hi - 1
  {
    SmallMod(1, TWO32);
    SmallMod(hi - 1, TWO32);
    assert (key as int) % 1 == 0;
  }

  /** `op_r`, random: a value from a hash of the seed, the cell's address and
      the frame. */
  function Random(g: State, x: int, y: int): (r: State)
    ensures Evolves(g, r) && r.vars == g.vars && OnlyCellChanged(g, r, x, y + 1)
    ensures Emits(g, r, x, y + 1, RandomSymbol(g.seed, g.width, g.frame, x, y, GetCell(g, x - 1, y), GetCell(g, x + 1, y)))
  {
    Binary(g, x, y, (minc, maxc) => RandomSymbol(g.seed, g.width, g.frame, x, y, minc, maxc))
  }

  /** The guard at the bounds keeps the unsigned modulus of `op_r` non-zero. */
  lemma ModulusNonZero(lo: int, hi: int)
    requires hi - lo != 0 && -TWO31 < hi - lo < TWO31
    ensures (hi - lo) % TWO32 != 0
  {
  }

  /** `op_t`, track: locks the `len` cells east of itself and copies the one
      at `key % len` below itself. */
  function Track(g: State, x: int, y: int): (r: State)
    ensures Evolves(g, r) && r.vars == g.vars && OnlyCellChanged(g, r, x, y + 1)
    ensures Legal(g) ==> Emits(g, r, x, y + 1, GetCell(g, SlotColumn(x + 1, GetCell(g, x - 2, y), GetCell(g, x - 1, y)), y))
    ensures RunLocked(r, x + 1, x + 1 + OrDefault(Base36(GetCell(g, x - 1, y)), 1), y)
  {
    var g1 := GetPort(g, x - 2, y, false).0;
    var key := GetPort(g, x - 2, y, false).1;
    var g2 := GetPort(g1, x - 1, y, false).0;
    var len := GetPort(g1, x - 1, y, false).1;
    LockThenCopy(g, g2, x + 1, y, OrDefault(Base36(len), 1), SlotColumn(x + 1, key, len), x, y + 1)
  }

  /** Locks the run `(lx, ly) .. (lx + n - 1, ly)` of `h`, then copies the
      cell `(sx, ly)` to `(tx, ty)`; `h` has the cells of `g`. */
  function LockThenCopy(g: State, h: State, lx: int, ly: int, n: int, sx: int, tx: int, ty: int): (r: State)
    requires Evolves(g, h) && h.data == g.data && h.vars == g.vars
    ensures Evolves(g, r) && r.vars == g.vars
    ensures OnlyCellChanged(g, r, tx, ty)
    ensures Legal(g) ==> Emits(g, r, tx, ty, GetCell(g, sx, ly))
    ensures RunLocked(r, lx, lx + n, ly)
  {
    var h1 := LockRun(h, lx, ly, n, 0);
    assert GetCell(h1, sx, ly) == GetCell(g, sx, ly);
    var r := Copy(h1, sx, ly, tx, ty);
    RunLockedEvolves(h1, r, lx, lx + n, ly);
    r
  }

  /** The bucket of `op_u`'s Euclidean rhythm. */
  function Bucket(step: int, max: int, frame: nat): int
    requires max > 0
  {
    (step * (frame + max - 1)) % max + step
  }

  /** The symbol `op_u` writes on frame `frame`: a bang exactly when the
      rhythm bucket overflows (step 1 and max 8 for zero operands). */
  function UclidSymbol(frame: nat, step: char, max: char): (r: char)
    ensures r == '*' || r == '.'
    ensures r == '*' <==> Bucket(OrDefault(Base36(step), 1), OrDefault(Base36(max), 8), frame) >= OrDefault(Base36(max), 8)
  {
    if Bucket(OrDefault(Base36(step), 1), OrDefault(Base36(max), 8), frame) >= OrDefault(Base36(max), 8)
    then '*' else '.'
  }

  /** `op_u`, uclid. */
  function Uclid(g: State, x: int, y: int): (r: State)
    ensures Evolves(g, r) && r.vars == g.vars && OnlyCellChanged(g, r, x, y + 1)
    ensures Emits(g, r, x, y + 1, UclidSymbol(g.frame, GetCell(g, x - 1, y), GetCell(g, x + 1, y)))
  {
    Binary(g, x, y, (step, max) => UclidSymbol(g.frame, step, max))
  }

  /** `op_v`, variable: a non-empty left operand names a slot that takes the
      right operand; otherwise a non-empty right operand names a slot whose
      value is written below. */
  function Variable(g: State, x: int, y: int): (r: State)
    ensures Evolves(g, r) && OnlyCellChanged(g, r, x, y + 1)
    ensures var w, rd := GetCell(g, x - 1, y), GetCell(g, x + 1, y);
            && (w != '.' ==> r.vars == g.vars[Base36(w) := rd] && r.data == g.data)
            && (w == '.' ==> r.vars == g.vars)
            && (w == '.' && rd != '.' && Legal(g) ==> Emits(g, r, x, y + 1, g.vars[Base36(rd)]))
            && (w == '.' && rd == '.' ==> r.data == g.data)
  {
    var g1 := GetPort(g, x - 1, y, false).0;
    var w := GetPort(g, x - 1, y, false).1;
    var g2 := GetPort(g1, x + 1, y, true).0;
    var rd := GetPort(g1, x + 1, y, true).1;
    assert w == GetCell(g, x - 1, y) && rd == GetCell(g, x + 1, y);
    if w != '.' then g2.(vars := g2.vars[Base36(w) := rd])
    else if rd != '.' then SetPort(g2, x, y + 1, g2.vars[Base36(rd)])
    else g2
  }

  /** `op_x`, write: writes the value operand at offset `(px, py + 1)`. */
  function Write(g: State, x: int, y: int): (r: State)
    ensures Evolves(g, r) && r.vars == g.vars
    ensures OnlyCellChanged(g, r, Offset(x, GetCell(g, x - 2, y)), Offset(y + 1, GetCell(g, x - 1, y)))
    ensures Legal(g) ==> Emits(g, r, Offset(x, GetCell(g, x - 2, y)), Offset(y + 1, GetCell(g, x - 1, y)), GetCell(g, x + 1, y))
  {
    var g1 := GetPort(g, x - 2, y, false).0;
    var px := GetPort(g, x - 2, y, false).1;
    var g2 := GetPort(g1, x - 1, y, false).0;
    var py := GetPort(g1, x - 1, y, false).1;
    var g3 := GetPort(g2, x + 1, y, true).0;
    var val := GetPort(g2, x + 1, y, true).1;
    PortWrite(g, g3, Offset(x, px), Offset(y + 1, py), val);
    SetPort(g3, Offset(x, px), Offset(y + 1, py), val)
  }

  /** The step `op_z` takes from `val` towards `target`. */
  function LerpStep(val: int, target: int, rate: int): int
  {
    if val <= target - rate then rate
    else if val >= target + rate then -rate
    else target - val
  }

  /** `op_z`'s step never exceeds the rate, never overshoots the target, and
      lands on the target once it is within reach. */
  lemma LerpStepTowards(v: int, t: int, rate: int)
    requires rate >= 1
    ensures Abs(LerpStep(v, t, rate)) <= rate
    ensures v <= t ==> v <= v + LerpStep(v, t, rate) <= t
    ensures t <= v ==> t <= v + LerpStep(v, t, rate) <= v
    ensures Abs(t - v) <= rate ==> v + LerpStep(v, t, rate) == t
  {
  }

  /** The symbol `op_z` writes: the value below moved one step towards the
      target (rate 1 for a zero operand), in the case of the target. */
  function LerpSymbol(rate: char, target: char, val: char): (r: char)
    ensures IsAlnum(r)
    ensures Base36(r) == Base36(val) + LerpStep(Base36(val), Base36(target), OrDefault(Base36(rate), 1))
    ensures IsLetter(r) ==> (IsUpper(r) <==> IsUpper(target))
  {
    var v := Base36(val) + LerpStep(Base36(val), Base36(target), OrDefault(Base36(rate), 1));
    LerpStepTowards(Base36(val), Base36(target), OrDefault(Base36(rate), 1));
    SmallMod(v, N_VARS);
    CharOf(v, target)
  }

  /** `op_z`, lerp. */
  function Lerp(g: State, x: int, y: int): (r: State)
    ensures Evolves(g, r) && r.vars == g.vars && OnlyCellChanged(g, r, x, y + 1)
    ensures Emits(g, r, x, y + 1, LerpSymbol(GetCell(g, x - 1, y), GetCell(g, x + 1, y), GetCell(g, x, y + 1)))
  {
    Ternary(g, x, y, LerpSymbol)
  }

  /** The bang case of `operate`: a dispatched '*' clears itself. */
  function Bang(g: State, x: int, y: int): (r: State)
    ensures Evolves(g, r) && r.vars == g.vars && OnlyCellChanged(g, r, x, y)
    ensures ValidPosition(g, x, y) ==> GetCell(r, x, y) == '.'
  {
    SetCell(g, x, y, '.')
  }

  /** The loop of `op_comment` from column `k` on: locks each cell of row
      `y` from `k` up to and including the next '#' or the edge of the grid. */
  function CommentFrom(g: State, y: int, k: int): (r: State)
    ensures Evolves(g, r) && r.vars == g.vars && r.data == g.data
    decreases g.width - k
  {
    if k < g.width then
      var g1 := SetLock(g, k, y);
      if GetCell(g1, k, y) == '#' then g1 else CommentFrom(g1, y, k + 1)
    else g
  }

  /** One iteration of the loop of `op_comment`: lock, then stop after a '#'. */
  lemma CommentStep(g: State, y: int, k: int, g1: State)
    requires k < g.width && g1 == SetLock(g, k, y)
    ensures GetCell(g1, k, y) == '#' ==> CommentFrom(g, y, k) == g1
    ensures GetCell(g1, k, y) != '#' ==> CommentFrom(g, y, k) == CommentFrom(g1, y, k + 1)
  {
  }

  /** `op_comment`. */
  function Comment(g: State, x: int, y: int): (r: State)
    ensures Evolves(g, r) && r.vars == g.vars && r.data == g.data
  {
    SetType(CommentFrom(g, y, x + 1), x, y, Board.Comment)
  }

  /** `op_midi`: reads channel, octave, note, velocity and length east of
      itself and, when bang-adjacent, asks the note list for a note. The
      guards `channel == '.'` and `octave == '.'` compare a base-36 value
      with the code of '.', exactly as written; no base-36 value reaches it,
      so they never fire. A control symbol as the note sends nothing. */
  function Midi(g: State, x: int, y: int): (r: (State, Option<Request>))
    requires Legal(g)
    ensures Evolves(g, r.0) && r.0.vars == g.vars && r.0.data == g.data
    ensures var note := GetCell(g, x + 3, y);
            && (r.1.Some? <==> !IsSpecial(note) && GetBang(g, x, y))
            && (r.1.Some? ==>
                  && IsAlnum(note)
                  && r.1.value == NoteRequest(GetCell(g, x + 1, y), GetCell(g, x + 2, y), note,
                                              GetCell(g, x + 4, y), GetCell(g, x + 5, y)))
  {
    var g1 := GetPort(g, x + 1, y, true).0;
    var ch := GetPort(g, x + 1, y, true).1;
    var channel := Base36(ch);
    if channel == '.' as int then (g1, None)
    else
      var g2 := GetPort(g1, x + 2, y, true).0;
      var oc := GetPort(g1, x + 2, y, true).1;
      var octave := Base36(oc);
      if octave == '.' as int then (g2, None)
      else
        var g3 := GetPort(g2, x + 3, y, true).0;
        var note := GetPort(g2, x + 3, y, true).1;
        if IsSpecial(note) then (g3, None)
        else
          assert ch == GetCell(g, x + 1, y) && oc == GetCell(g, x + 2, y) && note == GetCell(g, x + 3, y);
          assert GetBang(g3, x, y) == GetBang(g, x, y);
          MidiSend(g3, x, y, ch, oc, note)
  }

  /** The note `op_midi` requests for its five operands: the channel clamped
      to the 16 voices, the pitch `12 * octave + ctbl(note)`, the velocity
      (35 for '.') and the length clamped to 1..36. */
  function NoteRequest(ch: char, oc: char, note: char, vel: char, len: char): (q: Request)
    requires IsAlnum(note)
    ensures 0 <= q.channel < VOICES && (Base36(ch) < VOICES ==> q.channel == Base36(ch))
    ensures Base36(ch) >= VOICES ==> q.channel == VOICES - 1
    ensures q.value == 12 * Base36(oc) + NoteOf(note)
    ensures q.velocity == (if vel == '.' then N_VARS - 1 else Base36(vel))
    ensures 1 <= q.length <= N_VARS && (Base36(len) >= 1 ==> q.length == Base36(len))
    ensures Base36(len) == 0 ==> q.length == 1
  {
    var velocity := if vel == '.' then 'z' else vel;
    Request(Clamp(Base36(ch), 0, VOICES - 1), 12 * Base36(oc) + NoteOf(note),
            Clamp(Base36(velocity), 0, N_VARS), Clamp(Base36(len), 1, N_VARS))
  }

  /** The second half of `op_midi`, once channel, octave and a note symbol
      are read: velocity and length, then the request when a bang is
      adjacent. */
  function MidiSend(g: State, x: int, y: int, ch: char, oc: char, note: char): (r: (State, Option<Request>))
    requires IsAlnum(note)
    ensures Evolves(g, r.0) && r.0.vars == g.vars && r.0.data == g.data
    ensures r.1.Some? <==> GetBang(g, x, y)
    ensures r.1.Some? ==> r.1.value == NoteRequest(ch, oc, note, GetCell(g, x + 4, y), GetCell(g, x + 5, y))
  {
    var g4 := GetPort(g, x + 4, y, true).0;
    var vel := GetPort(g, x + 4, y, true).1;
    var g5 := GetPort(g4, x + 5, y, true).0;
    var len := GetPort(g4, x + 5, y, true).1;
    assert vel == GetCell(g, x + 4, y) && len == GetCell(g, x + 5, y);
    assert GetBang(g5, x, y) == GetBang(g, x, y);
    if GetBang(g5, x, y) then
      (SetType(g5, x, y, Operator), Some(NoteRequest(ch, oc, note, vel, len)))
    else (SetType(g5, x, y, LeftInput), None)
  }

  /** The operator symbol of the mover in direction `d`. */
  function MoverSymbol(d: Direction): char
  {
    match d
    case East => 'e'
    case North => 'n'
    case South => 's'
    case West => 'w'
  }

  /** The switch of `operate` sends each mover symbol, in either case, to
      the mover of its direction. */
  lemma DispatchMover(g0: State, x: int, y: int, c: char, d: Direction)
    requires Legal(g0) && ToLower(c) == MoverSymbol(d)
    ensures Dispatch(g0, x, y, c) == (Move(g0, x, y, c, d), None)
  {
  }

  /** ':' dispatches to the MIDI operator. */
  lemma DispatchMidi(g0: State, x: int, y: int, c: char)
    requires Legal(g0) && ToLower(c) == ':'
    ensures Dispatch(g0, x, y, c) == Midi(g0, x, y)
  {
  }

  /** `operate`: mark the cell `Operator`, then dispatch on the lower-case
      form of its symbol `c`; an unknown symbol does nothing more. */
  function Operate(g: State, x: int, y: int, c: char): (r: (State, Option<Request>))
    requires Legal(g)
    ensures Evolves(g, r.0)
    ensures r.1.Some? ==> ToLower(c) == ':'
  {
    var g0 := SetType(g, x, y, Operator);
    var r := Dispatch(g0, x, y, c);
    EvolvesTransitive(g, g0, r.0);
    r
  }

  /** The `switch` of `operate`, on a cell already marked `Operator`. */
  function Dispatch(g0: State, x: int, y: int, c: char): (r: (State, Option<Request>))
    requires Legal(g0)
    ensures Evolves(g0, r.0)
    ensures r.1.Some? ==> ToLower(c) == ':'
  {
    var op := ToLower(c);
    if op == 'a' then (Add(g0, x, y), None)
    else if op == 'b' then (Subtract(g0, x, y), None)
    else if op == 'c' then (Clock(g0, x, y), None)
    else if op == 'd' then (Delay(g0, x, y), None)
    else if op == 'e' then (Move(g0, x, y, c, East), None)
    else if op == 'f' then (If(g0, x, y), None)
    else if op == 'g' then (Generator(g0, x, y), None)
    else if op == 'h' then (Halt(g0, x, y), None)
    else if op == 'i' then (Increment(g0, x, y), None)
    else if op == 'j' then (Jumper(g0, x, y, c), None)
    else if op == 'k' then (Konkat(g0, x, y), None)
    else if op == 'l' then (Less(g0, x, y), None)
    else if op == 'm' then (Multiply(g0, x, y), None)
    else if op == 'n' then (Move(g0, x, y, c, North), None)
    else if op == 'o' then (Read(g0, x, y), None)
    else if op == 'p' then (Push(g0, x, y), None)
    else if op == 'q' then (Query(g0, x, y), None)
    else if op == 'r' then (Random(g0, x, y), None)
    else if op == 's' then (Move(g0, x, y, c, South), None)
    else if op == 't' then (Track(g0, x, y), None)
    else if op == 'u' then (Uclid(g0, x, y), None)
    else if op == 'v' then (Variable(g0, x, y), None)
    else if op == 'w' then (Move(g0, x, y, c, West), None)
    else if op == 'x' then (Write(g0, x, y), None)
    else if op == 'y' then (Jymper(g0, x, y, c), None)
    else if op == 'z' then (Lerp(g0, x, y), None)
    else if op == '*' then (Bang(g0, x, y), None)
    else if op == '#' then (Comment(g0, x, y), None)
    else if op == ':' then Midi(g0, x, y)
    else (g0, None)
  }
}
