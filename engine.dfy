/** The running interpreter of keiko.c: the `Grid` record with its cell,
    lock, category and variable arrays, updated in place by the port
    primitives, the operators and the frame scan. Every method is proved to
    leave the grid as the corresponding function of `Board`, `Operators` or
    `Scheduler` says, so the properties proved there hold of it. */
module Engine {
  import opened Codec
  import opened Board
  import opened Notes
  import opened Operators
  import Scheduler

  class Grid {
    const width: int
    const height: int
    const length: int
    var frame: nat
    /** The source's `random` field, set once by `init_grid`. */
    const seed: int
    const data: array<char>
    const lock: array<bool>
    const types: array<CellType>
    const vars: array<char>

    /** The grid as a value. */
    ghost function Model(): GridState
      reads this, data, lock, types, vars
    {
      GridState(width, height, length, frame, seed, vars[..], data[..], lock[..], types[..])
    }

    ghost predicate Valid()
      reads this, data, lock, types, vars
    {
      data != vars && Wf(Model()) && Legal(Model())
    }

    /** `init_grid`: a `w` by `h` grid of '.' on frame 0, seed 1, with the
        frame state cleared. */
    constructor (w: int, h: int)
      requires 0 <= w && 0 <= h && w * h <= MAXSZ
      ensures Valid() && Model() == Blank(w, h)
    {
      width, height, length := w, h, w * h;
      frame, seed := 0, 1;
      data := new char[MAXSZ](_ => '.');
      lock := new bool[MAXSZ](_ => false);
      types := new CellType[MAXSZ](_ => NoOp);
      vars := new char[N_VARS](_ => '.');
      new;
      assert data[..] == Blank(w, h).data && lock[..] == Blank(w, h).lock;
      assert types[..] == Blank(w, h).types && vars[..] == Blank(w, h).vars;
    }

    /** `init_grid_frame`. */
    method InitFrame()
      requires Valid()
      modifies lock, types, vars
      ensures Valid() && Model() == Scheduler.Reset(old(Model()))
    {
      forall i | 0 <= i < MAXSZ {
        lock[i] := false;
      }
      forall i | 0 <= i < MAXSZ {
        types[i] := NoOp;
      }
      forall k | 0 <= k < N_VARS {
        vars[k] := '.';
      }
      assert lock[..] == Scheduler.Reset(old(Model())).lock;
      assert types[..] == Scheduler.Reset(old(Model())).types;
      assert vars[..] == Scheduler.Reset(old(Model())).vars;
    }

    /** `valid_position`. */
    predicate ValidPosition(x: int, y: int)
      reads this
    {
      x >= 0 && x <= width - 1 && y >= 0 && y <= height - 1
    }

    /** The address `x + y * width` of an on-grid position. */
    function Address(x: int, y: int): (i: int)
      requires Valid() && ValidPosition(x, y)
      reads this, data, lock, types, vars
      ensures i == Index(Model(), x, y) && 0 <= i < MAXSZ
    {
      x + y * width
    }

    /** `get_cell`. */
    method GetCell(x: int, y: int) returns (c: char)
      requires Valid()
      ensures c == Board.GetCell(Model(), x, y)
    {
      if ValidPosition(x, y) {
        c := data[Address(x, y)];
      } else {
        c := '.';
      }
    }

    /** `set_cell`. */
    method SetCell(x: int, y: int, c: char)
      requires Valid()
      modifies data
      ensures Valid() && Model() == Board.SetCell(old(Model()), x, y, c)
    {
      if ValidPosition(x, y) && IsValidChar(c) {
        data[Address(x, y)] := c;
      }
    }

    /** `get_type`. */
    method GetType(x: int, y: int) returns (t: CellType)
      requires Valid()
      ensures t == Board.GetType(Model(), x, y)
    {
      if ValidPosition(x, y) {
        t := types[Address(x, y)];
      } else {
        t := NoOp;
      }
    }

    /** `set_type`. */
    method SetType(x: int, y: int, t: CellType)
      requires Valid()
      modifies types
      ensures Valid() && Model() == Board.SetType(old(Model()), x, y, t)
    {
      if ValidPosition(x, y) {
        types[Address(x, y)] := t;
      }
    }

    /** `set_lock`. */
    method SetLock(x: int, y: int)
      requires Valid()
      modifies lock, types
      ensures Valid() && Model() == Board.SetLock(old(Model()), x, y)
    {
      if ValidPosition(x, y) {
        lock[Address(x, y)] := true;
        var t := GetType(x, y);
        if t != NoOp {
          SetType(x, y, Board.Comment);
        }
      }
    }

    /** `set_port`. */
    method SetPort(x: int, y: int, c: char)
      requires Valid()
      modifies data, lock, types
      ensures Valid() && Model() == Board.SetPort(old(Model()), x, y, c)
    {
      SetPortSequence(Model(), x, y, c);
      SetLock(x, y);
      SetType(x, y, Output);
      SetCell(x, y, c);
    }

    /** `get_port`. */
    method GetPort(x: int, y: int, lk: bool) returns (c: char)
      requires Valid()
      modifies lock, types
      ensures Valid() && (Model(), c) == Board.GetPort(old(Model()), x, y, lk)
    {
      GetPortSequence(Model(), x, y, lk);
      if lk {
        SetLock(x, y);
        SetType(x, y, RightInput);
      } else {
        SetType(x, y, LeftInput);
      }
      c := GetCell(x, y);
    }

    /** `get_bang`. */
    method GetBang(x: int, y: int) returns (b: bool)
      requires Valid()
      ensures b == Board.GetBang(Model(), x, y)
    {
      var w := GetCell(x - 1, y);
      var e := GetCell(x + 1, y);
      var n := GetCell(x, y - 1);
      var s := GetCell(x, y + 1);
      b := w == '*' || e == '*' || n == '*' || s == '*';
    }

    // -------------------------------------------------------------------
    // The operators

    /** `op_a`. */
    method Add(x: int, y: int)
      requires Valid()
      modifies data, lock, types
      ensures Valid() && Model() == Operators.Add(old(Model()), x, y)
    {
      var a := GetPort(x - 1, y, false);
      var b := GetPort(x + 1, y, true);
      SetPort(x, y + 1, AddSymbol(a, b));
    }

    /** `op_b`. */
    method Subtract(x: int, y: int)
      requires Valid()
      modifies data, lock, types
      ensures Valid() && Model() == Operators.Subtract(old(Model()), x, y)
    {
      var a := GetPort(x - 1, y, false);
      var b := GetPort(x + 1, y, true);
      SetPort(x, y + 1, SubtractSymbol(a, b));
    }

    /** `op_c`. */
    method Clock(x: int, y: int)
      requires Valid()
      modifies data, lock, types
      ensures Valid() && Model() == Operators.Clock(old(Model()), x, y)
    {
      var rate := GetPort(x - 1, y, false);
      var mod := GetPort(x + 1, y, true);
      SetPort(x, y + 1, ClockSymbol(frame, rate, mod));
    }

    /** `op_d`. */
    method Delay(x: int, y: int)
      requires Valid()
      modifies data, lock, types
      ensures Valid() && Model() == Operators.Delay(old(Model()), x, y)
    {
      var rate := GetPort(x - 1, y, false);
      var mod := GetPort(x + 1, y, true);
      SetPort(x, y + 1, DelaySymbol(frame, rate, mod));
    }

    /** `op_e`, `op_n`, `op_s`, `op_w`. */
    method Move(x: int, y: int, c: char, d: Direction)
      requires Valid()
      modifies data, lock, types
      ensures Valid() && Model() == Operators.Move(old(Model()), x, y, c, d)
    {
      ghost var m0 := Model();
      var (nx, ny) := Neighbour(x, y, d);
      var next := GetCell(nx, ny);
      var edge := match d
        case East => x >= width - 1
        case North => y <= 0
        case South => y >= height - 1
        case West => x <= 0;
      assert edge || next != '.' <==> Blocked(m0, x, y, d);
      if edge || next != '.' {
        SetCell(x, y, '*');
      } else {
        SetCell(x, y, '.');
        SetPort(nx, ny, c);
        SetType(nx, ny, NoOp);
      }
      SetType(x, y, NoOp);
    }

    /** `op_f`. */
    method If(x: int, y: int)
      requires Valid()
      modifies data, lock, types
      ensures Valid() && Model() == Operators.If(old(Model()), x, y)
    {
      var a := GetPort(x - 1, y, false);
      var b := GetPort(x + 1, y, true);
      SetPort(x, y + 1, IfSymbol(a, b));
    }

    /** `op_g`. */
    method Generator(x: int, y: int)
      requires Valid()
      modifies data, lock, types
      ensures Valid() && Model() == Operators.Generator(old(Model()), x, y)
    {
      var px := GetPort(x - 3, y, false);
      var py := GetPort(x - 2, y, false);
      var len := GetPort(x - 1, y, false);
      var n := OrDefault(Base36(len), 1);
      ghost var target := GenerateFrom(Model(), x, y, Base36(px), Base36(py), n, 0);
      var i := 0;
      while i < n
        invariant Valid() && GenerateFrom(Model(), x, y, Base36(px), Base36(py), n, i) == target
        decreases n - i
      {
        GenerateOne(x, y, Base36(px), Base36(py), n, i);
        i := i + 1;
      }
    }

    /** One iteration of the loop of `op_g`. */
    method GenerateOne(x: int, y: int, px: int, py: int, n: int, i: int)
      requires Valid() && i < n
      modifies data, lock, types
      ensures Valid() && GenerateFrom(Model(), x, y, px, py, n, i + 1) == GenerateFrom(old(Model()), x, y, px, py, n, i)
    {
      ghost var m0 := Model();
      var v := GetPort(x + 1 + i, y, true);
      ghost var m1 := Model();
      SetPort(x + i + px, y + 1 + py, v);
      GenerateStep(m0, x, y, px, py, n, i, m1, v, Model());
    }

    /** `op_h`. */
    method Halt(x: int, y: int)
      requires Valid()
      modifies lock, types
      ensures Valid() && Model() == Operators.Halt(old(Model()), x, y)
    {
      var _ := GetPort(x, y + 1, true);
    }

    /** `op_i`. */
    method Increment(x: int, y: int)
      requires Valid()
      modifies data, lock, types
      ensures Valid() && Model() == Operators.Increment(old(Model()), x, y)
    {
      var rate := GetPort(x - 1, y, false);
      var mod := GetPort(x + 1, y, true);
      var val := GetPort(x, y + 1, true);
      SetPort(x, y + 1, IncrementSymbol(rate, mod, val));
    }

    /** `op_j`. */
    method Jumper(x: int, y: int, c: char)
      requires Valid()
      modifies data, lock, types
      ensures Valid() && Model() == Operators.Jumper(old(Model()), x, y, c)
    {
      var link := GetPort(x, y - 1, false);
      if link != c {
        var ty := JumpDownRow(x, y + 1, c);
        SetPort(x, ty, link);
      }
    }


    /** The loop of `op_j`: the first row at or below `r` whose cell in
        column `x` is off the grid or does not hold `c`. */
    method JumpDownRow(x: int, r: int, c: char) returns (k: int)
      requires Valid()
      ensures k == JumpDown(Model(), x, c, r)
    {
      k := r;
      while k < height
        invariant JumpDown(Model(), x, c, k) == JumpDown(Model(), x, c, r)
        decreases height - k
      {
        var v := GetCell(x, k);
        if v != c {
          break;
        }
        JumpDownStep(Model(), x, c, k);
        k := k + 1;
      }
      JumpDownStop(Model(), x, c, k);
    }

    /** `op_k`. */
    method Konkat(x: int, y: int)
      requires Valid()
      modifies data, lock, types
      ensures Valid() && Model() == Operators.Konkat(old(Model()), x, y)
    {
      var len := GetPort(x - 1, y, false);
      var n := OrDefault(Base36(len), 1);
      ghost var target := KonkatFrom(Model(), x, y, n, 0);
      var i := 0;
      while i < n
        invariant Valid() && KonkatFrom(Model(), x, y, n, i) == target
        decreases n - i
      {
        KonkatOne(x, y, n, i);
        i := i + 1;
      }
    }

    /** One iteration of the loop of `op_k`. */
    method KonkatOne(x: int, y: int, n: int, i: int)
      requires Valid() && i < n
      modifies data, lock, types
      ensures Valid() && KonkatFrom(Model(), x, y, n, i + 1) == KonkatFrom(old(Model()), x, y, n, i)
    {
      ghost var m0 := Model();
      var key := GetPort(x + 1 + i, y, true);
      ghost var m1 := Model();
      if key != '.' {
        SetPort(x + 1 + i, y + 1, vars[Base36(key)]);
      }
      KonkatStep(m0, x, y, n, i, m1, key, Model());
    }

    /** `op_l`. */
    method Less(x: int, y: int)
      requires Valid()
      modifies data, lock, types
      ensures Valid() && Model() == Operators.Less(old(Model()), x, y)
    {
      var a := GetPort(x - 1, y, false);
      var b := GetPort(x + 1, y, true);
      SetPort(x, y + 1, LessSymbol(a, b));
    }

    /** `op_m`. */
    method Multiply(x: int, y: int)
      requires Valid()
      modifies data, lock, types
      ensures Valid() && Model() == Operators.Multiply(old(Model()), x, y)
    {
      var a := GetPort(x - 1, y, false);
      var b := GetPort(x + 1, y, true);
      SetPort(x, y + 1, MultiplySymbol(a, b));
    }

    /** `op_o`. */
    method Read(x: int, y: int)
      requires Valid()
      modifies data, lock, types
      ensures Valid() && Model() == Operators.Read(old(Model()), x, y)
    {
      var px := GetPort(x - 2, y, false);
      var py := GetPort(x - 1, y, false);
      Copy(Offset(x + 1, px), Offset(y, py), x, y + 1);
    }

    /** `set_port(x, y, get_port(sx, sy, 1))`, the copy that `op_o` and
        `op_t` end with. */
    method Copy(sx: int, sy: int, x: int, y: int)
      requires Valid()
      modifies data, lock, types
      ensures Valid() && Model() == Operators.Copy(old(Model()), sx, sy, x, y)
    {
      var v := GetPort(sx, sy, true);
      SetPort(x, y, v);
    }

    /** The loop that `op_p` and `op_t` share: lock `(lx + i, ly)` for every
        `i < n`. */
    method LockRun(lx: int, ly: int, n: int)
      requires Valid()
      modifies lock, types
      ensures Valid() && Model() == Operators.LockRun(old(Model()), lx, ly, n, 0)
    {
      ghost var target := Operators.LockRun(Model(), lx, ly, n, 0);
      var i := 0;
      while i < n
        invariant Valid() && Operators.LockRun(Model(), lx, ly, n, i) == target
        decreases n - i
      {
        SetLock(lx + i, ly);
        i := i + 1;
      }
    }

    /** `op_p`. */
    method Push(x: int, y: int)
      requires Valid()
      modifies data, lock, types
      ensures Valid() && Model() == Operators.Push(old(Model()), x, y)
    {
      ghost var g0 := Model();
      var key := GetPort(x - 2, y, false);
      var len := GetPort(x - 1, y, false);
      var val := GetPort(x + 1, y, true);
      LockThenPut(g0, x, y + 1, OrDefault(Base36(len), 1), SlotColumn(x, key, len), val);
    }

    /** The tail of `op_p`: lock the run `(lx, ly) .. (lx + n - 1, ly)`,
        then write `val` at `(tx, ly)`. */
    method LockThenPut(ghost g: State, lx: int, ly: int, n: int, tx: int, val: char)
      requires Valid() && Evolves(g, Model()) && Model().data == g.data && Model().vars == g.vars
      modifies data, lock, types
      ensures Valid() && Model() == Operators.LockThenPut(g, old(Model()), lx, ly, n, tx, val)
    {
      LockRun(lx, ly, n);
      SetPort(tx, ly, val);
    }

    /** `op_q`. */
    method Query(x: int, y: int)
      requires Valid()
      modifies data, lock, types
      ensures Valid() && Model() == Operators.Query(old(Model()), x, y)
    {
      var px := GetPort(x - 3, y, false);
      var py := GetPort(x - 2, y, false);
      var len := GetPort(x - 1, y, false);
      QueryRun(x, y, Offset(x + 1, px), Offset(y, py), OrDefault(Base36(len), 1));
    }

    /** The loop of `op_q`, reading `n` cells from row `sy` starting at
        column `sx`. */
    method QueryRun(x: int, y: int, sx: int, sy: int, n: int)
      requires Valid()
      modifies data, lock, types
      ensures Valid() && Model() == QueryFrom(old(Model()), x, y, sx, sy, n, 0)
    {
      ghost var target := QueryFrom(Model(), x, y, sx, sy, n, 0);
      var i := 0;
      while i < n
        invariant Valid() && QueryFrom(Model(), x, y, sx, sy, n, i) == target
        decreases n - i
      {
        QueryOne(x, y, sx, sy, n, i);
        i := i + 1;
      }
    }

    /** One iteration of the loop of `op_q`, reading from row `sy` starting
        at column `sx`. */
    method QueryOne(x: int, y: int, sx: int, sy: int, n: int, i: int)
      requires Valid() && i < n
      modifies data, lock, types
      ensures Valid() && QueryFrom(Model(), x, y, sx, sy, n, i + 1) == QueryFrom(old(Model()), x, y, sx, sy, n, i)
    {
      ghost var m0 := Model();
      var v := GetPort(sx + i, sy, true);
      ghost var m1 := Model();
      SetPort(x + 1 - n + i, y + 1, v);
      QueryStep(m0, x, y, sx, sy, n, i, m1, v, Model());
    }

    /** `op_r`. */
    method Random(x: int, y: int)
      requires Valid()
      modifies data, lock, types
      ensures Valid() && Model() == Operators.Random(old(Model()), x, y)
    {
      var minc := GetPort(x - 1, y, false);
      var maxc := GetPort(x + 1, y, true);
      SetPort(x, y + 1, RandomSymbol(seed, width, frame, x, y, minc, maxc));
    }

    /** `op_t`. */
    method Track(x: int, y: int)
      requires Valid()
      modifies data, lock, types
      ensures Valid() && Model() == Operators.Track(old(Model()), x, y)
    {
      ghost var g0 := Model();
      var key := GetPort(x - 2, y, false);
      var len := GetPort(x - 1, y, false);
      LockThenCopy(g0, x + 1, y, OrDefault(Base36(len), 1), SlotColumn(x + 1, key, len), x, y + 1);
    }

    /** The tail of `op_t`: lock the run `(lx, ly) .. (lx + n - 1, ly)`,
        then copy the cell `(sx, ly)` to `(tx, ty)`. */
    method LockThenCopy(ghost g: State, lx: int, ly: int, n: int, sx: int, tx: int, ty: int)
      requires Valid() && Evolves(g, Model()) && Model().data == g.data && Model().vars == g.vars
      modifies data, lock, types
      ensures Valid() && Model() == Operators.LockThenCopy(g, old(Model()), lx, ly, n, sx, tx, ty)
    {
      LockRun(lx, ly, n);
      Copy(sx, ly, tx, ty);
    }

    /** `op_u`. */
    method Uclid(x: int, y: int)
      requires Valid()
      modifies data, lock, types
      ensures Valid() && Model() == Operators.Uclid(old(Model()), x, y)
    {
      var step := GetPort(x - 1, y, false);
      var max := GetPort(x + 1, y, true);
      SetPort(x, y + 1, UclidSymbol(frame, step, max));
    }

    /** `op_v`. */
    method Variable(x: int, y: int)
      requires Valid()
      modifies data, lock, types, vars
      ensures Valid() && Model() == Operators.Variable(old(Model()), x, y)
    {
      ghost var g0 := Model();
      var w := GetPort(x - 1, y, false);
      ghost var g1 := Model();
      var rd := GetPort(x + 1, y, true);
      assert (g1, w) == Board.GetPort(g0, x - 1, y, false);
      assert (Model(), rd) == Board.GetPort(g1, x + 1, y, true);
      if w != '.' {
        vars[Base36(w)] := rd;
      } else if rd != '.' {
        SetPort(x, y + 1, vars[Base36(rd)]);
      }
    }

    /** `op_x`. */
    method Write(x: int, y: int)
      requires Valid()
      modifies data, lock, types
      ensures Valid() && Model() == Operators.Write(old(Model()), x, y)
    {
      var px := GetPort(x - 2, y, false);
      var py := GetPort(x - 1, y, false);
      var val := GetPort(x + 1, y, true);
      SetPort(Offset(x, px), Offset(y + 1, py), val);
    }

    /** `op_y`. */
    method Jymper(x: int, y: int, c: char)
      requires Valid()
      modifies data, lock, types
      ensures Valid() && Model() == Operators.Jymper(old(Model()), x, y, c)
    {
      var link := GetPort(x - 1, y, false);
      if link != c {
        var tx := JumpRightColumn(x + 1, y, c);
        SetPort(tx, y, link);
      }
    }


    /** The loop of `op_y`: the first column at or east of `k` whose cell in
        row `y` is off the grid or does not hold `c`. */
    method JumpRightColumn(k: int, y: int, c: char) returns (r: int)
      requires Valid()
      ensures r == JumpRight(Model(), y, c, k)
    {
      r := k;
      while r < width
        invariant JumpRight(Model(), y, c, r) == JumpRight(Model(), y, c, k)
        decreases width - r
      {
        var v := GetCell(r, y);
        if v != c {
          break;
        }
        JumpRightStep(Model(), y, c, r);
        r := r + 1;
      }
      JumpRightStop(Model(), y, c, r);
    }

    /** `op_z`. */
    method Lerp(x: int, y: int)
      requires Valid()
      modifies data, lock, types
      ensures Valid() && Model() == Operators.Lerp(old(Model()), x, y)
    {
      var rate := GetPort(x - 1, y, false);
      var target := GetPort(x + 1, y, true);
      var val := GetPort(x, y + 1, true);
      SetPort(x, y + 1, LerpSymbol(rate, target, val));
    }

    /** `op_comment`. */
    method Comment(x: int, y: int)
      requires Valid()
      modifies lock, types
      ensures Valid() && Model() == Operators.Comment(old(Model()), x, y)
    {
      CommentRun(y, x + 1);
      SetType(x, y, Board.Comment);
    }

    /** The loop of `op_comment`, from column `k` on. */
    method CommentRun(y: int, k: int)
      requires Valid()
      modifies lock, types
      ensures Valid() && Model() == CommentFrom(old(Model()), y, k)
    {
      ghost var target := CommentFrom(Model(), y, k);
      var j := k;
      while j < width
        invariant Valid() && CommentFrom(Model(), y, j) == target
        decreases width - j
      {
        var hash := CommentOne(y, j);
        if hash {
          break;
        }
        j := j + 1;
      }
    }

    /** One iteration of the loop of `op_comment`: lock column `k`, and
        stop there when it holds '#'. */
    method CommentOne(y: int, k: int) returns (hash: bool)
      requires Valid() && k < width
      modifies lock, types
      ensures Valid()
      ensures hash ==> Model() == CommentFrom(old(Model()), y, k)
      ensures !hash ==> CommentFrom(Model(), y, k + 1) == CommentFrom(old(Model()), y, k)
    {
      ghost var m0 := Model();
      SetLock(k, y);
      var v := GetCell(k, y);
      CommentStep(m0, y, k, Model());
      hash := v == '#';
    }

    /** `op_midi`: the request, when there is one, goes straight to the note
        list. */
    method Midi(x: int, y: int, notes: NoteList, samplesPerBeat: int)
      requires Valid()
      modifies lock, types, notes
      ensures Valid() && Model() == Operators.Midi(old(Model()), x, y).0
      ensures notes.notes == Deliver(old(notes.notes), Operators.Midi(old(Model()), x, y).1, samplesPerBeat)
    {
      var ch := GetPort(x + 1, y, true);
      var channel := Base36(ch);
      if channel == '.' as int {
        return;
      }
      var oc := GetPort(x + 2, y, true);
      var octave := Base36(oc);
      if octave == '.' as int {
        return;
      }
      var note := GetPort(x + 3, y, true);
      if IsSpecial(note) {
        return;
      }
      ValidCharIff(note);
      MidiSend(x, y, ch, oc, note, notes, samplesPerBeat);
    }

    /** The second half of `op_midi`: velocity, length, and the note when a
        bang is adjacent. */
    method MidiSend(x: int, y: int, ch: char, oc: char, note: char, notes: NoteList, samplesPerBeat: int)
      requires Valid() && IsAlnum(note)
      modifies lock, types, notes
      ensures Valid() && Model() == Operators.MidiSend(old(Model()), x, y, ch, oc, note).0
      ensures notes.notes == Deliver(old(notes.notes), Operators.MidiSend(old(Model()), x, y, ch, oc, note).1, samplesPerBeat)
    {
      var vel := GetPort(x + 4, y, true);
      var len := GetPort(x + 5, y, true);
      MidiFire(x, y, NoteRequest(ch, oc, note, vel, len), notes, samplesPerBeat);
    }

    /** The end of `op_midi`: with a bang adjacent, send the note `q` and mark
        the cell `Operator`; otherwise mark it `LeftInput`. */
    method MidiFire(x: int, y: int, q: Request, notes: NoteList, samplesPerBeat: int)
      requires Valid()
      modifies types, notes
      ensures Valid()
      ensures Board.GetBang(old(Model()), x, y) ==>
                Model() == Board.SetType(old(Model()), x, y, Operator) && notes.notes == Send(old(notes.notes), q, samplesPerBeat)
      ensures !Board.GetBang(old(Model()), x, y) ==>
                Model() == Board.SetType(old(Model()), x, y, LeftInput) && notes.notes == old(notes.notes)
    {
      var bang := GetBang(x, y);
      if bang {
        notes.SendMidi(q.channel, q.value, q.velocity, q.length, samplesPerBeat);
        SetType(x, y, Operator);
      } else {
        SetType(x, y, LeftInput);
      }
    }

    // -------------------------------------------------------------------
    // The dispatcher and the frame scan

    /** `operate`: mark the cell `Operator`, then run the operator its
        symbol names. */
    method Operate(x: int, y: int, c: char, notes: NoteList, samplesPerBeat: int)
      requires Valid()
      modifies data, lock, types, vars, notes
      ensures Valid() && Model() == Operators.Operate(old(Model()), x, y, c).0
      ensures notes.notes == Deliver(old(notes.notes), Operators.Operate(old(Model()), x, y, c).1, samplesPerBeat)
    {
      SetType(x, y, Operator);
      Dispatch(x, y, c, notes, samplesPerBeat);
    }

    /** The `switch` of `operate`. */
    method Dispatch(x: int, y: int, c: char, notes: NoteList, samplesPerBeat: int)
      requires Valid()
      modifies data, lock, types, vars, notes
      ensures Valid() && Model() == Operators.Dispatch(old(Model()), x, y, c).0
      ensures notes.notes == Deliver(old(notes.notes), Operators.Dispatch(old(Model()), x, y, c).1, samplesPerBeat)
    {
      ghost var m0 := Model();
      if ToLower(c) == ':' {
        Operators.DispatchMidi(m0, x, y, c);
        Midi(x, y, notes, samplesPerBeat);
      } else {
        assert Operators.Dispatch(m0, x, y, c).1 == None;
        DispatchGrid(x, y, c);
      }
    }

    /** The cases of the `switch` of `operate` that request no note. */
    method DispatchGrid(x: int, y: int, c: char)
      requires Valid() && ToLower(c) != ':'
      modifies data, lock, types, vars
      ensures Valid() && Model() == Operators.Dispatch(old(Model()), x, y, c).0
    {
      var op := ToLower(c);
      if op == 'a' { Add(x, y); }
      else if op == 'b' { Subtract(x, y); }
      else if op == 'c' { Clock(x, y); }
      else if op == 'd' { Delay(x, y); }
      else if op == 'e' { Move(x, y, c, East); }
      else if op == 'f' { If(x, y); }
      else if op == 'g' { Generator(x, y); }
      else if op == 'h' { Halt(x, y); }
      else if op == 'i' { Increment(x, y); }
      else if op == 'j' { Jumper(x, y, c); }
      else if op == 'k' { Konkat(x, y); }
      else if op == 'l' { Less(x, y); }
      else if op == 'm' { Multiply(x, y); }
      else if op == 'n' { Move(x, y, c, North); }
      else if op == 'o' { Read(x, y); }
      else if op == 'p' { Push(x, y); }
      else if op == 'q' { Query(x, y); }
      else if op == 'r' { Random(x, y); }
      else if op == 's' { Move(x, y, c, South); }
      else if op == 't' { Track(x, y); }
      else if op == 'u' { Uclid(x, y); }
      else if op == 'v' { Variable(x, y); }
      else if op == 'w' { Move(x, y, c, West); }
      else if op == 'x' { Write(x, y); }
      else if op == 'y' { Jymper(x, y, c); }
      else if op == 'z' { Lerp(x, y); }
      else if op == '*' { SetCell(x, y, '.'); }
      else if op == '#' { Comment(x, y); }
    }

    /** One iteration of the loop of `run_grid`: the cell at address `i` is
        dispatched exactly when it passes the loop's skip conditions. */
    method Visit(i: int, notes: NoteList, samplesPerBeat: int)
      requires Valid() && 0 <= i < length
      modifies data, lock, types, vars, notes
      ensures Valid()
      ensures var g := old(Model());
              var r := Operators.Operate(g, Scheduler.Pos(g, i).0, Scheduler.Pos(g, i).1, g.data[i]);
              Scheduler.Eligible(g, i) ==> Model() == r.0 && notes.notes == Deliver(old(notes.notes), r.1, samplesPerBeat)
      ensures !Scheduler.Eligible(old(Model()), i) ==> Model() == old(Model()) && notes.notes == old(notes.notes)
    {
      var c := data[i];
      var x := i % width;
      var y := i / width;
      assert (x, y) == Scheduler.Pos(Model(), i);
      if c == '.' || lock[i] || IsDigit(c) {
        return;
      }
      if IsLower(c) {
        var b := GetBang(x, y);
        if !b {
          return;
        }
      }
      Operate(x, y, c, notes, samplesPerBeat);
    }

    /** The iteration at address `i` as the scan sees it: it leaves the
        rest of the scan to reach the same grid, and the notes it sends
        together with those the rest of the scan requests are the notes the
        whole scan from `i` requests. */
    method Step(i: int, notes: NoteList, samplesPerBeat: int)
      requires Valid() && 0 <= i < length
      modifies data, lock, types, vars, notes
      ensures Valid()
      ensures Scheduler.ScanFrom(old(Model()), i).grid == Scheduler.ScanFrom(Model(), i + 1).grid
      ensures SendAll(notes.notes, Scheduler.ScanFrom(Model(), i + 1).requests, samplesPerBeat)
           == SendAll(old(notes.notes), Scheduler.ScanFrom(old(Model()), i).requests, samplesPerBeat)
    {
      ghost var m0 := Model();
      ghost var before := notes.notes;
      Visit(i, notes, samplesPerBeat);
      if Scheduler.Eligible(m0, i) {
        ghost var req := Operators.Operate(m0, Scheduler.Pos(m0, i).0, Scheduler.Pos(m0, i).1, m0.data[i]).1;
        ghost var part := if req.Some? then [req.value] else [];
        DeliverSendAll(before, req, samplesPerBeat);
        SendAllAppend(before, part, Scheduler.ScanFrom(Model(), i + 1).requests, samplesPerBeat);
      }
    }

    /** The loop of `run_grid`, over every address in order. */
    method Scan(notes: NoteList, samplesPerBeat: int)
      requires Valid()
      modifies data, lock, types, vars, notes
      ensures Valid() && Model() == Scheduler.ScanFrom(old(Model()), 0).grid
      ensures notes.notes == SendAll(old(notes.notes), Scheduler.ScanFrom(old(Model()), 0).requests, samplesPerBeat)
    {
      ghost var grid := Scheduler.ScanFrom(Model(), 0).grid;
      ghost var sent := SendAll(notes.notes, Scheduler.ScanFrom(Model(), 0).requests, samplesPerBeat);
      var i := 0;
      while i < length
        invariant 0 <= i <= length && Valid()
        invariant grid == Scheduler.ScanFrom(Model(), i).grid
        invariant sent == SendAll(notes.notes, Scheduler.ScanFrom(Model(), i).requests, samplesPerBeat)
        decreases length - i
      {
        Step(i, notes, samplesPerBeat);
        i := i + 1;
      }
    }

    /** `run_grid`: clear the frame state, scan the grid, then advance the
        frame counter. The notes the operators request go to the note list
        in the order they are requested. */
    method RunGrid(notes: NoteList, samplesPerBeat: int)
      requires Valid()
      modifies this, data, lock, types, vars, notes
      ensures Valid() && Model() == Scheduler.RunGrid(old(Model())).grid
      ensures notes.notes == SendAll(old(notes.notes), Scheduler.RunGrid(old(Model())).requests, samplesPerBeat)
    {
      InitFrame();
      Scan(notes, samplesPerBeat);
      frame := frame + 1;
    }
  }
}
