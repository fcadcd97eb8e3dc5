/** What each operator of keiko.c leaves in its output cell, stated against
    the operands it reads, and the rhythm, range and convergence properties
    the operators are built for. */
module OperatorFacts {
  import opened Codec
  import opened Board
  import opened Notes
  import opened Operators

  /** Adding `k` multiples of `m` changes neither the remainder nor, beyond
      `k`, the quotient. */
  lemma AddMultiple(a: int, m: int, k: int)
    requires m > 0
    ensures (a + k * m) / m == a / m + k
    ensures (a + k * m) % m == a % m
  {
    var q, r := a / m, a % m;
    assert a + k * m == r + (q + k) * m by {
      assert (q + k) * m == q * m + k * m;
    }
    DivUnique(r, q + k, m);
  }

  /** The clock repeats every `rate * mod` frames, and within that cycle it
      holds each value for `rate` frames: frame `k * rate + j` shows `k % mod`. */
  lemma ClockCycle(f: nat, rate: int, mod: int, k: nat, j: nat)
    requires rate > 0 && mod > 0 && j < rate
    ensures ClockPhase(f + rate * mod, rate, mod) == ClockPhase(f, rate, mod)
    ensures ClockPhase(k * rate + j, rate, mod) == k % mod
  {
    assert rate * mod == mod * rate;
    AddMultiple(f, rate, mod);
    AddMultiple(f / rate, mod, 1);
    DivUnique(j, k, rate);
  }

  /** A mover on the grid is free exactly when the cell one step on is on
      the grid and empty; the bounds test matters because `GetCell` reads
      '.' off the grid. */
  lemma FreeExactly(g: State, x: int, y: int, d: Direction)
    requires ValidPosition(g, x, y)
    ensures !Blocked(g, x, y, d) <==>
      var (nx, ny) := Neighbour(x, y, d);
      ValidPosition(g, nx, ny) && GetCell(g, nx, ny) == '.'
  {
  }

  /** A blocked mover becomes a bang and nothing else on the grid changes. */
  lemma MoveBlocked(g: State, x: int, y: int, c: char, d: Direction)
    requires ValidPosition(g, x, y) && Blocked(g, x, y, d)
    ensures Move(g, x, y, c, d).data == g.data[Index(g, x, y) := '*']
    ensures GetCell(Move(g, x, y, c, d), x, y) == '*'
  {
  }

  /** A free mover leaves an empty cell behind and its own symbol, locked,
      one step on; every other cell keeps its symbol. */
  lemma MoveFree(g: State, x: int, y: int, c: char, d: Direction)
    requires ValidPosition(g, x, y) && !Blocked(g, x, y, d) && IsValidChar(c)
    ensures var (nx, ny) := Neighbour(x, y, d);
            var r := Move(g, x, y, c, d);
            && ValidPosition(g, nx, ny)
            && r.data == g.data[Index(g, x, y) := '.'][Index(g, nx, ny) := c]
            && GetCell(r, x, y) == '.' && GetCell(r, nx, ny) == c
            && r.lock[Index(g, nx, ny)]
  {
    var (nx, ny) := Neighbour(x, y, d);
    FreeExactly(g, x, y, d);
    if Index(g, nx, ny) == Index(g, x, y) {
      IndexInjective(g, nx, ny, x, y);
    }
    var g1 := SetCell(g, x, y, '.');
    var g2 := SetPort(g1, nx, ny, c);
    assert g1.data == g.data[Index(g, x, y) := '.'];
    assert g2.data == g1.data[Index(g, nx, ny) := c];
    assert Move(g, x, y, c, d) == SetType(SetType(g2, nx, ny, NoOp), x, y, NoOp);
  }

  /** The value after `k` frames of `op_z`. */
  function LerpAfter(v: int, t: int, rate: int, k: nat): (r: int)
    requires rate >= 1
    ensures v <= t ==> v <= r <= t
    ensures t <= v ==> t <= r <= v
    decreases k
  {
    LerpStepTowards(v, t, rate);
    if k == 0 then v else LerpAfter(v + LerpStep(v, t, rate), t, rate, k - 1)
  }

  /** `op_z` reaches its target in at most `|t - v|` frames and then stays there. */
  lemma {:induction false} LerpConverges(v: int, t: int, rate: int, k: nat)
    requires rate >= 1 && Abs(t - v) <= k
    ensures LerpAfter(v, t, rate, k) == t
    decreases k
  {
    if k > 0 {
      var v1 := v + LerpStep(v, t, rate);
      LerpStepTowards(v, t, rate);
      assert Abs(t - v1) <= k - 1;
      LerpConverges(v1, t, rate, k - 1);
    }
  }

  /** `op_u` with step 1 bangs exactly on the frames divisible by `max`. */
  lemma UclidUnitStep(max: int, frame: nat)
    requires max > 0
    ensures Bucket(1, max, frame) >= max <==> frame % max == 0
  {
    var q, r := frame / max, frame % max;
    if r == 0 {
      assert frame + max - 1 == (max - 1) + q * max;
      DivUnique(max - 1, q, max);
    } else {
      assert frame + max - 1 == (r - 1) + (q + 1) * max by {
        assert (q + 1) * max == q * max + max;
      }
      DivUnique(r - 1, q + 1, max);
    }
  }

  /** `op_u` with a step of at least `max` bangs on every frame. */
  lemma UclidFull(step: int, max: int, frame: nat)
    requires max > 0 && step >= max
    ensures Bucket(step, max, frame) >= max
  {
  }

  /** The number of frames among `frame .. frame + k - 1` on which `op_u`
      bangs. */
  function UclidBangs(step: int, max: int, frame: nat, k: nat): (r: nat)
    requires max > 0
    ensures r <= k
    decreases k
  {
    if k == 0 then 0
    else (if Bucket(step, max, frame) >= max then 1 else 0) + UclidBangs(step, max, frame + 1, k - 1)
  }

  /** With `step <= max`, `op_u` bangs on a frame exactly when the quotient
      `step * n / max` goes up as `n` passes from `frame + max - 1` to
      `frame + max`, and it goes up by at most one. */
  lemma UclidBangRises(step: int, max: int, frame: nat)
    requires 0 < max && 0 <= step <= max
    ensures var n := frame + max - 1;
            (if Bucket(step, max, frame) >= max then 1 else 0) == step * (n + 1) / max - step * n / max
  {
    var n := frame + max - 1;
    var q, r := step * n / max, step * n % max;
    assert step * (n + 1) == step * n + step;
    if r + step >= max {
      assert step * (n + 1) == (r + step - max) + (q + 1) * max by {
        assert (q + 1) * max == q * max + max;
      }
      DivUnique(r + step - max, q + 1, max);
    } else {
      assert step * (n + 1) == (r + step) + q * max;
      DivUnique(r + step, q, max);
    }
  }

  /** Over `k` consecutive frames, the bangs of `op_u` add up to how far the
      quotient `step * n / max` rises. */
  lemma {:induction false} UclidBangsTelescope(step: int, max: int, frame: nat, k: nat)
    requires 0 < max && 0 <= step <= max
    ensures UclidBangs(step, max, frame, k)
            == step * (frame + max - 1 + k) / max - step * (frame + max - 1) / max
    decreases k
  {
    if k > 0 {
      UclidBangRises(step, max, frame);
      UclidBangsTelescope(step, max, frame + 1, k - 1);
      assert frame + 1 + max - 1 == frame + max - 1 + 1;
    }
  }

  /** The Euclidean rhythm of `op_u`: with `step <= max`, any `max`
      consecutive frames hold exactly `step` bangs. */
  lemma UclidEuclidean(step: int, max: int, frame: nat)
    requires 0 < max && 0 <= step <= max
    ensures UclidBangs(step, max, frame, max) == step
  {
    var n := frame + max - 1;
    UclidBangsTelescope(step, max, frame, max);
    assert step * (n + max) == step * n + step * max;
    AddMultiple(step * n, max, step);
  }

  /** `op_v`: a write stores the right operand in the slot the left operand
      names, and a later read of that slot, by any `V` whose left operand is
      empty, copies the stored symbol below itself. */
  lemma VariableWriteRead(g: State, x: int, y: int, x2: int, y2: int)
    requires Legal(g)
    requires GetCell(g, x - 1, y) != '.' && GetCell(g, x + 1, y) != '.'
    requires var h := Variable(g, x, y);
             GetCell(h, x2 - 1, y2) == '.' && GetCell(h, x2 + 1, y2) == GetCell(g, x - 1, y)
    requires ValidPosition(g, x2, y2 + 1)
    ensures GetCell(Variable(Variable(g, x, y), x2, y2), x2, y2 + 1) == GetCell(g, x + 1, y)
  {
    var h := Variable(g, x, y);
    assert h.vars[Base36(GetCell(g, x - 1, y))] == GetCell(g, x + 1, y);
  }

  /** Locking a cell of row `y` leaves the lock of every other cell of that
      row as it was. */
  lemma SetLockElsewhere(g: State, k: int, y: int, z: int)
    requires k != z && ValidPosition(g, z, y)
    ensures SetLock(g, k, y).lock[Index(g, z, y)] == g.lock[Index(g, z, y)]
  {
    if ValidPosition(g, k, y) && Index(g, k, y) == Index(g, z, y) {
      IndexInjective(g, k, y, z, y);
    }
  }

  /** A comment locks every cell east of it up to and including the next '#'. */
  lemma {:induction false} CommentLocksSpan(g: State, y: int, k: int, z: int)
    requires 0 <= y < g.height && 0 <= k <= z < g.width
    requires forall w :: k <= w < z ==> GetCell(g, w, y) != '#'
    ensures CommentFrom(g, y, k).lock[Index(g, z, y)]
    decreases z - k
  {
    var g1 := SetLock(g, k, y);
    CommentStep(g, y, k, g1);
    if z > k {
      assert GetCell(g, k, y) != '#';
      CommentLocksSpan(g1, y, k + 1, z);
    }
  }

  /** A comment locks nothing past the next '#'. */
  lemma {:induction false} CommentStopsAtHash(g: State, y: int, k: int, h: int, z: int)
    requires k <= h < z && GetCell(g, h, y) == '#' && ValidPosition(g, z, y)
    ensures CommentFrom(g, y, k).lock[Index(g, z, y)] == g.lock[Index(g, z, y)]
    decreases g.width - k
  {
    if k < g.width {
      var g1 := SetLock(g, k, y);
      CommentStep(g, y, k, g1);
      SetLockElsewhere(g, k, y, z);
      if GetCell(g1, k, y) != '#' {
        assert GetCell(g1, h, y) == '#';
        CommentStopsAtHash(g1, y, k + 1, h, z);
      }
    }
  }

  // ---------------------------------------------------------------------
  // What the loops of `op_g`, `op_k` and `op_q` write

  /** A port write leaves every other cell reading as before. */
  lemma SetPortElsewhere(g: State, h: State, a: int, b: int, c: char, x: int, y: int)
    requires h.data == g.data && h.width == g.width && h.height == g.height
    requires a != x || b != y
    ensures GetCell(SetPort(h, a, b, c), x, y) == GetCell(g, x, y)
  {
    if ValidPosition(h, a, b) && ValidPosition(h, x, y) && Index(h, a, b) == Index(h, x, y) {
      IndexInjective(h, a, b, x, y);
    }
  }

  /** One iteration of `op_g`'s loop writes only its output cell. */
  lemma GenerateNextElsewhere(g: State, x: int, y: int, px: int, py: int, i: int, a: int, b: int)
    requires a != x + i + px || b != y + 1 + py
    ensures GetCell(GenerateNext(g, x, y, px, py, i), a, b) == GetCell(g, a, b)
  {
    var g1 := GetPort(g, x + 1 + i, y, true).0;
    SetPortElsewhere(g, g1, x + i + px, y + 1 + py, GetPort(g, x + 1 + i, y, true).1, a, b);
  }

  /** One iteration `i` of `op_g`'s loop, as the grid `g2` it passes on,
      seen from a cell `(a, b)` it does not write. */
  lemma GenerateAdvance(g: State, x: int, y: int, px: int, py: int, n: int, i: int, a: int, b: int) returns (g2: State)
    requires Legal(g) && i < n && (a != x + i + px || b != y + 1 + py)
    ensures Legal(g2) && SameShape(g, g2) && g2.vars == g.vars
    ensures GenerateFrom(g, x, y, px, py, n, i) == GenerateFrom(g2, x, y, px, py, n, i + 1)
    ensures GetCell(g2, a, b) == GetCell(g, a, b)
  {
    g2 := GenerateNext(g, x, y, px, py, i);
    GenerateStep(g, x, y, px, py, n, i, GetPort(g, x + 1 + i, y, true).0, GetPort(g, x + 1 + i, y, true).1, g2);
    GenerateNextElsewhere(g, x, y, px, py, i, a, b);
  }

  /** Iterations `i ..` of `op_g`'s loop write columns `x + k + px`, `k >= i`,
      so the output of an earlier iteration `j` stays. */
  lemma {:induction false} GenerateKeeps(g: State, x: int, y: int, px: int, py: int, n: int, i: int, j: int)
    requires Legal(g) && j < i
    ensures GetCell(GenerateFrom(g, x, y, px, py, n, i), x + j + px, y + 1 + py) == GetCell(g, x + j + px, y + 1 + py)
    decreases n - i
  {
    if i < n {
      var g2 := GenerateAdvance(g, x, y, px, py, n, i, x + j + px, y + 1 + py);
      GenerateKeeps(g2, x, y, px, py, n, i + 1, j);
    }
  }

  /** The iteration `j` of `op_g`'s loop that copies input `j`, and the ones
      after it. */
  lemma GenerateWritesHere(g: State, x: int, y: int, px: int, py: int, n: int, j: int)
    requires Legal(g) && j < n
    ensures ValidPosition(g, x + j + px, y + 1 + py) ==>
              GetCell(GenerateFrom(g, x, y, px, py, n, j), x + j + px, y + 1 + py) == GetCell(g, x + 1 + j, y)
  {
    var g2 := GenerateNext(g, x, y, px, py, j);
    GenerateStep(g, x, y, px, py, n, j, GetPort(g, x + 1 + j, y, true).0, GetPort(g, x + 1 + j, y, true).1, g2);
    GenerateKeeps(g2, x, y, px, py, n, j + 1, j);
  }

  /** Iteration `j` of `op_g`'s loop copies input `(x + 1 + j, y)` to
      `(x + j + px, y + 1 + py)`. The inputs lie on row `y` and the outputs on
      a lower row, so no input is overwritten before it is read. */
  lemma {:induction false} GenerateFromWrites(g: State, x: int, y: int, px: int, py: int, n: int, i: int, j: int)
    requires Legal(g) && 0 <= py && i <= j < n
    ensures ValidPosition(g, x + j + px, y + 1 + py) ==>
              GetCell(GenerateFrom(g, x, y, px, py, n, i), x + j + px, y + 1 + py) == GetCell(g, x + 1 + j, y)
    decreases n - i
  {
    if i == j {
      GenerateWritesHere(g, x, y, px, py, n, j);
    } else {
      var g2 := GenerateAdvance(g, x, y, px, py, n, i, x + 1 + j, y);
      GenerateFromWrites(g2, x, y, px, py, n, i + 1, j);
    }
  }

  /** `op_g` copies each of its `len` inputs `(x + 1 + j, y)` to
      `(x + j + px, y + 1 + py)`. */
  lemma GeneratorWrites(g: State, x: int, y: int, j: int)
    requires Legal(g) && 0 <= j < OrDefault(Base36(GetCell(g, x - 1, y)), 1)
    ensures ValidPosition(g, x + j + Base36(GetCell(g, x - 3, y)), y + 1 + Base36(GetCell(g, x - 2, y))) ==>
              GetCell(Generator(g, x, y), x + j + Base36(GetCell(g, x - 3, y)), y + 1 + Base36(GetCell(g, x - 2, y)))
              == GetCell(g, x + 1 + j, y)
  {
    var g1 := GetPort(g, x - 3, y, false).0;
    var g2 := GetPort(g1, x - 2, y, false).0;
    var g3 := GetPort(g2, x - 1, y, false).0;
    GenerateFromWrites(g3, x, y, Base36(GetCell(g, x - 3, y)), Base36(GetCell(g, x - 2, y)),
                       OrDefault(Base36(GetCell(g, x - 1, y)), 1), 0, j);
  }

  /** One iteration of `op_k`'s loop writes only below its own key. */
  lemma KonkatNextElsewhere(g: State, x: int, y: int, i: int, a: int, b: int)
    requires a != x + 1 + i
    ensures GetCell(KonkatNext(g, x, y, i), a, b) == GetCell(g, a, b)
  {
    var g1 := GetPort(g, x + 1 + i, y, true).0;
    var key := GetPort(g, x + 1 + i, y, true).1;
    if key != '.' {
      SetPortElsewhere(g, g1, x + 1 + i, y + 1, g1.vars[Base36(key)], a, b);
    }
  }

  /** One iteration of `op_k`'s loop writes, below a key that is not '.',
      the variable the key names. */
  lemma KonkatNextHere(g: State, x: int, y: int, i: int)
    requires Legal(g) && ValidPosition(g, x + 1 + i, y + 1)
    ensures GetCell(g, x + 1 + i, y) != '.' ==>
              GetCell(KonkatNext(g, x, y, i), x + 1 + i, y + 1) == g.vars[Base36(GetCell(g, x + 1 + i, y))]
    ensures GetCell(g, x + 1 + i, y) == '.' ==>
              GetCell(KonkatNext(g, x, y, i), x + 1 + i, y + 1) == GetCell(g, x + 1 + i, y + 1)
  {
  }

  /** One iteration `i` of `op_k`'s loop, as the grid `g2` it passes on,
      seen from a column `z` it neither reads nor writes. */
  lemma KonkatAdvance(g: State, x: int, y: int, n: int, i: int, z: int) returns (g2: State)
    requires Legal(g) && i < n && z != x + 1 + i
    ensures Legal(g2) && g2.vars == g.vars && SameShape(g, g2)
    ensures KonkatFrom(g, x, y, n, i) == KonkatFrom(g2, x, y, n, i + 1)
    ensures GetCell(g2, z, y) == GetCell(g, z, y) && GetCell(g2, z, y + 1) == GetCell(g, z, y + 1)
  {
    g2 := KonkatNext(g, x, y, i);
    KonkatStep(g, x, y, n, i, GetPort(g, x + 1 + i, y, true).0, GetPort(g, x + 1 + i, y, true).1, g2);
    KonkatNextElsewhere(g, x, y, i, z, y);
    KonkatNextElsewhere(g, x, y, i, z, y + 1);
  }

  /** Iterations `i ..` of `op_k`'s loop write only below keys `k >= i`. */
  lemma {:induction false} KonkatKeeps(g: State, x: int, y: int, n: int, i: int, j: int)
    requires Legal(g) && j < i
    ensures GetCell(KonkatFrom(g, x, y, n, i), x + 1 + j, y + 1) == GetCell(g, x + 1 + j, y + 1)
    decreases n - i
  {
    if i < n {
      var g2 := KonkatAdvance(g, x, y, n, i, x + 1 + j);
      KonkatKeeps(g2, x, y, n, i + 1, j);
    }
  }

  /** The iteration `j` of `op_k`'s loop that reads key `j`, and the ones
      after it. */
  lemma KonkatWritesHere(g: State, x: int, y: int, n: int, j: int)
    requires Legal(g) && j < n
    ensures ValidPosition(g, x + 1 + j, y + 1) && GetCell(g, x + 1 + j, y) != '.' ==>
              GetCell(KonkatFrom(g, x, y, n, j), x + 1 + j, y + 1) == g.vars[Base36(GetCell(g, x + 1 + j, y))]
    ensures ValidPosition(g, x + 1 + j, y + 1) && GetCell(g, x + 1 + j, y) == '.' ==>
              GetCell(KonkatFrom(g, x, y, n, j), x + 1 + j, y + 1) == GetCell(g, x + 1 + j, y + 1)
  {
    var g2 := KonkatNext(g, x, y, j);
    KonkatStep(g, x, y, n, j, GetPort(g, x + 1 + j, y, true).0, GetPort(g, x + 1 + j, y, true).1, g2);
    if ValidPosition(g, x + 1 + j, y + 1) {
      KonkatNextHere(g, x, y, j);
    }
    KonkatKeeps(g2, x, y, n, j + 1, j);
  }

  /** Iteration `j` of `op_k`'s loop writes, below a key that is not '.',
      the variable the key names, and leaves the cell below a '.' key alone. */
  lemma {:induction false} KonkatFromWrites(g: State, x: int, y: int, n: int, i: int, j: int)
    requires Legal(g) && i <= j < n
    ensures ValidPosition(g, x + 1 + j, y + 1) && GetCell(g, x + 1 + j, y) != '.' ==>
              GetCell(KonkatFrom(g, x, y, n, i), x + 1 + j, y + 1) == g.vars[Base36(GetCell(g, x + 1 + j, y))]
    ensures ValidPosition(g, x + 1 + j, y + 1) && GetCell(g, x + 1 + j, y) == '.' ==>
              GetCell(KonkatFrom(g, x, y, n, i), x + 1 + j, y + 1) == GetCell(g, x + 1 + j, y + 1)
    decreases n - i
  {
    if i == j {
      KonkatWritesHere(g, x, y, n, j);
    } else {
      var g2 := KonkatAdvance(g, x, y, n, i, x + 1 + j);
      KonkatFromWrites(g2, x, y, n, i + 1, j);
    }
  }

  /** `op_k` writes, below each of its `len` keys that is not '.', the
      variable the key names; the cell below a '.' key keeps its symbol. */
  lemma KonkatWrites(g: State, x: int, y: int, j: int)
    requires Legal(g) && 0 <= j < OrDefault(Base36(GetCell(g, x - 1, y)), 1)
    ensures ValidPosition(g, x + 1 + j, y + 1) && GetCell(g, x + 1 + j, y) != '.' ==>
              GetCell(Konkat(g, x, y), x + 1 + j, y + 1) == g.vars[Base36(GetCell(g, x + 1 + j, y))]
    ensures ValidPosition(g, x + 1 + j, y + 1) && GetCell(g, x + 1 + j, y) == '.' ==>
              GetCell(Konkat(g, x, y), x + 1 + j, y + 1) == GetCell(g, x + 1 + j, y + 1)
  {
    var g1 := GetPort(g, x - 1, y, false).0;
    KonkatFromWrites(g1, x, y, OrDefault(Base36(GetCell(g, x - 1, y)), 1), 0, j);
  }

  /** One iteration of `op_q`'s loop writes only its output cell. */
  lemma QueryNextElsewhere(g: State, x: int, y: int, sx: int, sy: int, n: int, i: int, a: int, b: int)
    requires a != x + 1 - n + i || b != y + 1
    ensures GetCell(QueryNext(g, x, y, sx, sy, n, i), a, b) == GetCell(g, a, b)
  {
    var g1 := GetPort(g, sx + i, sy, true).0;
    SetPortElsewhere(g, g1, x + 1 - n + i, y + 1, GetPort(g, sx + i, sy, true).1, a, b);
  }

  /** One iteration of `op_q`'s loop copies its source to its output. */
  lemma QueryNextHere(g: State, x: int, y: int, sx: int, sy: int, n: int, i: int)
    requires Legal(g) && ValidPosition(g, x + 1 - n + i, y + 1)
    ensures GetCell(QueryNext(g, x, y, sx, sy, n, i), x + 1 - n + i, y + 1) == GetCell(g, sx + i, sy)
  {
  }

  /** One iteration `i` of `op_q`'s loop, as the grid `g2` it passes on,
      seen from a cell `(a, b)` it does not write. */
  lemma QueryAdvance(g: State, x: int, y: int, sx: int, sy: int, n: int, i: int, a: int, b: int) returns (g2: State)
    requires Legal(g) && i < n && (a != x + 1 - n + i || b != y + 1)
    ensures Legal(g2) && SameShape(g, g2) && g2.vars == g.vars
    ensures QueryFrom(g, x, y, sx, sy, n, i) == QueryFrom(g2, x, y, sx, sy, n, i + 1)
    ensures GetCell(g2, a, b) == GetCell(g, a, b)
  {
    g2 := QueryNext(g, x, y, sx, sy, n, i);
    QueryStep(g, x, y, sx, sy, n, i, GetPort(g, sx + i, sy, true).0, GetPort(g, sx + i, sy, true).1, g2);
    QueryNextElsewhere(g, x, y, sx, sy, n, i, a, b);
  }

  /** Iterations `i ..` of `op_q`'s loop write only the columns
      `x + 1 - n + k`, `k >= i`, of row `y + 1`. */
  lemma {:induction false} QueryKeeps(g: State, x: int, y: int, sx: int, sy: int, n: int, i: int, j: int)
    requires Legal(g) && j < i
    ensures GetCell(QueryFrom(g, x, y, sx, sy, n, i), x + 1 - n + j, y + 1) == GetCell(g, x + 1 - n + j, y + 1)
    decreases n - i
  {
    if i < n {
      var g2 := QueryAdvance(g, x, y, sx, sy, n, i, x + 1 - n + j, y + 1);
      QueryKeeps(g2, x, y, sx, sy, n, i + 1, j);
    }
  }

  /** The iteration `j` of `op_q`'s loop that copies source `j`, and the ones
      after it. */
  lemma QueryWritesHere(g: State, x: int, y: int, sx: int, sy: int, n: int, j: int)
    requires Legal(g) && j < n
    ensures ValidPosition(g, x + 1 - n + j, y + 1) ==>
              GetCell(QueryFrom(g, x, y, sx, sy, n, j), x + 1 - n + j, y + 1) == GetCell(g, sx + j, sy)
  {
    var g2 := QueryNext(g, x, y, sx, sy, n, j);
    QueryStep(g, x, y, sx, sy, n, j, GetPort(g, sx + j, sy, true).0, GetPort(g, sx + j, sy, true).1, g2);
    QueryKeeps(g2, x, y, sx, sy, n, j + 1, j);
  }

  /** Iteration `j` of `op_q`'s loop copies `(sx + j, sy)` to
      `(x + 1 - n + j, y + 1)`. The sources start right of the operator and
      the outputs end at it, so no read lands on a cell an earlier iteration
      wrote. */
  lemma {:induction false} QueryFromWrites(g: State, x: int, y: int, sx: int, sy: int, n: int, i: int, j: int)
    requires Legal(g) && 0 <= i <= j < n && x < sx
    requires ValidPosition(g, x + 1 - n + j, y + 1)
    ensures GetCell(QueryFrom(g, x, y, sx, sy, n, i), x + 1 - n + j, y + 1) == GetCell(g, sx + j, sy)
    decreases n - i
  {
    if i == j {
      QueryWritesHere(g, x, y, sx, sy, n, j);
    } else {
      var g2 := QueryAdvance(g, x, y, sx, sy, n, i, sx + j, sy);
      QueryFromWrites(g2, x, y, sx, sy, n, i + 1, j);
    }
  }

  /** `op_q` after its three operand reads, as the grid `g3` its loop
      starts from; the reads change no cell, `(a, b)` among them. */
  lemma QueryOperands(g: State, x: int, y: int, a: int, b: int) returns (g3: State)
    requires Legal(g)
    ensures Legal(g3) && SameShape(g, g3) && GetCell(g3, a, b) == GetCell(g, a, b)
    ensures x < Offset(x + 1, GetCell(g, x - 3, y))
    ensures Query(g, x, y) == QueryFrom(g3, x, y, Offset(x + 1, GetCell(g, x - 3, y)), Offset(y, GetCell(g, x - 2, y)),
                                        OrDefault(Base36(GetCell(g, x - 1, y)), 1), 0)
  {
    var g1 := GetPort(g, x - 3, y, false).0;
    var g2 := GetPort(g1, x - 2, y, false).0;
    g3 := GetPort(g2, x - 1, y, false).0;
  }

  /** `op_q` copies its `len` sources `(x + 1 + px + j, y + py)` into row
      `y + 1`, right-aligned to end at column `x`. */
  lemma QueryWrites(g: State, x: int, y: int, j: int)
    requires Legal(g) && 0 <= j < OrDefault(Base36(GetCell(g, x - 1, y)), 1)
    requires ValidPosition(g, x + 1 - OrDefault(Base36(GetCell(g, x - 1, y)), 1) + j, y + 1)
    ensures GetCell(Query(g, x, y), x + 1 - OrDefault(Base36(GetCell(g, x - 1, y)), 1) + j, y + 1)
            == GetCell(g, Offset(x + 1, GetCell(g, x - 3, y)) + j, Offset(y, GetCell(g, x - 2, y)))
  {
    var n := OrDefault(Base36(GetCell(g, x - 1, y)), 1);
    var sx, sy := Offset(x + 1, GetCell(g, x - 3, y)), Offset(y, GetCell(g, x - 2, y));
    var g3 := QueryOperands(g, x, y, sx + j, sy);
    QueryFromWrites(g3, x, y, sx, sy, n, 0, j);
  }
}
