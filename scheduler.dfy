/** The frame scheduler of keiko.c: `init_grid_frame` and the row-major scan
    of `run_grid`, as functions on the grid value. The scan reads the grid as
    the operators already visited have left it. */
module Scheduler {
  import opened Codec
  import opened Board
  import opened Notes
  import opened Operators
  import OperatorFacts

  /** The outcome of a scan: the grid, the notes requested from the note list
      in the order `send_midi` was called, and the addresses that were
      dispatched to `operate`, in scan order. */
  datatype Scan = Scan(grid: State, requests: seq<Request>, operated: seq<int>)

  /** `init_grid_frame`: clears every lock and category and empties every
      variable slot; symbols, shape, frame and seed are kept. */
  function Reset(g: State): (r: State)
    ensures SameShape(g, r) && r.data == g.data
    ensures forall i :: 0 <= i < MAXSZ ==> !r.lock[i] && r.types[i] == NoOp
    ensures forall k :: 0 <= k < N_VARS ==> r.vars[k] == '.'
    ensures Legal(g) ==> Legal(r)
  {
    g.(lock := seq(MAXSZ, _ => false), types := seq(MAXSZ, _ => NoOp), vars := seq(N_VARS, _ => '.'))
  }

  /** The position `(i % width, i / width)` the loop of `run_grid` visits at
      address `i`. */
  function Pos(g: State, i: int): (p: (int, int))
    requires 0 <= i < g.length
    ensures ValidPosition(g, p.0, p.1) && Index(g, p.0, p.1) == i
  {
    IndexOf(g, i);
    (i % g.width, i / g.width)
  }

  /** The skip conditions of `run_grid`'s loop: address `i` is dispatched
      when its symbol is not '.', it is not locked, it is not a digit, and a
      lower-case symbol has a bang next to it. */
  predicate Eligible(g: State, i: int)
    requires 0 <= i < g.length
  {
    var c := g.data[i];
    && c != '.'
    && !g.lock[i]
    && !IsDigit(c)
    && !(IsLower(c) && !GetBang(g, Pos(g, i).0, Pos(g, i).1))
  }

  /** Iterations `i .. length - 1` of the loop of `run_grid`. */
  function ScanFrom(g: State, i: nat): (s: Scan)
    requires Legal(g)
    ensures Evolves(g, s.grid)
    ensures forall k :: 0 <= k < |s.operated| ==> i <= s.operated[k] < g.length
    decreases g.length - i
  {
    if i >= g.length then Scan(g, [], [])
    else if Eligible(g, i) then
      var o := Operate(g, Pos(g, i).0, Pos(g, i).1, g.data[i]);
      var s := ScanFrom(o.0, i + 1);
      Scan(s.grid, (if o.1.Some? then [o.1.value] else []) + s.requests, [i] + s.operated)
    else ScanFrom(g, i + 1)
  }

  /** `run_grid`: reset the frame state, scan the grid once, and advance the
      frame counter by one. */
  function RunGrid(g: State): (s: Scan)
    requires Legal(g)
    ensures s.grid.width == g.width && s.grid.height == g.height && s.grid.length == g.length
    ensures s.grid.frame == g.frame + 1 && s.grid.seed == g.seed
    ensures Legal(s.grid)
  {
    var s := ScanFrom(Reset(g), 0);
    s.(grid := s.grid.(frame := s.grid.frame + 1))
  }

  // ---------------------------------------------------------------------
  // Properties of the scan

  /** Putting a smaller value in front keeps a sequence strictly increasing. */
  lemma ConsIncreasing(i: int, rest: seq<int>)
    requires StrictlyIncreasing(rest) && forall k :: 0 <= k < |rest| ==> i < rest[k]
    ensures StrictlyIncreasing([i] + rest)
  {
    var ops := [i] + rest;
    forall j, k | 0 <= j < k < |ops|
      ensures ops[j] < ops[k]
    {
      assert ops[k] == rest[k - 1];
      if j > 0 {
        assert ops[j] == rest[j - 1];
      }
    }
  }

  /** Dispatching an eligible address `i` lists `i`, then whatever the scan
      of the grid `g2` that `operate` leaves dispatches from `i + 1` on. */
  lemma Dispatch(g: State, i: nat) returns (g2: State)
    requires Legal(g) && i < g.length && Eligible(g, i)
    ensures Evolves(g, g2) && Legal(g2)
    ensures ScanFrom(g, i).operated == [i] + ScanFrom(g2, i + 1).operated
  {
    g2 := Operate(g, Pos(g, i).0, Pos(g, i).1, g.data[i]).0;
  }

  /** When the scan dispatches address `i`, it lists `i` before the
      addresses the rest of the scan dispatches. */
  lemma OperatedCons(g: State, i: nat)
    requires Legal(g) && i < g.length && Eligible(g, i)
    requires StrictlyIncreasing(ScanFrom(Operate(g, Pos(g, i).0, Pos(g, i).1, g.data[i]).0, i + 1).operated)
    ensures StrictlyIncreasing(ScanFrom(g, i).operated)
  {
    ConsIncreasing(i, ScanFrom(Operate(g, Pos(g, i).0, Pos(g, i).1, g.data[i]).0, i + 1).operated);
  }

  /** The scan dispatches the address it has reached exactly when that
      address is eligible. In a legal grid, that is an unlocked upper-case
      letter, an unlocked ':', '#' or '*', or an unlocked lower-case letter
      with a bang next to it: digits and '.' never act. */
  lemma ScanDispatches(g: State, i: nat)
    requires Legal(g) && i < g.length
    ensures i in ScanFrom(g, i).operated <==> Eligible(g, i)
    ensures Eligible(g, i) <==>
      var c := g.data[i];
      && !g.lock[i]
      && (|| IsUpper(c)
          || c == ':' || c == '#' || c == '*'
          || (IsLower(c) && GetBang(g, Pos(g, i).0, Pos(g, i).1)))
  {
    assert IsValidChar(g.data[i]);
  }

  /** Every cell the scan dispatches comes after the cells it dispatched
      before: no address is operated twice in one frame. */
  lemma {:induction false} OperatedIncreasing(g: State, i: nat)
    requires Legal(g)
    ensures StrictlyIncreasing(ScanFrom(g, i).operated)
    decreases g.length - i
  {
    if i < g.length {
      if Eligible(g, i) {
        var g2 := Dispatch(g, i);
        OperatedIncreasing(g2, i + 1);
        ConsIncreasing(i, ScanFrom(g2, i + 1).operated);
      } else {
        OperatedIncreasing(g, i + 1);
      }
    }
  }

  /** A cell that is locked when the scan reaches it, or earlier, is never
      dispatched: locks set by an operator's output or right-hand input keep
      that cell from acting for the rest of the frame. */
  lemma {:induction false} LockedNeverOperated(g: State, i: nat, j: int)
    requires Legal(g) && 0 <= j < MAXSZ && g.lock[j]
    ensures j !in ScanFrom(g, i).operated
    decreases g.length - i
  {
    if i < g.length {
      if Eligible(g, i) {
        var g2 := Dispatch(g, i);
        LockedNeverOperated(g2, i + 1, j);
      } else {
        LockedNeverOperated(g, i + 1, j);
      }
    }
  }

  /** An empty grid: every cell holds '.'. */
  predicate AllEmpty(g: State)
  {
    forall i :: 0 <= i < MAXSZ ==> g.data[i] == '.'
  }

  /** On an empty grid the scan dispatches nothing and changes no symbol. */
  lemma {:induction false} ScanEmpty(g: State, i: nat)
    requires Legal(g) && AllEmpty(g)
    ensures ScanFrom(g, i).grid.data == g.data
    ensures ScanFrom(g, i).requests == [] && ScanFrom(g, i).operated == []
    decreases g.length - i
  {
    if i < g.length {
      assert !Eligible(g, i);
      ScanEmpty(g, i + 1);
    }
  }

  /** `run_grid` leaves an empty grid empty and requests no notes. */
  lemma RunGridEmpty(g: State)
    requires Legal(g) && AllEmpty(g)
    ensures RunGrid(g).grid.data == g.data && RunGrid(g).requests == []
  {
    ScanEmpty(Reset(g), 0);
  }

  /** A mover moves at most once per frame: when the scan dispatches a free
      mover at address `i`, the cell it moves into is never dispatched in
      the rest of that frame. Moving east or south, the scan has still to
      reach that cell, and the lock set by `set_port` makes it skip it;
      moving north or west, the scan has already passed it. */
  lemma MoverOnce(g: State, i: nat, d: Direction)
    requires Legal(g) && i < g.length && Eligible(g, i)
    requires ToLower(g.data[i]) == MoverSymbol(d) && !Blocked(g, Pos(g, i).0, Pos(g, i).1, d)
    ensures var x, y := Pos(g, i).0, Pos(g, i).1;
            var nx, ny := Neighbour(x, y, d).0, Neighbour(x, y, d).1;
            var g1 := Operate(g, x, y, g.data[i]).0;
            && ValidPosition(g, nx, ny)
            && GetCell(g1, nx, ny) == g.data[i]
            && Index(g, nx, ny) !in ScanFrom(g1, i + 1).operated
  {
    var x, y := Pos(g, i).0, Pos(g, i).1;
    var nx, ny := Neighbour(x, y, d).0, Neighbour(x, y, d).1;
    OperateFreeMover(g, x, y, g.data[i], d);
    var g1 := Operate(g, x, y, g.data[i]).0;
    var j := Index(g, nx, ny);
    if j > i {
      LockedNeverOperated(g1, i + 1, j);
    }
  }

  /** A free mover dispatched by `operate` leaves its symbol, locked, in the
      cell one step on. */
  lemma OperateFreeMover(g: State, x: int, y: int, c: char, d: Direction)
    requires Legal(g) && ValidPosition(g, x, y) && IsValidChar(c)
    requires ToLower(c) == MoverSymbol(d) && !Blocked(g, x, y, d)
    ensures var nx, ny := Neighbour(x, y, d).0, Neighbour(x, y, d).1;
            var g1 := Operate(g, x, y, c).0;
            && ValidPosition(g, nx, ny)
            && GetCell(g1, nx, ny) == c
            && g1.lock[Index(g, nx, ny)]
  {
    var g0 := SetType(g, x, y, Operator);
    assert Blocked(g0, x, y, d) == Blocked(g, x, y, d);
    DispatchMover(g0, x, y, c, d);
    OperatorFacts.MoveFree(g0, x, y, c, d);
  }
}
