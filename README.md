# Keiko simulation core in Dafny

Keiko is an Orca-style livecoding grid sequencer. Its program is a grid of
base-36 symbols. Each frame, `run_grid` clears the per-frame state and scans
the grid in row-major order. Every cell that holds an active operator runs:
it reads its neighbours through `get_port` and writes results through
`set_port`. The locks those calls leave stop the affected cells from acting
later in the same frame. The `:` operator sends MIDI notes into a linked
list of voices. The audio callback `process` walks that list, emits note-on
and note-off events, and unlinks expired notes.

This project models that core:

- `Codec` (codec.dfy): the symbol helpers `clamp`, `cisp`, `cchr`, `cb36`,
  `cuca`, `clca`, `cinc`, `cdec`, `valid_character` and `ctbl`, as
  functions over `char` and `int`.
- `Board` (board.dfy): the `Grid` record as a value `GridState`, with the
  cell and port primitives `valid_position` … `get_bang` as functions on it.
- `Operators` (operators.dfy): every operator of `operate` as a function on
  the grid value, written as the same sequence of port calls the source
  makes. The loops of `op_g`, `op_k`, `op_p`, `op_q`, `op_t`, `op_j`,
  `op_y` and `op_comment` become recursive functions over the loop index.
  `Operators.Dispatch` is the `switch` of `operate`.
- `OperatorFacts` (operator_facts.dfy): rhythm, range, movement and
  convergence properties stated about those functions.
- `Scheduler` (scheduler.dfy): `init_grid_frame`, the skip conditions and
  row-major scan of `run_grid`, and `run_grid` itself, as functions. Also
  lemmas about which cells one frame dispatches.
- `Notes` (notes.dfy): the `MidiNote` record, `send_midi` and `process`
  over the sequence of notes after the sentinel `voices`. There are lemmas
  on order, event counts and note lifetimes, and a `NoteList` class whose
  methods update that sequence in place.
- `Engine` (engine.dfy): the running interpreter. The class `Engine.Grid`
  holds the `data`, `lock`, `type` and `vars` arrays of keiko.h and updates
  them in place. Each method has a postcondition saying it leaves the grid
  equal to the corresponding function of `Board`, `Operators` or
  `Scheduler`. So every property proved of those functions holds of the
  imperative interpreter. The loops of the source stay `while` loops with
  invariants.

Integers are unbounded except where the source's width matters. The hash of
`op_r` is computed in `bv32`, and its final `key % (max - min) + min` is
evaluated with explicit unsigned 32-bit wrap-around, then read back as a
signed `int`. `cchr` reduces with `abs(v % 36)` under C's truncating `%`;
`Codec.CRem` models it, so a negative difference folds to a positive digit.

Two behaviours of the code look unintended; the model follows the code as written:

- `set_lock` re-types a cell as `Comment` when its type is *not* `NoOp`
  (keiko.c:136-137).
- The `channel == '.'` and `octave == '.'` guards of `op_midi` compare a
  base-36 value with the character code 46, so they never fire. They are
  modelled as written.

The loops of `op_j`, `op_y` and `op_comment` count an offset `i` from 1. The
model iterates over the row or column `x + i` (or `y + i`) itself, which
visits the same cells in the same order.

## Model

| member | source | states |
|---|---|---|
| Codec.CRem | keiko.c:25 | C's truncating `%`: for a positive divisor, the magnitude of the remainder is `|a| % b`, a negative dividend gives a remainder that is not positive, and it agrees with Euclidean `%` on non-negative `a` |
| Codec.Clamp | keiko.c:7-11 | the result lies in `[lo, hi]`, is `val` inside the range, `lo` below it and `hi` above it |
| Codec.Base36 | keiko.c:31-38 | always in 0..35; zero exactly for '0' and non-alphanumerics; digits map to their value and letters to 10..35 |
| Codec.CharOf | keiko.c:22-28 | `cchr` always yields an alphanumeric whose base-36 value is `|v| % 36`, and a letter keeps the case of the model character |
| Codec.ToUpper | keiko.c:41-45 | lower-case letters go to upper case with the same base-36 value; everything else is unchanged |
| Codec.ToLower | keiko.c:48-52 | upper-case letters go to lower case with the same base-36 value; everything else is unchanged |
| Codec.Inc | keiko.c:54-58 | `. : # *` are unchanged; otherwise the base-36 value goes up by one modulo 36, case kept |
| Codec.Dec | keiko.c:60-64 | `. : # *` are unchanged; otherwise the base-36 value goes down by one, and 0 maps to 1 because of `abs`; case kept |
| Codec.NoteOf | keiko.c:79-88 | `ctbl` is non-negative, is the value itself for digits, and for a lower-case letter is one more than for its upper-case form |
| Codec.CharOfBase36 | keiko.c:22-38 | round trip: `cchr(cb36(c), c) == c` for every digit and letter |
| Codec.CharOfFoldsSign | keiko.c:25 | `cchr(-v) == cchr(v)`, so `2 - 3` gives '1' and not 'z' |
| Codec.ValidCharIff | keiko.c:72-76 | `valid_character` accepts exactly the alphanumerics and `. : # *` |
| Codec.CharOfIsValid | keiko.c:22-28 | every symbol `cchr` produces passes `valid_character` |
| Codec.NoteTable | keiko.c:79-88 | `ctbl` maps C D E F G A B to 0 2 4 5 7 9 11 |
| Codec.SharpNotes | keiko.c:84-87 | lower-case letters are the sharps: c → 1, a → 10, b → 12 |
| Codec.NoteOctave | keiko.c:84-87 | from C to S, the letter seven places on is the same note an octave (12) higher |
| Board.Blank | keiko.c:795-805 | `init_grid`: the given size, frame 0, seed 1, every cell '.', unlocked and `NoOp`, every variable '.' |
| Board.Index | keiko.c:102 | the address `x + y * width` of an on-grid cell lies in `[0, length)` |
| Board.IndexOf | keiko.c:269-272 | every address `i < length` is the on-grid cell `(i % width, i / width)` |
| Board.IndexInjective | keiko.c:102 | distinct on-grid cells have distinct addresses |
| Board.GetCell | keiko.c:100-105 | off-grid reads give '.'; on a legal grid every read is a legal symbol |
| Board.GetType | keiko.c:114-120 | off-grid cells read as `NoOp` |
| Board.SetCell | keiko.c:107-112 | writes only when on-grid and the symbol is valid, and then changes exactly that one data entry; locks, types and variables are untouched |
| Board.SetType | keiko.c:123-128 | changes only the type of the addressed on-grid cell |
| Board.SetLock | keiko.c:131-139 | locks exactly the addressed on-grid cell, and re-types it `Comment` when its type was not `NoOp` |
| Board.SetPort | keiko.c:142-148 | locks exactly the addressed on-grid cell, types it `Output` and writes the symbol as `set_cell` would |
| Board.GetPort | keiko.c:151-160 | returns `get_cell`; with `lock` it locks exactly the addressed on-grid cell, without it no lock changes; data and variables are untouched |
| Board.GetBang | keiko.c:162-169 | true exactly when one of the four on-grid neighbours holds '*' |
| Board.SetPortSequence | keiko.c:142-148 | `set_port` is `set_lock`, then `set_type(Output)`, then `set_cell` |
| Board.GetPortSequence | keiko.c:151-160 | `get_port` is `set_lock` and `set_type`, then `get_cell` |
| Operators.AddSymbol | keiko.c:329-335 | `op_a` writes `(a + b) % 36`, in the case of `b` |
| Operators.Add | keiko.c:329-335 | only the cell below changes, and on the grid it holds the sum, locked |
| Operators.SubtractSymbol | keiko.c:338-344 | `op_b` writes `|a - b|`, in the case of `b` |
| Operators.Subtract | keiko.c:338-344 | only the cell below changes, and it holds the difference, locked |
| Operators.ClockSymbol | keiko.c:347-355 | the written value is `frame / rate % mod`, with rate 1 and mod 8 for zero operands |
| Operators.Clock | keiko.c:347-355 | only the cell below changes, and it holds the clock value of the current frame, locked |
| Operators.DelaySymbol | keiko.c:358-366 | '*' exactly when `frame % (rate * mod) == 0`, '.' otherwise |
| Operators.Delay | keiko.c:358-366 | only the cell below changes, and it holds the delay bang, locked |
| Operators.Move | keiko.c:369-380 | each mover keeps the frame invariants and the variable slots |
| Operators.IfSymbol | keiko.c:383-389 | '*' exactly when the two operands are equal, '.' otherwise |
| Operators.If | keiko.c:383-389 | only the cell below changes, and it holds the comparison result, locked |
| Operators.GenerateFrom | keiko.c:398-400 | every input cell `x + 1 + i … x + n` the loop reads ends up locked, and locks persist |
| Operators.GenerateNext | keiko.c:399-400 | one iteration of `op_g`'s loop keeps the frame invariants and the variable slots, and leaves the input it read locked |
| Operators.GenerateStep | keiko.c:398-400 | one iteration of `op_g`'s loop: read an input (locking it), write it at the offset, continue with the next index |
| Operators.Generator | keiko.c:392-401 | `op_g` keeps the frame invariants and the variable slots |
| Operators.Halt | keiko.c:404-408 | data untouched; the cell below is locked |
| Operators.IncrementSymbol | keiko.c:411-420 | written value `(val + step) % mod`, step 1 and mod 36 for zero operands, in the case of `mod` |
| Operators.Increment | keiko.c:411-420 | only the cell below changes, and it holds the incremented value, locked |
| Operators.JumpDown | keiko.c:428-430 | the row where `op_j`'s scan stops: every cell skipped holds the operator's own symbol, and the stop row is past the grid edge or holds another symbol |
| Operators.JumpDownSameCells | keiko.c:428-430 | the stop row depends only on the cell contents, so locks and types set before the scan do not move it |
| Operators.Jumper | keiko.c:423-433 | with a different symbol above, exactly the stop cell changes and receives it, locked; one row past the edge changes nothing; with the same symbol nothing changes |
| Operators.JumpRight | keiko.c:608-610 | the column where `op_y`'s scan stops, with the same guarantees as `JumpDown` |
| Operators.JumpRightSameCells | keiko.c:608-610 | the stop column depends only on the cell contents |
| Operators.Jymper | keiko.c:603-613 | as `Jumper`, with the link to the west and the scan going east |
| Operators.KonkatFrom | keiko.c:440-444 | every key cell the loop of `op_k` reads ends up locked, and variables are untouched |
| Operators.KonkatNext | keiko.c:441-443 | one iteration of `op_k`'s loop keeps the frame invariants and the variable slots, and leaves the key it read locked |
| Operators.KonkatStep | keiko.c:440-444 | one iteration of `op_k`'s loop: read a key (locking it), and when it is not '.', write that variable below it |
| Operators.Konkat | keiko.c:436-445 | `op_k` keeps the frame invariants and the variable slots |
| Operators.LessSymbol | keiko.c:448-454 | `op_l` writes one of its operands, the one with the smaller base-36 value, and `b` on a tie |
| Operators.Less | keiko.c:448-454 | only the cell below changes, and it holds the smaller operand, locked |
| Operators.MultiplySymbol | keiko.c:457-463 | `op_m` writes `a * b % 36`, in the case of `b` |
| Operators.Multiply | keiko.c:457-463 | only the cell below changes, and it holds the product, locked |
| Operators.Copy | keiko.c:485 | `set_port(…, get_port(…, true))`: only the target cell changes, and it holds the source cell's symbol, locked |
| Operators.Read | keiko.c:480-486 | only the cell below changes, and it holds the cell at offset `(1 + px, py)` east of the operator, locked |
| Operators.Slot | keiko.c:498 | `cb36(key) % len` lies in `[0, len)`, with len 1 for zero |
| Operators.LockRun | keiko.c:496-497 | the loop of `op_p` locks every on-grid cell of the run and leaves data untouched |
| Operators.Push | keiko.c:489-499 | the whole run of `len` cells below is locked, and only the slot `x + key % len` changes, receiving the value east of the operator |
| Operators.LockThenPut | keiko.c:496-498 | locking a run and then writing one slot changes only that slot and leaves the whole run locked |
| Operators.QueryFrom | keiko.c:509-510 | every source cell the loop of `op_q` reads ends up locked |
| Operators.QueryNext | keiko.c:510 | one iteration of `op_q`'s loop keeps the frame invariants and the variable slots, and leaves the source it read locked |
| Operators.QueryStep | keiko.c:509-510 | one iteration of `op_q`'s loop: read a source cell (locking it), write it to the row below, continue |
| Operators.Query | keiko.c:502-511 | `op_q` keeps the frame invariants and the variable slots |
| Operators.RandomBounds | keiko.c:518-519 | `max` defaults to 36 and `min == max` moves `min` one below, so the modulus is never zero |
| Operators.ModulusNonZero | keiko.c:519-526 | the unsigned modulus `max - min` taken modulo 2^32 is never zero |
| Operators.RandomInRange | keiko.c:521-527 | with `min < max`, the unsigned arithmetic of `op_r` does not wrap, and the value lies in `[min, max)` |
| Operators.RandomDegenerate | keiko.c:519-527 | with `min == max`, `op_r` always gives `max - 1`, whatever the hash |
| Operators.RandomSymbol | keiko.c:514-528 | the written symbol is alphanumeric, lies in `[min, max)` when `min < max`, is `max - 1` when they are equal, and keeps the case of `max` |
| Operators.Random | keiko.c:514-528 | only the cell below changes, and it holds the hashed value for this seed, cell and frame, locked |
| Operators.Track | keiko.c:545-554 | the run of `len` cells east is locked, and only the cell below changes, receiving the cell at slot `key % len` of that run |
| Operators.LockThenCopy | keiko.c:550-553 | locking a run and then copying one cell changes only the target, which holds the source's symbol |
| Operators.UclidSymbol | keiko.c:557-566 | '*' exactly when the bucket `(step * (frame + max - 1)) % max + step` reaches `max` |
| Operators.Uclid | keiko.c:557-566 | only the cell below changes, and it holds the Euclidean rhythm bang, locked |
| Operators.Variable | keiko.c:569-576 | a non-empty write operand stores the read operand in that variable and changes no cell; otherwise a non-empty read operand copies the variable's symbol below, locked |
| Operators.Write | keiko.c:593-600 | only the cell at offset `(px, py + 1)` changes, and it receives the value east of the operator, locked |
| Operators.LerpStepTowards | keiko.c:623-626 | one `op_z` step moves by at most `rate` toward the target and never past it, and lands on the target once within `rate` |
| Operators.LerpSymbol | keiko.c:616-628 | the written value is `val + step`, in the case of `target` |
| Operators.Lerp | keiko.c:616-628 | only the cell below changes, and it holds the stepped value, locked |
| Operators.Bang | keiko.c:322 | a dispatched '*' becomes '.', and nothing else changes |
| Operators.CommentStep | keiko.c:634-637 | one iteration of `op_comment`'s loop: lock the cell, then stop if it holds '#' |
| Operators.CommentFrom | keiko.c:634-637 | the loop of `op_comment` changes only locks and types, never a symbol or a variable |
| Operators.Comment | keiko.c:631-639 | `op_comment` changes no symbol and no variable |
| Operators.NoteRequest | keiko.c:647-654 | channel clamped to 0..15, and a channel operand of 16 or more gives 15; pitch `12 * octave + ctbl(note)`; velocity 35 for '.', otherwise the operand's value; length clamped to 1..36, and a zero length operand gives 1 |
| Operators.MidiSend | keiko.c:647-657 | a note is requested exactly when a bang is adjacent, with the velocity and length operands read here |
| Operators.Midi | keiko.c:642-658 | a note is requested exactly when the note operand is not `. : # *` and a bang is adjacent, and then it is the `NoteRequest` of the five operands; no symbol changes |
| Operators.DispatchMover | keiko.c:297-315 | e, n, s, w in either case dispatch to the mover of their direction |
| Operators.DispatchMidi | keiko.c:324 | ':' dispatches to the MIDI operator |
| Operators.Dispatch | keiko.c:294-325 | every operator keeps the frame invariants, and only ':' can request a note |
| Operators.Operate | keiko.c:291-326 | `operate` keeps the frame invariants: shape, existing locks and legality; only ':' can request a note |
| OperatorFacts.ClockCycle | keiko.c:353 | the clock repeats every `rate * mod` frames and shows `k % mod` for `rate` frames in a row |
| OperatorFacts.FreeExactly | keiko.c:372 | the guard of `op_e`, and likewise of `op_n` (keiko.c:469), `op_s` (keiko.c:534) and `op_w` (keiko.c:582): a mover is free exactly when the cell one step on is on the grid and holds '.' |
| OperatorFacts.MoveBlocked | keiko.c:369-380 | a blocked mover becomes '*' and no other cell changes |
| OperatorFacts.MoveFree | keiko.c:369-380 | a free mover leaves '.' and places its own symbol, case kept and locked, one step on; no other cell changes |
| OperatorFacts.LerpAfter | keiko.c:616-628 | after any number of frames, repeated `op_z` stays between its start and its target |
| OperatorFacts.LerpConverges | keiko.c:623-626 | repeated `op_z` reaches the target within `|target - val|` frames |
| OperatorFacts.UclidUnitStep | keiko.c:563-565 | with step 1, `op_u` bangs exactly on the frames divisible by `max` |
| OperatorFacts.UclidFull | keiko.c:563-565 | with step at least `max`, `op_u` bangs on every frame |
| OperatorFacts.UclidBangs | keiko.c:564-565 | the number of bangs `op_u` gives over `k` consecutive frames is at most `k` |
| OperatorFacts.UclidBangRises | keiko.c:564-565 | with `step <= max`, `op_u` bangs on a frame exactly when `step * n / max` rises as `n` passes `frame + max - 1`, and it rises by at most one |
| OperatorFacts.UclidBangsTelescope | keiko.c:564-565 | over `k` consecutive frames the bangs add up to the rise of `step * n / max` |
| OperatorFacts.UclidEuclidean | keiko.c:556-566 | the Euclidean rhythm: with `step <= max`, any `max` consecutive frames hold exactly `step` bangs |
| OperatorFacts.VariableWriteRead | keiko.c:569-576 | a value stored by one `V` is read back below a later reading `V` |
| OperatorFacts.CommentLocksSpan | keiko.c:634-637 | a comment locks every cell east of it up to and including the next '#' |
| OperatorFacts.CommentStopsAtHash | keiko.c:634-637 | a comment changes no lock past the next '#' |
| OperatorFacts.SetPortElsewhere | keiko.c:142-148 | `set_port` on one cell leaves the symbol of every other cell as it was |
| OperatorFacts.GenerateNextElsewhere | keiko.c:399-400 | one iteration of `op_g`'s loop changes the symbol of no cell but its output |
| OperatorFacts.GenerateAdvance | keiko.c:399-400 | one iteration of `op_g`'s loop passes on a legal grid of the same shape and variables, from which the rest of the loop gives the same result, and with every cell but the output unchanged |
| OperatorFacts.GenerateKeeps | keiko.c:398-400 | the iterations from `i` on leave the outputs of earlier iterations alone |
| OperatorFacts.GenerateWritesHere | keiko.c:398-400 | iteration `j` and the ones after it leave input `j` at output `j` |
| OperatorFacts.GenerateFromWrites | keiko.c:398-400 | the loop from any `i <= j` leaves input `(x + 1 + j, y)` at output `(x + j + px, y + 1 + py)`: no later write and no earlier one disturbs it |
| OperatorFacts.GeneratorWrites | keiko.c:392-401 | `op_g` copies each of its `len` inputs to the offset `(px, py + 1)` |
| OperatorFacts.KonkatNextElsewhere | keiko.c:441-443 | one iteration of `op_k`'s loop changes no cell outside the column of its key |
| OperatorFacts.KonkatNextHere | keiko.c:441-443 | one iteration of `op_k`'s loop writes below a key that is not '.' the variable it names, and leaves the cell below a '.' key alone |
| OperatorFacts.KonkatAdvance | keiko.c:441-443 | one iteration of `op_k`'s loop passes on a legal grid of the same shape and variables, from which the rest of the loop gives the same result, with the other columns unchanged |
| OperatorFacts.KonkatKeeps | keiko.c:440-444 | the iterations from `i` on leave the cells below earlier keys alone |
| OperatorFacts.KonkatWritesHere | keiko.c:440-444 | iteration `j` and the ones after it leave below key `j` its variable, or the old symbol for a '.' key |
| OperatorFacts.KonkatFromWrites | keiko.c:440-444 | the loop from any `i <= j` leaves below key `j` its variable, or the old symbol for a '.' key |
| OperatorFacts.KonkatWrites | keiko.c:436-445 | `op_k` writes below each of its `len` keys that is not '.' the variable that key names, and leaves the cell below a '.' key as it was |
| OperatorFacts.QueryNextElsewhere | keiko.c:510 | one iteration of `op_q`'s loop changes the symbol of no cell but its output |
| OperatorFacts.QueryNextHere | keiko.c:510 | one iteration of `op_q`'s loop copies its source to its output |
| OperatorFacts.QueryAdvance | keiko.c:510 | one iteration of `op_q`'s loop passes on a legal grid of the same shape and variables, from which the rest of the loop gives the same result, with every cell but the output unchanged |
| OperatorFacts.QueryKeeps | keiko.c:509-510 | the iterations from `i` on leave the outputs of earlier iterations alone |
| OperatorFacts.QueryWritesHere | keiko.c:509-510 | iteration `j` and the ones after it leave source `j` at output `j` |
| OperatorFacts.QueryFromWrites | keiko.c:509-510 | with the sources right of the operator, the loop from any `i <= j` leaves source `(sx + j, sy)` at `(x + 1 - n + j, y + 1)` |
| OperatorFacts.QueryOperands | keiko.c:505-508 | the three operand reads of `op_q` change no symbol, put the first source column right of the operator, and leave the loop to do the rest |
| OperatorFacts.QueryWrites | keiko.c:502-511 | `op_q` copies its `len` sources `(x + 1 + px + j, y + py)` into row `y + 1`, right-aligned to end at column `x` |
| Scheduler.Reset | keiko.c:283-289 | `init_grid_frame` clears every lock and type and every variable, and keeps the symbols and shape |
| Scheduler.Pos | keiko.c:269-272 | the position `(i % width, i / width)` the scan visits is on the grid and has address `i` |
| Scheduler.ScanFrom | keiko.c:269-278 | the rest of the scan keeps the frame invariants, and dispatches only addresses it has still to visit |
| Scheduler.RunGrid | keiko.c:265-281 | `run_grid` keeps the dimensions and seed, advances `frame` by exactly one, and leaves a legal grid |
| Scheduler.ScanDispatches | keiko.c:273-277 | the scan dispatches the address it reaches exactly when it is eligible, and on a legal grid that is an unlocked upper-case letter, ':', '#' or '*', or an unlocked lower-case letter with a bang next to it |
| Scheduler.Dispatch | keiko.c:277 | dispatching an eligible address lists it first, followed by what the scan of the grid `operate` leaves dispatches |
| Scheduler.OperatedIncreasing | keiko.c:269-278 | the scan dispatches addresses in strictly increasing order, so no cell operates twice in a frame |
| Scheduler.OperatedCons | keiko.c:269-278 | a dispatched address is listed before every address the rest of the scan dispatches |
| Scheduler.LockedNeverOperated | keiko.c:274 | a cell that is locked by the time the scan reaches it is never dispatched |
| Scheduler.ScanEmpty | keiko.c:269-278 | on an all-'.' grid, the scan dispatches nothing, requests nothing and changes no symbol |
| Scheduler.RunGridEmpty | keiko.c:265-281 | `run_grid` leaves an empty grid empty and requests no notes |
| Scheduler.MoverOnce | keiko.c:369-380 | a free mover's new cell holds its symbol and is never dispatched again in that frame, in any direction |
| Scheduler.OperateFreeMover | keiko.c:369-380 | `operate` on a free mover leaves its symbol, locked, in the cell one step on |
| Notes.Byte | keiko.c:207-218 | storing an `int` into a MIDI data byte keeps it modulo 256 |
| Notes.NewNote | keiko.c:226-237 | `send_midi`'s node: triggered, with the channel and value given, velocity tripled, length converted to samples |
| Notes.Send | keiko.c:226-237 | exactly one triggered note is added, at the front behind the sentinel, and the list behind it is unchanged |
| Notes.SendAll | keiko.c:226-237 | sending several requests adds them all in front, the last one first, and keeps the old list behind |
| Notes.SendAllAppend | keiko.c:226-237 | sending `a + b` is sending `a`, then `b` |
| Notes.Deliver | keiko.c:650-654 | an operator with no request leaves the list as it was; one with a request sends exactly that note |
| Notes.DeliverSendAll | keiko.c:650-654 | delivering an optional request is sending the list of at most one request |
| Notes.Advance | keiko.c:198-222 | one visit of `process`: a triggered note emits note-on and loses its trigger without being decremented; otherwise the length drops by `nframes`, and below zero the note emits note-off and is unlinked |
| Notes.ProcessAll | keiko.c:199-222 | `process` on the list contents keeps at most as many notes as it had and emits at most one event per note, and no kept note is still triggered |
| Notes.SurvivorIndicesIncreasing | keiko.c:198-222 | the positions of the surviving notes are listed in increasing order |
| Notes.SurvivorIndicesMembers | keiko.c:198-222 | a position is listed exactly when its note is triggered or has length left |
| Notes.SurvivorsAdvanced | keiko.c:198-222 | the kept list is the surviving notes, each advanced once, in their original order |
| Notes.ProcessKeepsOrder | keiko.c:198-222 | the surviving notes are exactly those triggered or with length left, in their original relative order, each advanced once |
| Notes.ProcessEventCount | keiko.c:198-222 | `process` emits one event per triggered note plus one per unlinked note |
| Notes.SentNoteOnFirst | keiko.c:198-237 | a freshly sent note is the first note-on the next `process` emits, and it stays linked |
| Notes.NoteLifetime | keiko.c:210-217 | a note of length `L` survives `L / nframes` further calls and is switched off on the next, so its note-off is strictly later than its note-on |
| Notes.AdvanceTimes | keiko.c:209 | `k` untriggered visits shorten a note by `k * nframes` samples |
| Notes.ProcessStep | keiko.c:198-222 | one iteration of the loop keeps the final list and events it leads to |
| Notes.NoteList.constructor | keiko.c:248-250 | the list starts with only the sentinel: no active notes |
| Notes.NoteList.SendMidi | keiko.c:226-237 | the list becomes `Send` of the old list |
| Notes.NoteList.Process | keiko.c:191-224 | the loop over the list returns the events and leaves the list that `ProcessAll` computes |
| Notes.NoteList.ListLength | keiko.c:171-178 | `get_list_length` counts the sentinel too: active notes plus one |
| Engine.Grid.constructor | keiko.c:795-805 | `init_grid` leaves the blank grid of the given size |
| Engine.Grid.InitFrame | keiko.c:283-289 | the arrays become `Scheduler.Reset` of the old grid |
| Engine.Grid.Address | keiko.c:102 | the array index of an on-grid cell is `Board.Index` |
| Engine.Grid.GetCell | keiko.c:100-105 | returns `Board.GetCell` of the grid and changes nothing |
| Engine.Grid.SetCell | keiko.c:107-112 | the grid becomes `Board.SetCell` of the old grid |
| Engine.Grid.GetType | keiko.c:114-120 | returns `Board.GetType` |
| Engine.Grid.SetType | keiko.c:123-128 | the grid becomes `Board.SetType` of the old grid |
| Engine.Grid.SetLock | keiko.c:131-139 | the grid becomes `Board.SetLock` of the old grid |
| Engine.Grid.SetPort | keiko.c:142-148 | the grid becomes `Board.SetPort` of the old grid |
| Engine.Grid.GetPort | keiko.c:151-160 | grid and result are `Board.GetPort` of the old grid |
| Engine.Grid.GetBang | keiko.c:162-169 | returns `Board.GetBang` |
| Engine.Grid.Add | keiko.c:329-335 | the grid becomes `Operators.Add` of the old grid |
| Engine.Grid.Subtract | keiko.c:338-344 | the grid becomes `Operators.Subtract` of the old grid |
| Engine.Grid.Clock | keiko.c:347-355 | the grid becomes `Operators.Clock` of the old grid |
| Engine.Grid.Delay | keiko.c:358-366 | the grid becomes `Operators.Delay` of the old grid |
| Engine.Grid.Move | keiko.c:369-380 | `op_e`, and likewise `op_n`, `op_s`, `op_w` (keiko.c:466-590): the grid becomes `Operators.Move` for that direction |
| Engine.Grid.If | keiko.c:383-389 | the grid becomes `Operators.If` of the old grid |
| Engine.Grid.Generator | keiko.c:392-401 | the grid becomes `Operators.Generator` of the old grid |
| Engine.Grid.GenerateOne | keiko.c:399-400 | one loop iteration leaves the rest of `GenerateFrom` unchanged |
| Engine.Grid.Halt | keiko.c:404-408 | the grid becomes `Operators.Halt` of the old grid |
| Engine.Grid.Increment | keiko.c:411-420 | the grid becomes `Operators.Increment` of the old grid |
| Engine.Grid.Jumper | keiko.c:423-433 | the grid becomes `Operators.Jumper` of the old grid |
| Engine.Grid.JumpDownRow | keiko.c:428-430 | the loop returns the stop row `JumpDown` |
| Engine.Grid.Konkat | keiko.c:436-445 | the grid becomes `Operators.Konkat` of the old grid |
| Engine.Grid.KonkatOne | keiko.c:441-444 | one loop iteration leaves the rest of `KonkatFrom` unchanged |
| Engine.Grid.Less | keiko.c:448-454 | the grid becomes `Operators.Less` of the old grid |
| Engine.Grid.Multiply | keiko.c:457-463 | the grid becomes `Operators.Multiply` of the old grid |
| Engine.Grid.Read | keiko.c:480-486 | the grid becomes `Operators.Read` of the old grid |
| Engine.Grid.Copy | keiko.c:485 | the grid becomes `Operators.Copy` of the old grid |
| Engine.Grid.LockRun | keiko.c:496-497 | the loop leaves `Operators.LockRun` of the old grid |
| Engine.Grid.Push | keiko.c:489-499 | the grid becomes `Operators.Push` of the old grid |
| Engine.Grid.LockThenPut | keiko.c:496-498 | the grid becomes `Operators.LockThenPut` of the old grid |
| Engine.Grid.Query | keiko.c:502-511 | the grid becomes `Operators.Query` of the old grid |
| Engine.Grid.QueryRun | keiko.c:509-510 | the loop leaves `QueryFrom` of the old grid |
| Engine.Grid.QueryOne | keiko.c:510 | one loop iteration leaves the rest of `QueryFrom` unchanged |
| Engine.Grid.Random | keiko.c:514-528 | the grid becomes `Operators.Random` of the old grid |
| Engine.Grid.Track | keiko.c:545-554 | the grid becomes `Operators.Track` of the old grid |
| Engine.Grid.LockThenCopy | keiko.c:550-553 | the grid becomes `Operators.LockThenCopy` of the old grid |
| Engine.Grid.Uclid | keiko.c:557-566 | the grid becomes `Operators.Uclid` of the old grid |
| Engine.Grid.Variable | keiko.c:569-576 | cells and variable slots become `Operators.Variable` of the old grid |
| Engine.Grid.Write | keiko.c:593-600 | the grid becomes `Operators.Write` of the old grid |
| Engine.Grid.Jymper | keiko.c:603-613 | the grid becomes `Operators.Jymper` of the old grid |
| Engine.Grid.JumpRightColumn | keiko.c:608-610 | the loop returns the stop column `JumpRight` |
| Engine.Grid.Lerp | keiko.c:616-628 | the grid becomes `Operators.Lerp` of the old grid |
| Engine.Grid.Comment | keiko.c:631-639 | the grid becomes `Operators.Comment` of the old grid |
| Engine.Grid.CommentRun | keiko.c:634-637 | the loop leaves `CommentFrom` of the old grid |
| Engine.Grid.CommentOne | keiko.c:635-636 | one loop iteration: either the comment stops here, or the rest of `CommentFrom` is unchanged |
| Engine.Grid.Midi | keiko.c:642-658 | the grid becomes `Operators.Midi` of the old grid, and the note list receives its request, if any |
| Engine.Grid.MidiSend | keiko.c:647-657 | the grid and note list follow `Operators.MidiSend` |
| Engine.Grid.MidiFire | keiko.c:649-657 | with a bang adjacent, the note goes to the list and the cell is typed `Operator`; otherwise it is typed `LeftInput` and the list is unchanged |
| Engine.Grid.Operate | keiko.c:291-326 | `operate`: the grid becomes `Operators.Operate`, and the note list receives its request |
| Engine.Grid.Dispatch | keiko.c:294-325 | the `switch`: the grid becomes `Operators.Dispatch`, and the note list receives its request |
| Engine.Grid.DispatchGrid | keiko.c:294-323 | the cases of the `switch` other than ':': the grid becomes `Operators.Dispatch`, and no note is requested |
| Engine.Grid.Visit | keiko.c:270-278 | the cell at address `i` is operated exactly when it passes the skip conditions (not '.', not locked, not a digit, and a lower-case letter only with a bang); otherwise nothing changes |
| Engine.Grid.Step | keiko.c:269-278 | one iteration keeps what remains of the scan: the same final grid, and the same notes in total |
| Engine.Grid.Scan | keiko.c:269-278 | the loop leaves the grid `ScanFrom` computes and sends its requests to the note list in order |
| Engine.Grid.RunGrid | keiko.c:265-281 | `run_grid`: the grid becomes `Scheduler.RunGrid` of the old grid, and the note list receives that frame's requests in order |

## Left out

- SDL rendering, the UI and the editor (`draw_*`, `redraw`, `select1`, `insert`, clipboard, `do_key`/`do_mouse`/`do_text`, `init`, `quit`), and `frame`, which only runs `run_grid` and redraws: pixel and input handling, not simulation.
- Document file I/O (`make_doc`, `open_doc`, `save_doc`, `scpy`) and the `main` loop with its SDL timing: I/O.
- JACK plumbing (`init_midi`, `jack_port_get_buffer`, `jack_midi_clear_buffer`, `jack_midi_event_reserve`): emitted events are returned as a sequence instead.
- Notes.NewNote: the float conversion `length * 60 / BPM * sample_rate` is replaced by an integer `samplesPerBeat` parameter. Floating point and the sample rate query are not modelled.
- Concurrency between `send_midi` on the UI thread and `process` on the audio thread: the two are modelled as sequential operations.
- Notes.NoteList: the linked list behind the sentinel `voices` is modelled as a sequence field. Node allocation, `free` and aliasing between nodes are not modelled.
- The debug printers `print_*_grid`, `error`, and the `printf` of `operate`'s unknown-symbol branch: output only. The unknown branch is modelled as doing nothing more.
- midiseq.c, a standalone example sequencer, is not part of this model.
- Engine.Grid.RunGrid: `frame` is an unbounded `nat`. The source's 32-bit `int` overflow after 2^31 frames is not modelled.
- Operators.Bucket: `op_u` computes `step * (frame + max - 1)` in 32-bit `int` (keiko.c:564). With step 35 that product overflows once `frame` passes about 2^31 / 35, long before `frame` itself does. The model computes it unbounded, so `UclidSymbol` and the rhythm lemmas describe the frames before that overflow.
- Operators.Generator, Operators.Konkat, Operators.Query: the function contracts state only the frame invariants. The cells they write are stated by `OperatorFacts.GeneratorWrites`, `OperatorFacts.KonkatWrites` and `OperatorFacts.QueryWrites`.
- Operators.Hash: the bit mixing of `op_r` is modelled exactly in `bv32`, but nothing is proved about the hash itself (for instance that its mixing steps are a permutation of the 32-bit words). The contracts about `op_r` hold for every key.
- Operators.Move: the function contract states only the frame invariants. Its effect is stated by `OperatorFacts.MoveBlocked`, `OperatorFacts.MoveFree` and `Scheduler.MoverOnce`.
- Cell types (`Comment`, `LeftInput`, `Operator`, …) only colour the display. They are modelled exactly, but no property concerns them beyond the primitives' contracts.
