/** The symbol codec of the Keiko grid: base-36 values of cell symbols, the
    four control symbols, case-preserving re-encoding and the note table.
    Cell symbols are modelled as Dafny `char`; every symbol the grid can hold
    is ASCII. */
module Codec {

  /** Number of base-36 digits, and of variable slots (keiko.h `N_VARS`). */
  const N_VARS: int := 36

  predicate IsDigit(c: char) { '0' <= c <= '9' }
  predicate IsUpper(c: char) { 'A' <= c <= 'Z' }
  predicate IsLower(c: char) { 'a' <= c <= 'z' }
  predicate IsLetter(c: char) { IsUpper(c) || IsLower(c) }
  predicate IsAlnum(c: char) { IsDigit(c) || IsLetter(c) }

  function Abs(a: int): (r: nat)
  {
    if a < 0 then -a else a
  }

  /** C's `%` on `int`: the remainder takes the sign of the dividend. */
  function CRem(a: int, b: int): (r: int)
    requires b > 0
    ensures Abs(r) == Abs(a) % b
    ensures a >= 0 ==> r == a % b
    ensures a < 0 ==> r <= 0
  {
    if a >= 0 then a % b else -((-a) % b)
  }

  /** `clamp`: the lower bound is compared first, so `lo` wins when `lo > hi`. */
  function Clamp(val: int, lo: int, hi: int): (r: int)
    ensures lo <= hi ==> lo <= r <= hi
    ensures lo <= val <= hi ==> r == val
    ensures val < lo ==> r == lo
    ensures lo <= val && hi < val ==> r == hi
  {
    if val >= lo then (if val <= hi then val else hi) else lo
  }

  /** `cisp`: the four control symbols. */
  predicate IsSpecial(c: char)
  {
    c == '.' || c == ':' || c == '#' || c == '*'
  }

  /** `cb36`: digits are 0..9, letters of either case 10..35, anything else 0. */
  function Base36(c: char): (r: int)
    ensures 0 <= r < N_VARS
    ensures r == 0 <==> c == '0' || !IsAlnum(c)
    ensures IsAlnum(c) ==> (r < 10 <==> IsDigit(c))
    ensures IsDigit(c) ==> r == c as int - '0' as int
  {
    if IsDigit(c) then c as int - '0' as int
    else if IsUpper(c) then c as int - 'A' as int + 10
    else if IsLower(c) then c as int - 'a' as int + 10
    else 0
  }

  /** `cchr`: the symbol of `abs(v % 36)`; a letter takes the case of `like`
      (upper case only when `like` is an upper-case letter). */
  function CharOf(v: int, like: char): (r: char)
    ensures IsAlnum(r)
    ensures Base36(r) == Abs(v) % N_VARS
    ensures IsLetter(r) ==> (IsUpper(r) <==> IsUpper(like))
  {
    var m := Abs(CRem(v, N_VARS));
    if m <= 9 then ('0' as int + m) as char
    else ((if IsUpper(like) then 'A' as int else 'a' as int) + m - 10) as char
  }

  /** `cuca`: lower-case letters to upper case, everything else unchanged. */
  function ToUpper(c: char): (r: char)
    ensures IsLower(c) ==> IsUpper(r) && Base36(r) == Base36(c)
    ensures !IsLower(c) ==> r == c
  {
    if IsLower(c) then ('A' as int + (c as int - 'a' as int)) as char else c
  }

  /** `clca`: upper-case letters to lower case, everything else unchanged. */
  function ToLower(c: char): (r: char)
    ensures IsUpper(c) ==> IsLower(r) && Base36(r) == Base36(c)
    ensures !IsUpper(c) ==> r == c
  {
    if IsUpper(c) then ('a' as int + (c as int - 'A' as int)) as char else c
  }

  /** `cinc`: the next base-36 symbol, wrapping 'z' to '0'; control symbols pass. */
  function Inc(c: char): (r: char)
    ensures IsSpecial(c) ==> r == c
    ensures !IsSpecial(c) ==> IsAlnum(r) && Base36(r) == (Base36(c) + 1) % N_VARS
    ensures !IsSpecial(c) && IsLetter(r) ==> (IsUpper(r) <==> IsUpper(c))
  {
    if IsSpecial(c) then c else CharOf(Base36(c) + 1, c)
  }

  /** `cdec`: the previous base-36 symbol; control symbols pass. Because the
      value is reduced with `abs`, the predecessor of '0' is '1', not 'z'. */
  function Dec(c: char): (r: char)
    ensures IsSpecial(c) ==> r == c
    ensures !IsSpecial(c) ==> IsAlnum(r) && Base36(r) == (if Base36(c) == 0 then 1 else Base36(c) - 1)
    ensures !IsSpecial(c) && IsLetter(r) ==> (IsUpper(r) <==> IsUpper(c))
  {
    if IsSpecial(c) then c else CharOf(Base36(c) - 1, c)
  }

  /** `valid_character`: the legality filter of every cell write. */
  predicate IsValidChar(c: char)
  {
    Base36(c) != 0 || c == '0' || IsSpecial(c)
  }

  /** The diatonic steps of C D E F G A B. */
  function Scale(d: int): (r: int)
    requires 0 <= d < 7
  {
    [0, 2, 4, 5, 7, 9, 11][d]
  }

  /** The scale degree `ctbl` computes for an upper-case letter: C is 0, and
      A and B come after G (degrees 5 and 6); H onwards continues upward. */
  function Degree(u: char): (d: int)
    requires IsUpper(u)
    ensures d >= 0
  {
    if u <= 'B' then 'G' as int - 'B' as int + u as int - 'A' as int else u as int - 'C' as int
  }

  /** `ctbl`: a note symbol to a semitone offset within the octave. A digit
      is its own value; a lower-case letter is its upper-case letter raised by
      one semitone. The source indexes its scale table with the degree, so it
      is only defined on digits and letters. */
  function NoteOf(c: char): (r: int)
    requires IsAlnum(c)
    ensures r >= 0
    ensures IsDigit(c) ==> r == Base36(c)
    ensures IsLower(c) ==> r == NoteOf(ToUpper(c)) + 1
  {
    if IsDigit(c) then c as int - '0' as int
    else
      var sharp := IsLower(c);
      var uc := if sharp then ToUpper(c) else c;
      var deg := Degree(uc);
      deg / 7 * 12 + Scale(deg % 7) + (if sharp then 1 else 0)
  }

  // ---------------------------------------------------------------------
  // Properties of the codec

  /** Re-encoding a digit or letter with itself as the case model gives it back. */
  lemma CharOfBase36(c: char)
    requires IsAlnum(c)
    ensures CharOf(Base36(c), c) == c
  {
    var r := CharOf(Base36(c), c);
    assert Base36(r) == Base36(c);
    if IsDigit(c) {
      assert IsDigit(r);
    } else {
      assert IsLetter(r);
      if IsUpper(c) { assert IsUpper(r); } else { assert IsLower(r); }
    }
  }

  /** The `abs` in `cchr` folds the sign: a negative value gives the symbol of
      its magnitude, so 2 - 3 comes out as '1' rather than wrapping to 'z'. */
  lemma CharOfFoldsSign(v: int, like: char)
    ensures CharOf(-v, like) == CharOf(v, like)
    ensures CharOf(Base36('2') - Base36('3'), '3') == '1'
  {
    assert Abs(CRem(-v, N_VARS)) == Abs(CRem(v, N_VARS));
  }

  /** The legality filter accepts exactly the alphanumerics and the four
      control symbols. */
  lemma ValidCharIff(c: char)
    ensures IsValidChar(c) <==> IsAlnum(c) || IsSpecial(c)
  {
  }

  /** Every symbol `cchr` produces passes the legality filter. */
  lemma CharOfIsValid(v: int, like: char)
    ensures IsValidChar(CharOf(v, like))
  {
  }

  /** `ctbl` on the upper-case naturals C D E F G A B gives 0 2 4 5 7 9 11. */
  lemma NoteTable()
    ensures NoteOf('C') == 0 && NoteOf('D') == 2 && NoteOf('E') == 4 && NoteOf('F') == 5
    ensures NoteOf('G') == 7 && NoteOf('A') == 9 && NoteOf('B') == 11
  {
    assert Degree('C') == 0 && Degree('D') == 1 && Degree('E') == 2 && Degree('F') == 3;
    assert Degree('G') == 4 && Degree('A') == 5 && Degree('B') == 6;
  }

  /** A lower-case note is one semitone above its upper-case letter. */
  lemma SharpNotes()
    ensures NoteOf('c') == 1 && NoteOf('a') == 10 && NoteOf('b') == 12
  {
    NoteTable();
    assert ToUpper('c') == 'C' && ToUpper('a') == 'A' && ToUpper('b') == 'B';
  }

  /** From C upward, seven letters further is one octave (12 semitones) higher. */
  lemma NoteOctave(u: char)
    requires 'C' <= u <= 'S'
    ensures NoteOf((u as int + 7) as char) == NoteOf(u) + 12
  {
    var v := (u as int + 7) as char;
    assert Degree(v) == Degree(u) + 7;
    assert (Degree(u) + 7) / 7 == Degree(u) / 7 + 1;
    assert (Degree(u) + 7) % 7 == Degree(u) % 7;
  }
}
