/** The note list of keiko.c: `send_midi` links a new note in behind the
    sentinel `voices`, and the audio callback `process` walks the list,
    emitting note-on and note-off events and unlinking expired notes.
    The list after the sentinel is modelled as a sequence, front first. */
module Notes {

  /** keiko.h `VOICES`: the number of MIDI channels notes are clamped to. */
  const VOICES: int := 16

  /** keiko.h `MidiNote`. `length` counts remaining samples. */
  datatype MidiNote = MidiNote(channel: int, value: int, velocity: int, length: int, trigger: bool)

  /** The arguments of one `send_midi` call; `length` is in beats. */
  datatype Request = Request(channel: int, value: int, velocity: int, length: int)

  datatype Option<T> = None | Some(value: T)

  /** One three-byte MIDI event written into the output buffer. */
  datatype MidiEvent = MidiEvent(status: int, data1: int, data2: int)

  /** Storing an `int` into a `jack_midi_data_t` byte keeps it modulo 256. */
  function Byte(v: int): (b: int)
    ensures 0 <= b < 256
    ensures 0 <= v < 256 ==> b == v
  {
    v % 256
  }

  function NoteOn(n: MidiNote): (e: MidiEvent)
  {
    MidiEvent(Byte(0x90 + n.channel), Byte(n.value), Byte(n.velocity))
  }

  function NoteOff(n: MidiNote): (e: MidiEvent)
  {
    MidiEvent(Byte(0x80 + n.channel), Byte(n.value), 0)
  }

  /** The note `send_midi` creates. The float conversion `length * 60 / BPM *
      sample_rate` is replaced by `length * samplesPerBeat`. */
  function NewNote(req: Request, samplesPerBeat: int): (n: MidiNote)
    ensures n.trigger
    ensures n.channel == req.channel && n.value == req.value
    ensures n.velocity == 3 * req.velocity && n.length == req.length * samplesPerBeat
  {
    MidiNote(req.channel, req.value, req.velocity * 3, req.length * samplesPerBeat, true)
  }

  /** `send_midi` on the list contents: the new note goes in front. */
  function Send(notes: seq<MidiNote>, req: Request, samplesPerBeat: int): (r: seq<MidiNote>)
    ensures |r| == |notes| + 1
    ensures r[0].trigger && r[0] == NewNote(req, samplesPerBeat)
    ensures r[1..] == notes
  {
    [NewNote(req, samplesPerBeat)] + notes
  }

  /** The requests of one frame, sent in order: the last one ends up in front. */
  function SendAll(notes: seq<MidiNote>, reqs: seq<Request>, samplesPerBeat: int): (r: seq<MidiNote>)
    ensures |r| == |notes| + |reqs| && r[|reqs|..] == notes
    ensures forall k :: 0 <= k < |reqs| ==> r[k] == NewNote(reqs[|reqs| - 1 - k], samplesPerBeat)
    decreases |reqs|
  {
    if reqs == [] then notes
    else
      var r := SendAll(Send(notes, reqs[0], samplesPerBeat), reqs[1..], samplesPerBeat);
      assert r[|reqs|..] == r[|reqs| - 1..][1..];
      r
  }

  /** Sending the requests `a + b` is sending `a`, then `b`. */
  lemma {:induction false} SendAllAppend(notes: seq<MidiNote>, a: seq<Request>, b: seq<Request>, samplesPerBeat: int)
    ensures SendAll(notes, a + b, samplesPerBeat) == SendAll(SendAll(notes, a, samplesPerBeat), b, samplesPerBeat)
    decreases |a|
  {
    if a == [] {
      assert a + b == b;
    } else {
      assert (a + b)[0] == a[0] && (a + b)[1..] == a[1..] + b;
      SendAllAppend(Send(notes, a[0], samplesPerBeat), a[1..], b, samplesPerBeat);
    }
  }

  /** The request an operator may make, sent when there is one. */
  function Deliver(notes: seq<MidiNote>, req: Option<Request>, samplesPerBeat: int): (r: seq<MidiNote>)
    ensures req.None? ==> r == notes
    ensures req.Some? ==> r == Send(notes, req.value, samplesPerBeat)
  {
    if req.Some? then Send(notes, req.value, samplesPerBeat) else notes
  }

  /** Delivering a request is sending the at most one request it holds. */
  lemma DeliverSendAll(notes: seq<MidiNote>, req: Option<Request>, samplesPerBeat: int)
    ensures Deliver(notes, req, samplesPerBeat) == SendAll(notes, if req.Some? then [req.value] else [], samplesPerBeat)
  {
  }

  /** One iteration of the `process` loop on one note: a triggered note emits
      its note-on and loses the trigger without being decremented; any other
      note loses `nframes` samples and, once its length is negative, emits its
      note-off and is unlinked. */
  function Advance(n: MidiNote, nframes: int): (r: (seq<MidiNote>, seq<MidiEvent>))
    ensures |r.0| <= 1 && |r.1| <= 1
    ensures n.trigger ==> r == ([n.(trigger := false)], [NoteOn(n)])
    ensures !n.trigger && n.length - nframes < 0 ==> r == ([], [NoteOff(n.(length := n.length - nframes))])
    ensures !n.trigger && n.length - nframes >= 0 ==> r == ([n.(length := n.length - nframes)], [])
  {
    if n.trigger then ([n.(trigger := false)], [NoteOn(n)])
    else
      var m := n.(length := n.length - nframes);
      if m.length < 0 then ([], [NoteOff(m)]) else ([m], [])
  }

  /** `process` on the list contents: the surviving notes and the events, in
      list order. Each note yields at most one event and stays at most once,
      and no note is left triggered. */
  function ProcessAll(notes: seq<MidiNote>, nframes: int): (r: (seq<MidiNote>, seq<MidiEvent>))
    ensures |r.0| <= |notes| && |r.1| <= |notes|
    ensures forall k :: 0 <= k < |r.0| ==> !r.0[k].trigger
    decreases |notes|
  {
    if notes == [] then ([], [])
    else
      var (k, e) := Advance(notes[0], nframes);
      var (ks, es) := ProcessAll(notes[1..], nframes);
      (k + ks, e + es)
  }

  /** Whether a note is still linked after one `process` call. */
  predicate Survives(n: MidiNote, nframes: int)
  {
    n.trigger || n.length - nframes >= 0
  }

  /** The note as it stays in the list after one `process` call. */
  function Advanced(n: MidiNote, nframes: int): MidiNote
  {
    if n.trigger then n.(trigger := false) else n.(length := n.length - nframes)
  }

  /** The positions `>= i` of the notes that survive, in increasing order. */
  function SurvivorIndices(notes: seq<MidiNote>, nframes: int, i: nat): (idx: seq<int>)
    ensures forall k :: 0 <= k < |idx| ==> i <= idx[k] < |notes|
    decreases |notes| - i
  {
    if i >= |notes| then []
    else (if Survives(notes[i], nframes) then [i] else []) + SurvivorIndices(notes, nframes, i + 1)
  }

  predicate StrictlyIncreasing(s: seq<int>)
  {
    forall j, k :: 0 <= j < k < |s| ==> s[j] < s[k]
  }

  // ---------------------------------------------------------------------
  // Properties of the note list

  lemma {:induction false} SurvivorIndicesIncreasing(notes: seq<MidiNote>, nframes: int, i: nat)
    ensures StrictlyIncreasing(SurvivorIndices(notes, nframes, i))
    decreases |notes| - i
  {
    if i < |notes| {
      SurvivorIndicesIncreasing(notes, nframes, i + 1);
    }
  }

  lemma {:induction false} SurvivorIndicesMembers(notes: seq<MidiNote>, nframes: int, i: nat)
    ensures forall j :: i <= j < |notes| ==> (j in SurvivorIndices(notes, nframes, i) <==> Survives(notes[j], nframes))
    decreases |notes| - i
  {
    if i < |notes| {
      SurvivorIndicesMembers(notes, nframes, i + 1);
    }
  }

  /** How many entries a note contributes to the kept list: one when it survives. */
  function Lead(n: MidiNote, nframes: int): (d: nat)
    ensures d <= 1 && (d == 1 <==> Survives(n, nframes))
  {
    if Survives(n, nframes) then 1 else 0
  }

  /** The kept notes of a list are those of its rest, behind the first note
      advanced when it survives. */
  lemma KeptCons(notes: seq<MidiNote>, nframes: int)
    requires notes != []
    ensures var kept, rest, d := ProcessAll(notes, nframes).0, ProcessAll(notes[1..], nframes).0, Lead(notes[0], nframes);
      && |kept| == |rest| + d
      && (d == 1 ==> kept[0] == Advanced(notes[0], nframes))
      && forall k :: d <= k < |kept| ==> kept[k] == rest[k - d]
  {
  }

  lemma {:induction false} SurvivorsAdvanced(notes: seq<MidiNote>, nframes: int, i: nat)
    requires i <= |notes|
    ensures |ProcessAll(notes[i..], nframes).0| == |SurvivorIndices(notes, nframes, i)|
    ensures forall k :: 0 <= k < |SurvivorIndices(notes, nframes, i)| ==>
              ProcessAll(notes[i..], nframes).0[k] == Advanced(notes[SurvivorIndices(notes, nframes, i)[k]], nframes)
    decreases |notes| - i
  {
    if i < |notes| {
      SurvivorsAdvanced(notes, nframes, i + 1);
      var tail := notes[i..];
      assert tail[0] == notes[i] && tail[1..] == notes[i + 1..];
      KeptCons(tail, nframes);
      var idx, kept := SurvivorIndices(notes, nframes, i), ProcessAll(tail, nframes).0;
      var rest := SurvivorIndices(notes, nframes, i + 1);
      var d := Lead(notes[i], nframes);
      assert idx == (if d == 1 then [i] else []) + rest;
      forall k | 0 <= k < |idx|
        ensures kept[k] == Advanced(notes[idx[k]], nframes)
      {
        if k >= d {
          assert idx[k] == rest[k - d];
        }
      }
    }
  }

  /** `process` keeps exactly the surviving notes, each advanced, in their
      original relative order, and unlinks exactly the ones that expire. */
  lemma ProcessKeepsOrder(notes: seq<MidiNote>, nframes: int)
    ensures var idx := SurvivorIndices(notes, nframes, 0);
      && StrictlyIncreasing(idx)
      && |ProcessAll(notes, nframes).0| == |idx|
      && (forall k :: 0 <= k < |idx| ==> ProcessAll(notes, nframes).0[k] == Advanced(notes[idx[k]], nframes))
      && (forall j :: 0 <= j < |notes| ==> (j in idx <==> Survives(notes[j], nframes)))
  {
    SurvivorIndicesIncreasing(notes, nframes, 0);
    SurvivorIndicesMembers(notes, nframes, 0);
    SurvivorsAdvanced(notes, nframes, 0);
    assert notes[0..] == notes;
  }

  /** Each call emits one event per note that is triggered or expires, and no
      other; so the number of events plus the number of silent survivors is
      the length of the list. */
  lemma {:induction false} ProcessEventCount(notes: seq<MidiNote>, nframes: int)
    ensures |ProcessAll(notes, nframes).0| <= |notes|
    ensures |ProcessAll(notes, nframes).1| == |notes| - |ProcessAll(notes, nframes).0| + CountTriggered(notes)
    decreases |notes|
  {
    if notes != [] {
      ProcessEventCount(notes[1..], nframes);
    }
  }

  function CountTriggered(notes: seq<MidiNote>): (n: nat)
    decreases |notes|
  {
    if notes == [] then 0 else (if notes[0].trigger then 1 else 0) + CountTriggered(notes[1..])
  }

  /** A freshly sent note is the first one `process` visits: that call emits
      its note-on first and keeps it, untriggered and with its full length.
      A note-off for it can therefore only come in a later call. */
  lemma SentNoteOnFirst(notes: seq<MidiNote>, req: Request, samplesPerBeat: int, nframes: int)
    ensures var n := NewNote(req, samplesPerBeat);
      var r := ProcessAll(Send(notes, req, samplesPerBeat), nframes);
      && |r.1| >= 1 && r.1[0] == NoteOn(n)
      && |r.0| >= 1 && r.0[0] == n.(trigger := false)
  {
    var s := Send(notes, req, samplesPerBeat);
    assert s[1..] == notes;
  }

  /** An untriggered note that is not in its last period stays, `nframes`
      shorter; with `nframes > 0` it reaches a negative length after
      `length / nframes + 1` calls, when its note-off is emitted. */
  function Lifetime(length: int, nframes: int): (k: nat)
    requires length >= 0 && nframes > 0
  {
    length / nframes + 1
  }

  /** Advancing an untriggered note `k` times. */
  function AdvanceTimes(n: MidiNote, nframes: int, k: nat): (m: MidiNote)
    ensures m == n.(length := n.length - k * nframes)
    decreases k
  {
    if k == 0 then n else AdvanceTimes(n, nframes, k - 1).(length := AdvanceTimes(n, nframes, k - 1).length - nframes)
  }

  lemma MulNonneg(a: int, b: int)
    ensures a >= 0 && b >= 0 ==> a * b >= 0
  {
  }

  lemma MulSucc(a: int, b: int)
    ensures (a + 1) * b == a * b + b
  {
  }

  lemma LifetimeArith(L: int, f: int, k: nat)
    requires L >= 0 && f > 0 && k <= L / f
    ensures L - k * f >= 0
    ensures k < L / f ==> L - (k + 1) * f >= 0
    ensures k == L / f ==> L - (k + 1) * f < 0
  {
    var q := L / f;
    var r := L % f;
    assert L == q * f + r && 0 <= r < f;
    MulNonneg(q - k, f);
    assert (q - k) * f == q * f - k * f;
    MulSucc(k, f);
    MulNonneg(q - k - 1, f);
    assert (q - k - 1) * f == q * f - k * f - f;
  }

  /** After its note-on, a note of `L >= 0` samples survives exactly
      `L / nframes` further calls and is unlinked, with its note-off, in the
      call after that. */
  lemma NoteLifetime(n: MidiNote, nframes: int, k: nat)
    requires !n.trigger && n.length >= 0 && nframes > 0
    requires k < Lifetime(n.length, nframes)
    ensures AdvanceTimes(n, nframes, k).length >= 0
    ensures k + 1 < Lifetime(n.length, nframes) ==>
              Advance(AdvanceTimes(n, nframes, k), nframes) == ([AdvanceTimes(n, nframes, k + 1)], [])
    ensures k + 1 == Lifetime(n.length, nframes) ==>
              Advance(AdvanceTimes(n, nframes, k), nframes) == ([], [NoteOff(AdvanceTimes(n, nframes, k + 1))])
  {
    LifetimeArith(n.length, nframes, k);
    assert (k + 1) * nframes == k * nframes + nframes;
  }

  /** One iteration of the loop of `process`: the note at `i` of `before`
      has been replaced, in `after`, by what `Advance` keeps of it, and its
      event appended to `evBefore`. */
  lemma ProcessStep(before: seq<MidiNote>, i: int, after: seq<MidiNote>, i2: int,
                    evBefore: seq<MidiEvent>, evAfter: seq<MidiEvent>, nframes: int)
    requires 0 <= i < |before| && 0 <= i2 <= |after|
    requires after[..i2] == before[..i] + Advance(before[i], nframes).0
    requires after[i2..] == before[i + 1..]
    requires evAfter == evBefore + Advance(before[i], nframes).1
    ensures after[..i2] + ProcessAll(after[i2..], nframes).0 == before[..i] + ProcessAll(before[i..], nframes).0
    ensures evAfter + ProcessAll(after[i2..], nframes).1 == evBefore + ProcessAll(before[i..], nframes).1
  {
    assert before[i..][0] == before[i] && before[i..][1..] == before[i + 1..];
    var k, e := Advance(before[i], nframes).0, Advance(before[i], nframes).1;
    assert ProcessAll(before[i..], nframes) == (k + ProcessAll(before[i + 1..], nframes).0, e + ProcessAll(before[i + 1..], nframes).1);
  }

  /** The note list of the running program: `notes` are the nodes after the
      sentinel `voices`, front first. */
  class NoteList {
    var notes: seq<MidiNote>

    /** The list `init_midi` sets up: just the sentinel. */
    constructor ()
      ensures notes == []
    {
      notes := [];
    }

    /** `send_midi`: link one triggered note in behind the sentinel. */
    method SendMidi(channel: int, value: int, velocity: int, length: int, samplesPerBeat: int)
      modifies this
      ensures notes == Send(old(notes), Request(channel, value, velocity, length), samplesPerBeat)
    {
      var n := MidiNote(channel, value, velocity * 3, length * samplesPerBeat, true);
      notes := [n] + notes;
    }

    /** `process`: walk the list once, emitting into the event buffer (which
        starts empty, as `jack_midi_clear_buffer` leaves it) and unlinking
        expired notes in place. */
    method Process(nframes: int) returns (events: seq<MidiEvent>)
      modifies this
      ensures (notes, events) == ProcessAll(old(notes), nframes)
    {
      events := [];
      var i := 0;
      assert notes[..0] == [] && notes[0..] == notes;
      while i < |notes|
        invariant 0 <= i <= |notes|
        invariant ProcessAll(old(notes), nframes).0 == notes[..i] + ProcessAll(notes[i..], nframes).0
        invariant ProcessAll(old(notes), nframes).1 == events + ProcessAll(notes[i..], nframes).1
        decreases |notes| - i
      {
        var n := notes[i];
        ghost var before, evBefore := notes, events;
        if n.trigger {
          notes := notes[i := n.(trigger := false)];
          events := events + [NoteOn(n)];
          assert notes[..i + 1] == before[..i] + [n.(trigger := false)] && notes[i + 1..] == before[i + 1..];
          ProcessStep(before, i, notes, i + 1, evBefore, events, nframes);
        } else {
          var m := n.(length := n.length - nframes);
          notes := notes[i := m];
          if m.length < 0 {
            events := events + [NoteOff(m)];
            notes := notes[..i] + notes[i + 1..];
            assert notes[..i] == before[..i] && notes[i..] == before[i + 1..];
            ProcessStep(before, i, notes, i, evBefore, events, nframes);
            continue;
          }
          assert notes[..i + 1] == before[..i] + [m] && notes[i + 1..] == before[i + 1..];
          ProcessStep(before, i, notes, i + 1, evBefore, events, nframes);
        }
        i := i + 1;
      }
      assert notes[i..] == [] && notes[..i] == notes;
      assert ProcessAll(notes[i..], nframes) == ([], []);
      assert notes[..i] + [] == notes && events + [] == events;
    }

    /** `get_list_length`: counts the nodes including the sentinel. */
    method ListLength() returns (n: nat)
      ensures n == |notes| + 1
    {
      n := 1;
      var i := 0;
      while i < |notes|
        invariant 0 <= i <= |notes|
        invariant n == i + 1
      {
        n := n + 1;
        i := i + 1;
      }
    }
  }
}
