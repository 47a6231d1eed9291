/** The parts of the MusicTheorySwift library the diagram uses, reduced to what
    the diagram needs: the twelve note types as pitch classes, intervals as
    semitone counts, `NoteType + Interval` as addition modulo 12, and scale
    descriptors. The library itself is not part of this model. */
module MusicTheory {

  /** The twelve pitch classes, in the library's semitone order (c = 0 ... b = 11). */
  datatype NoteType = C | DFlat | D | EFlat | E | F | GFlat | G | AFlat | A | BFlat | B

  /** The note's semitone above c (`NoteType.rawValue`). */
  function Semitone(n: NoteType): (r: nat)
    ensures r < 12
  {
    match n
    case C => 0
    case DFlat => 1
    case D => 2
    case EFlat => 3
    case E => 4
    case F => 5
    case GFlat => 6
    case G => 7
    case AFlat => 8
    case A => 9
    case BFlat => 10
    case B => 11
  }

  /** `NoteType(rawValue:)`: the note whose semitone is `s`. */
  function NoteOf(s: nat): (n: NoteType)
    requires s < 12
    ensures Semitone(n) == s
  {
    EverySemitoneIsANote(s);
    var n :| Semitone(n) == s; n
  }

  lemma EverySemitoneIsANote(s: nat)
    requires s < 12
    ensures exists n :: Semitone(n) == s
  {
    if s == 0 { assert Semitone(C) == s; }
    else if s == 1 { assert Semitone(DFlat) == s; }
    else if s == 2 { assert Semitone(D) == s; }
    else if s == 3 { assert Semitone(EFlat) == s; }
    else if s == 4 { assert Semitone(E) == s; }
    else if s == 5 { assert Semitone(F) == s; }
    else if s == 6 { assert Semitone(GFlat) == s; }
    else if s == 7 { assert Semitone(G) == s; }
    else if s == 8 { assert Semitone(AFlat) == s; }
    else if s == 9 { assert Semitone(A) == s; }
    else if s == 10 { assert Semitone(BFlat) == s; }
    else { assert Semitone(B) == s; }
  }

  /** An interval, counted in semitones. */
  type Interval = nat

  const Unison: Interval := 0
  const P1: Interval := 0
  const Min2: Interval := 1
  const Min3: Interval := 3
  const P4: Interval := 5
  const Dim5: Interval := 6
  const P5: Interval := 7
  const Min6: Interval := 8
  const Min7: Interval := 10

  /** `note + interval`: move up by the interval's semitones, wrapping at the octave. */
  function Transpose(n: NoteType, i: Interval): (r: NoteType)
    ensures Semitone(r) == (Semitone(n) + i) % 12
  {
    NoteOf((Semitone(n) + i) % 12)
  }

  // ---------------------------------------------------------------------------
  // Arithmetic modulo the octave

  lemma ModMulLeft(k: nat, x: nat)
    ensures (k * (x % 12)) % 12 == (k * x) % 12
  {
    var q := x / 12;
    assert x == 12 * q + x % 12;
    assert k * x == 12 * (k * q) + k * (x % 12);
  }

  lemma ModAddLeft(x: int, y: int)
    ensures (x + y) % 12 == (x % 12 + y) % 12
  {
  }

  lemma ModStep(x: int, q: int)
    ensures (x + 12 * q) % 12 == x % 12
  {
  }

  /** Two numbers less than twelve apart fall on different positions of the circle. */
  lemma ModDistinct(a: int, b: int)
    requires a < b < a + 12
    ensures a % 12 != b % 12
  {
  }

  // ---------------------------------------------------------------------------
  // Transposition laws

  /** Transposing twice is transposing once by the sum. */
  lemma TransposeAdds(n: NoteType, i: Interval, j: Interval)
    ensures Transpose(Transpose(n, i), j) == Transpose(n, i + j)
  {
    ModAddLeft(Semitone(n) + i, j);
    SemitoneInjective(Transpose(Transpose(n, i), j), Transpose(n, i + j));
  }

  /** Transposing by nothing leaves a note unchanged. */
  lemma TransposeZero(n: NoteType)
    ensures Transpose(n, 0) == n
  {
    SemitoneInjective(Transpose(n, 0), n);
  }

  /** Intervals that differ by whole octaves transpose to the same note. */
  lemma TransposeCongruent(n: NoteType, i: Interval, j: Interval)
    requires i % 12 == j % 12
    ensures Transpose(n, i) == Transpose(n, j)
  {
    ModAddLeft(i, Semitone(n));
    ModAddLeft(j, Semitone(n));
    SemitoneInjective(Transpose(n, i), Transpose(n, j));
  }

  lemma SemitoneInjective(m: NoteType, n: NoteType)
    requires Semitone(m) == Semitone(n)
    ensures m == n
  {
    match m
    case C => case DFlat => case D => case EFlat => case E => case F =>
    case GFlat => case G => case AFlat => case A => case BFlat => case B =>
  }

  datatype ScaleType = Major | Minor | Dorian | Phrygian | Lydian | Mixolydian | Locrian
                     | OtherScale(name: string)

  /** A scale: its mode and its key (tonic). */
  datatype Scale = Scale(scaleType: ScaleType, key: NoteType)

  /** The text a note is shown with (`"\(note)"`); the library's own description
      strings are not shown, so the case names stand for them. */
  function NoteDescription(n: NoteType): (r: string)
    ensures |r| > 0
  {
    match n
    case C => "c"
    case DFlat => "dFlat"
    case D => "d"
    case EFlat => "eFlat"
    case E => "e"
    case F => "f"
    case GFlat => "gFlat"
    case G => "g"
    case AFlat => "aFlat"
    case A => "a"
    case BFlat => "bFlat"
    case B => "b"
  }
}
