/** The fixed tables of the circle-of-fifths view: which interval above the key
    starts the chord stack, where each note sits on the circle, and the wedge
    each note occupies on each platform. */
module CircleTables {
  import opened MusicTheory
  import opened Graphics

  /** `ScaleType.circleModeRootInterval`: the interval from the key to the first of the
      seven stacked chord roots. Modes without an entry start at the key itself. */
  function CircleModeRootInterval(t: ScaleType): (r: Interval)
    ensures r < 12
  {
    match t
    case Major => P4
    case Minor => Min6
    case Dorian => Min3
    case Locrian => Dim5
    case Mixolydian => Min7
    case Phrygian => Min2
    case Lydian => Unison
    case OtherScale(_) => Unison
  }

  /** `NoteType.circleIndex`: the position of a note on the circle, counted in fifths from c. */
  function CircleIndex(n: NoteType): (r: nat)
  {
    match n
    case C => 0
    case G => 1
    case D => 2
    case A => 3
    case E => 4
    case B => 5
    case GFlat => 6
    case DFlat => 7
    case AFlat => 8
    case EFlat => 9
    case BFlat => 10
    case F => 11
  }

  /** The view's `circle` array: the twelve notes in ascending-fifths order. */
  const Circle: seq<NoteType> := [C, G, D, A, E, B, GFlat, DFlat, AFlat, EFlat, BFlat, F]

  /** `NoteType.circleStartAngle`, in degrees. macOS lays the wedges out
      counter-clockwise from c, iOS clockwise. */
  function CircleStartAngle(p: Platform, n: NoteType): int
  {
    match p
    case OSX =>
      (match n
       case C => -15
       case F => 15
       case BFlat => 45
       case EFlat => 75
       case AFlat => 105
       case DFlat => 135
       case GFlat => 165
       case B => 195
       case E => 225
       case A => 255
       case D => 285
       case G => 315)
    case IOS =>
      (match n
       case C => -15
       case G => 15
       case D => 45
       case A => 75
       case E => 105
       case B => 135
       case GFlat => 165
       case DFlat => 195
       case AFlat => 225
       case EFlat => 255
       case BFlat => 285
       case F => 315)
  }

  /** `NoteType.circleEndAngle`, in degrees. */
  function CircleEndAngle(p: Platform, n: NoteType): int
  {
    match p
    case OSX =>
      (match n
       case C => 15
       case F => 45
       case BFlat => 75
       case EFlat => 105
       case AFlat => 135
       case DFlat => 165
       case GFlat => 195
       case B => 225
       case E => 255
       case A => 285
       case D => 315
       case G => 345)
    case IOS =>
      (match n
       case C => 15
       case G => 45
       case D => 75
       case A => 105
       case E => 135
       case B => 165
       case GFlat => 195
       case DFlat => 225
       case AFlat => 255
       case EFlat => 285
       case BFlat => 315
       case F => 345)
  }

  // ---------------------------------------------------------------------------
  // The circle index

  /** The circle index is the note's semitone multiplied by seven (a fifth), modulo 12. */
  lemma CircleIndexIsFifths(n: NoteType)
    ensures CircleIndex(n) == (7 * Semitone(n)) % 12
    ensures Semitone(n) == (7 * CircleIndex(n)) % 12
  {
  }

  /** `circle[note.circleIndex]` is the note itself. */
  lemma CircleAtIndex(n: NoteType)
    ensures CircleIndex(n) < 12 && Circle[CircleIndex(n)] == n
  {
    match n
    case C => case G => case D => case A => case E => case B =>
    case GFlat => case DFlat => case AFlat => case EFlat => case BFlat => case F =>
  }

  /** The note at position i of `circle` has circle index i. */
  lemma IndexOfCircleAt(i: nat)
    requires i < 12
    ensures CircleIndex(Circle[i]) == i
  {
  }

  /** `circleIndex` is a bijection onto 0..11 that inverts the `circle` array, so
      `circlePie.slices[note.circleIndex]` is the wedge that shows `note`. */
  lemma CircleIndexBijection()
    ensures |Circle| == 12
    ensures forall n: NoteType :: CircleIndex(n) < 12 && Circle[CircleIndex(n)] == n
    ensures forall i :: 0 <= i < 12 ==> CircleIndex(Circle[i]) == i
    ensures forall i, j :: 0 <= i < j < 12 ==> Circle[i] != Circle[j]
  {
    forall n: NoteType ensures CircleIndex(n) < 12 && Circle[CircleIndex(n)] == n {
      CircleAtIndex(n);
    }
    forall i | 0 <= i < 12 ensures CircleIndex(Circle[i]) == i {
      IndexOfCircleAt(i);
    }
  }

  /** Different notes have different circle indices. */
  lemma CircleIndexInjective(m: NoteType, n: NoteType)
    requires CircleIndex(m) == CircleIndex(n)
    ensures m == n
  {
    CircleAtIndex(m);
    CircleAtIndex(n);
  }

  /** Transposing by `i` semitones moves a note `7 * i` places round the circle; in
      particular a perfect fifth moves it one place clockwise. */
  lemma TransposeOnCircle(n: NoteType, i: Interval)
    ensures CircleIndex(Transpose(n, i)) == (CircleIndex(n) + 7 * i) % 12
    ensures i == P5 ==> CircleIndex(Transpose(n, i)) == (CircleIndex(n) + 1) % 12
  {
    var m := Transpose(n, i);
    CircleIndexIsFifths(n);
    CircleIndexIsFifths(m);
    TimesFifthModOctave(Semitone(n), i);
    if i == P5 {
      ModStep(CircleIndex(n) + 1, 4);
    }
  }

  lemma TimesFifthModOctave(s: nat, i: nat)
    ensures (7 * ((s + i) % 12)) % 12 == ((7 * s) % 12 + 7 * i) % 12
  {
    ModMulLeft(7, s + i);
    ModAddLeft(7 * s, 7 * i);
  }

  // ---------------------------------------------------------------------------
  // The wedges

  /** The closed form of both tables: every wedge is 30 degrees wide and starts at
      `-15 + 30 * k`, where k is the circle index on iOS (clockwise) and its
      complement on macOS (counter-clockwise). */
  lemma WedgeAngles(p: Platform, n: NoteType)
    ensures CircleEndAngle(p, n) == CircleStartAngle(p, n) + 30
    ensures p == IOS ==> CircleStartAngle(p, n) == -15 + 30 * CircleIndex(n)
    ensures p == OSX ==> CircleStartAngle(p, n) == -15 + 30 * ((12 - CircleIndex(n)) % 12)
  {
  }

  /** The wedge position a start angle stands for on either platform. */
  function WedgeSlot(p: Platform, n: NoteType): (k: nat)
    ensures k < 12
  {
    if p == IOS then CircleIndex(n) else (12 - CircleIndex(n)) % 12
  }

  /** The note whose wedge contains the angle `a` (degrees), for `a` in [-15, 345). */
  function WedgeAt(p: Platform, a: int): NoteType
    requires -15 <= a < 345
  {
    var k := (a + 15) / 30;
    if p == IOS then Circle[k] else Circle[(12 - k) % 12]
  }

  /** The wedges tile [-15, 345): every angle in that range lies in the wedge
      `[start, end)` of exactly one note. */
  lemma WedgesTile(p: Platform, a: int)
    requires -15 <= a < 345
    ensures CircleStartAngle(p, WedgeAt(p, a)) <= a < CircleEndAngle(p, WedgeAt(p, a))
    ensures forall n: NoteType :: CircleStartAngle(p, n) <= a < CircleEndAngle(p, n) ==> n == WedgeAt(p, a)
  {
    var w := WedgeAt(p, a);
    SlotOfWedgeAt(p, a);
    WedgeAngles(p, w);
    forall n: NoteType | CircleStartAngle(p, n) <= a < CircleEndAngle(p, n)
      ensures n == w
    {
      SlotOfAngle(p, n, a);
      WedgeSlotInjective(p, n, w);
    }
  }

  /** The note `WedgeAt` picks sits in the slot the angle falls in. */
  lemma SlotOfWedgeAt(p: Platform, a: int)
    requires -15 <= a < 345
    ensures WedgeSlot(p, WedgeAt(p, a)) == (a + 15) / 30
  {
    var k := (a + 15) / 30;
    assert 0 <= k < 12;
    if p == IOS {
      IndexOfCircleAt(k);
    } else {
      var j := (12 - k) % 12;
      IndexOfCircleAt(j);
      assert (12 - j) % 12 == k;
    }
  }

  /** A note whose wedge holds the angle `a` sits in the slot `a` falls in. */
  lemma SlotOfAngle(p: Platform, n: NoteType, a: int)
    requires CircleStartAngle(p, n) <= a < CircleEndAngle(p, n)
    ensures WedgeSlot(p, n) == (a + 15) / 30
  {
    WedgeAngles(p, n);
  }

  /** Different notes sit in different slots on either platform. */
  lemma WedgeSlotInjective(p: Platform, m: NoteType, n: NoteType)
    requires WedgeSlot(p, m) == WedgeSlot(p, n)
    ensures m == n
  {
    CircleIndexInjective(m, n);
  }

  /** The twelve start angles are exactly -15, 15, ..., 315. */
  lemma StartAnglesAreGrid(p: Platform)
    ensures (set n: NoteType :: CircleStartAngle(p, n)) == (set k | 0 <= k < 12 :: -15 + 30 * k)
  {
    var starts := set n: NoteType :: CircleStartAngle(p, n);
    var grid := set k | 0 <= k < 12 :: -15 + 30 * k;
    forall a | a in grid ensures a in starts {
      var k :| 0 <= k < 12 && a == -15 + 30 * k;
      WedgesTile(p, a);
      assert CircleStartAngle(p, WedgeAt(p, a)) == a by {
        WedgeAngles(p, WedgeAt(p, a));
      }
    }
    forall a | a in starts ensures a in grid {
      var n :| CircleStartAngle(p, n) == a;
      WedgeAngles(p, n);
      assert a == -15 + 30 * WedgeSlot(p, n);
    }
  }

  /** Neighbours on the circle share a boundary (modulo 360): on iOS a note's wedge
      ends where the next note's begins (clockwise); on macOS the next note's wedge
      ends where this note's begins (counter-clockwise). */
  lemma NeighboursShareBoundary(p: Platform, i: nat)
    requires i < 12
    ensures p == IOS ==>
      CircleEndAngle(p, Circle[i]) % 360 == CircleStartAngle(p, Circle[(i + 1) % 12]) % 360
    ensures p == OSX ==>
      CircleEndAngle(p, Circle[(i + 1) % 12]) % 360 == CircleStartAngle(p, Circle[i]) % 360
  {
    IndexOfCircleAt(i);
    IndexOfCircleAt((i + 1) % 12);
    WedgeAngles(p, Circle[i]);
    WedgeAngles(p, Circle[(i + 1) % 12]);
    if i == 11 {
      assert (i + 1) % 12 == 0;
    } else {
      assert (i + 1) % 12 == i + 1;
    }
  }
}
