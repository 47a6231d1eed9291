/** The harmonic mapping of the circle-of-fifths view: the seven chord roots of
    a scale (stacked perfect fifths), which circle wedges they enable, the fixed
    chord-quality pattern, the Roman-numeral labels and the group-label angles. */
module Harmony {
  import opened Common
  import opened MusicTheory
  import opened Graphics
  import opened CircleTables
  import opened RomanNumerals

  /** `CircleChordType`. */
  datatype ChordType = MajorChord | MinorChord | DiminishedChord

  /** The view's `chords` array: the quality given to the chord on each stacked root. */
  const Chords: seq<ChordType> :=
    [MajorChord, MajorChord, MajorChord, MinorChord, MinorChord, MinorChord, DiminishedChord]

  /** `scale.key + scale.type.circleModeRootInterval`: the first chord root. */
  function RootNote(s: Scale): NoteType {
    Transpose(s.key, CircleModeRootInterval(s.scaleType))
  }

  /** The chord roots: seven fifths stacked on the root note. */
  function ChordNotesOf(s: Scale): (r: seq<NoteType>)
    ensures |r| == |Chords|
  {
    seq(7, i requires 0 <= i < 7 => Transpose(RootNote(s), 7 * i))
  }

  /** A sequence in which each note is a perfect fifth above the one before. */
  ghost predicate StackedFifths(s: seq<NoteType>) {
    forall i :: 0 <= i < |s| - 1 ==> s[i + 1] == Transpose(s[i], P5)
  }

  /** The loop in `draw()` that builds `chordNotes`: the first entry is the root note,
      every later one is the previous entry plus a perfect fifth. */
  method DetermineChordNotes(scale: Scale) returns (chordNotes: seq<NoteType>)
    ensures |chordNotes| == |Chords|
    ensures chordNotes[0] == Transpose(scale.key, CircleModeRootInterval(scale.scaleType))
    ensures StackedFifths(chordNotes)
    ensures chordNotes == ChordNotesOf(scale)
  {
    var rootNote := RootNote(scale);
    chordNotes := [];
    for i := 0 to |Chords|
      invariant |chordNotes| == i
      invariant i > 0 ==> chordNotes[0] == rootNote
      invariant StackedFifths(chordNotes)
    {
      if i == 0 {
        chordNotes := chordNotes + [rootNote];
      } else {
        // `chordNotes.last` always exists here, so the `guard ... else { break }` never fires.
        var previousNote := chordNotes[|chordNotes| - 1];
        chordNotes := chordNotes + [Transpose(previousNote, P5)];
      }
    }
    StackedFifthsClosedForm(chordNotes);
    forall i | 0 <= i < 7 ensures chordNotes[i] == ChordNotesOf(scale)[i] {
    }
  }

  /** A stack of fifths is determined by its first note: entry i is `7 * i` semitones above it. */
  lemma {:induction false} StackedFifthsClosedForm(s: seq<NoteType>)
    requires StackedFifths(s)
    ensures forall i :: 0 <= i < |s| ==> s[i] == Transpose(s[0], 7 * i)
  {
    if |s| > 1 {
      var init := s[..|s| - 1];
      var k := |s| - 1;
      assert StackedFifths(init);
      StackedFifthsClosedForm(init);
      forall i | 0 <= i < k ensures s[i] == Transpose(s[0], 7 * i) {
        assert s[i] == init[i];
      }
      assert s[k] == Transpose(s[0], 7 * k) by {
        assert s[k - 1] == init[k - 1] == Transpose(s[0], 7 * (k - 1));
        TransposeAdds(s[0], 7 * (k - 1), 7);
      }
    } else if |s| == 1 {
      TransposeZero(s[0]);
    }
  }

  /** Going up `i` fifths moves `i` places round the circle. */
  lemma FifthsOnCircle(n: NoteType, i: nat)
    ensures CircleIndex(Transpose(n, 7 * i)) == (CircleIndex(n) + i) % 12
  {
    TransposeOnCircle(n, 7 * i);
    ModStep(CircleIndex(n) + i, 4 * i);
    assert CircleIndex(n) + 7 * (7 * i) == CircleIndex(n) + i + 12 * (4 * i);
  }

  /** A stack of fifths walks the circle one wedge at a time. */
  lemma StackedFifthsWalkCircle(s: seq<NoteType>)
    requires StackedFifths(s)
    ensures forall i :: 0 <= i < |s| ==> CircleIndex(s[i]) == (CircleIndex(s[0]) + i) % 12
  {
    StackedFifthsClosedForm(s);
    forall i | 0 <= i < |s| ensures CircleIndex(s[i]) == (CircleIndex(s[0]) + i) % 12 {
      FifthsOnCircle(s[0], i);
    }
  }

  /** How many places clockwise position `ci` lies from position `c0`. */
  function CircleOffset(c0: nat, ci: nat): (k: nat)
    ensures k < 12
  {
    (ci + 12 - c0) % 12
  }

  /** The place of `n` in the stack, counted round the circle from the root note. */
  function StackOffset(s: Scale, n: NoteType): (k: nat)
    ensures k < 12
  {
    CircleOffset(CircleIndex(RootNote(s)), CircleIndex(n))
  }

  lemma OffsetBack(c0: nat, d: nat)
    requires c0 < 12 && d < 12
    ensures CircleOffset(c0, (c0 + d) % 12) == d
  {
    if c0 + d < 12 {
      assert (c0 + d) % 12 == c0 + d;
    } else {
      assert (c0 + d) % 12 == c0 + d - 12;
    }
  }

  lemma OffsetForward(c0: nat, ci: nat)
    requires c0 < 12 && ci < 12
    ensures (c0 + CircleOffset(c0, ci)) % 12 == ci
  {
    if ci >= c0 {
      assert (ci + 12 - c0) % 12 == ci - c0;
    } else {
      assert (ci + 12 - c0) % 12 == ci + 12 - c0;
    }
  }

  lemma OffsetOfSum(c0: nat, y: nat)
    requires c0 < 12
    ensures CircleOffset(c0, (c0 + y) % 12) == y % 12
  {
    ModAddLeft(y, c0);
    OffsetBack(c0, y % 12);
  }

  lemma CircleOffsetInjective(c0: nat, a: nat, b: nat)
    requires c0 < 12 && a < 12 && b < 12
    requires CircleOffset(c0, a) == CircleOffset(c0, b)
    ensures a == b
  {
    OffsetForward(c0, a);
    OffsetForward(c0, b);
  }

  /** Notes at the same offset from the root note are the same note. */
  lemma StackOffsetInjective(s: Scale, m: NoteType, n: NoteType)
    requires StackOffset(s, m) == StackOffset(s, n)
    ensures m == n
  {
    CircleOffsetInjective(CircleIndex(RootNote(s)), CircleIndex(m), CircleIndex(n));
    CircleIndexInjective(m, n);
  }

  /** The note `x` semitones above the root note sits `7 * x` places further round. */
  lemma StackOffsetOfTranspose(s: Scale, x: nat)
    ensures StackOffset(s, Transpose(RootNote(s), x)) == (7 * x) % 12
  {
    var r := RootNote(s);
    TransposeOnCircle(r, x);
    OffsetOfSum(CircleIndex(r), 7 * x);
  }

  /** The i-th chord root is i places round from the root note. */
  lemma ChordNoteOffset(s: Scale, i: nat)
    requires i < 7
    ensures StackOffset(s, ChordNotesOf(s)[i]) == i
  {
    FifthsOffset(s, i);
  }

  /** The note i perfect fifths above the root note is i places round from it. */
  lemma FifthsOffset(s: Scale, i: nat)
    requires i < 7
    ensures StackOffset(s, Transpose(RootNote(s), 7 * i)) == i
  {
    var r := RootNote(s);
    FifthsOnCircle(r, i);
    OffsetBack(CircleIndex(r), i);
  }

  /** The chord roots: the stacking relation of the source, seven contiguous circle
      positions starting at the root note, all different. */
  lemma ChordNotesContiguous(s: Scale)
    ensures && ChordNotesOf(s)[0] == RootNote(s)
            && StackedFifths(ChordNotesOf(s))
            && (forall i :: 0 <= i < 7 ==>
                  CircleIndex(ChordNotesOf(s)[i]) == (CircleIndex(RootNote(s)) + i) % 12)
            && Distinct(ChordNotesOf(s))
  {
    var cn := ChordNotesOf(s);
    var r := RootNote(s);
    TransposeZero(r);
    forall i | 0 <= i < 6 ensures cn[i + 1] == Transpose(cn[i], P5) {
      TransposeAdds(r, 7 * i, 7);
    }
    forall i | 0 <= i < 7 ensures CircleIndex(cn[i]) == (CircleIndex(r) + i) % 12 {
      FifthsOnCircle(r, i);
    }
    forall i, j | 0 <= i < j < 7 ensures cn[i] != cn[j] {
      ModDistinct(CircleIndex(r) + i, CircleIndex(r) + j);
    }
  }

  /** No chord root repeats. */
  lemma ChordNotesDistinct(s: Scale)
    ensures Distinct(ChordNotesOf(s))
  {
    ChordNotesContiguous(s);
  }

  /** A note is a chord root exactly when it lies in the seven-wedge window that starts
      at the root note, and then `chordNotes.index(of:)` finds it at its offset. */
  lemma ChordNoteMembership(s: Scale, n: NoteType)
    ensures n in ChordNotesOf(s) <==> StackOffset(s, n) < 7
    ensures StackOffset(s, n) < 7 ==> IndexOf(ChordNotesOf(s), n) == Some(StackOffset(s, n))
  {
    var cn := ChordNotesOf(s);
    var k := StackOffset(s, n);
    if n in cn {
      var i :| 0 <= i < 7 && cn[i] == n;
      ChordNoteOffset(s, i);
    }
    if k < 7 {
      ChordNoteOffset(s, k);
      StackOffsetInjective(s, cn[k], n);
      ChordNotesContiguous(s);
      IndexOfDistinct(cn, k);
    }
  }

  /** The circle positions at most `count - 1` places round from position `c0`. */
  ghost function Window(c0: nat, count: nat): set<nat> {
    set i: nat | i < 12 && CircleOffset(c0, i) < count
  }

  lemma {:induction false} WindowCard(c0: nat, count: nat)
    requires c0 < 12 && count <= 12
    ensures |Window(c0, count)| == count
  {
    if count > 0 {
      WindowCard(c0, count - 1);
      var last := (c0 + count - 1) % 12;
      OffsetBack(c0, count - 1);
      forall i: nat | i < 12 && CircleOffset(c0, i) == count - 1 ensures i == last {
        OffsetForward(c0, i);
      }
      assert Window(c0, count) == Window(c0, count - 1) + {last};
    }
  }

  /** The circle positions whose note is a chord root of `s`. */
  ghost function EnabledPositions(s: Scale): set<nat> {
    set i: nat | i < 12 && Circle[i] in ChordNotesOf(s)
  }

  /** The circle positions whose note is not a chord root of `s`. */
  ghost function DisabledPositions(s: Scale): set<nat> {
    set i: nat | i < 12 && Circle[i] !in ChordNotesOf(s)
  }

  /** Exactly seven wedges are enabled and five disabled, whatever the scale. */
  lemma EnabledCount(s: Scale)
    ensures |EnabledPositions(s)| == 7
    ensures |DisabledPositions(s)| == 5
  {
    var c0 := CircleIndex(RootNote(s));
    forall i: nat | i < 12 ensures Circle[i] in ChordNotesOf(s) <==> CircleOffset(c0, i) < 7 {
      ChordNoteMembership(s, Circle[i]);
    }
    assert EnabledPositions(s) == Window(c0, 7);
    assert Window(c0, 12) == EnabledPositions(s) + DisabledPositions(s);
    WindowCard(c0, 7);
    WindowCard(c0, 12);
  }

  // ---------------------------------------------------------------------------
  // The fixed quality pattern

  /** The quality of the triad on `root` whose notes all come from `notes`, if any. */
  function TriadQuality(notes: seq<NoteType>, root: NoteType): Option<ChordType> {
    if Transpose(root, 4) in notes && Transpose(root, 7) in notes then Some(MajorChord)
    else if Transpose(root, 3) in notes && Transpose(root, 7) in notes then Some(MinorChord)
    else if Transpose(root, 3) in notes && Transpose(root, 6) in notes then Some(DiminishedChord)
    else None
  }

  /** The fixed pattern `[major, major, major, minor, minor, minor, diminished]` is, for
      every scale, the quality of the triad that the seven chord roots themselves form
      on each root: the stack is always a diatonic collection read from its fourth. */
  lemma ChordPatternIsDiatonic(s: Scale, k: nat)
    requires k < 7
    ensures TriadQuality(ChordNotesOf(s), ChordNotesOf(s)[k]) == Some(Chords[k])
  {
    var cn := ChordNotesOf(s);
    assert Transpose(cn[k], 3) in cn <==> (k + 7 * 3) % 12 < 7 by { AboveInStack(s, k, 3); }
    assert Transpose(cn[k], 4) in cn <==> (k + 7 * 4) % 12 < 7 by { AboveInStack(s, k, 4); }
    assert Transpose(cn[k], 6) in cn <==> (k + 7 * 6) % 12 < 7 by { AboveInStack(s, k, 6); }
    assert Transpose(cn[k], 7) in cn <==> (k + 7 * 7) % 12 < 7 by { AboveInStack(s, k, 7); }
    QualityOfPattern(cn, cn[k], k);
  }

  /** Whichever notes `notes` holds, the triad on `root` has the k-th quality of the
      pattern when the thirds, fifths and diminished fifths above it are present exactly
      where the k-th chord root of a stack finds them. */
  lemma QualityOfPattern(notes: seq<NoteType>, root: NoteType, k: nat)
    requires k < 7
    requires Transpose(root, 3) in notes <==> (k + 7 * 3) % 12 < 7
    requires Transpose(root, 4) in notes <==> (k + 7 * 4) % 12 < 7
    requires Transpose(root, 6) in notes <==> (k + 7 * 6) % 12 < 7
    requires Transpose(root, 7) in notes <==> (k + 7 * 7) % 12 < 7
    ensures TriadQuality(notes, root) == Some(Chords[k])
  {
    PatternArithmetic(k);
  }

  lemma PatternArithmetic(k: nat)
    requires k < 7
    ensures (k + 7 * 4) % 12 < 7 <==> k < 3
    ensures (k + 7 * 7) % 12 < 7 <==> k < 6
    ensures (k + 7 * 3) % 12 < 7 <==> k >= 3
    ensures (k + 7 * 6) % 12 < 7 <==> k == 0 || k == 6
  {
    if k == 0 {
    } else if k == 1 {
    } else if k == 2 {
    } else if k == 3 {
    } else if k == 4 {
    } else if k == 5 {
    } else {
    }
  }

  /** Whether the note `i` semitones above the k-th chord root is itself a chord root. */
  lemma AboveInStack(s: Scale, k: nat, i: Interval)
    requires k < 7
    ensures Transpose(ChordNotesOf(s)[k], i) in ChordNotesOf(s) <==> (k + 7 * i) % 12 < 7
  {
    OffsetAbove(s, k, i);
    ChordNoteMembership(s, Transpose(ChordNotesOf(s)[k], i));
  }

  /** The note `i` semitones above the k-th chord root sits `k + 7 * i` places round. */
  lemma OffsetAbove(s: Scale, k: nat, i: Interval)
    requires k < 7
    ensures StackOffset(s, Transpose(ChordNotesOf(s)[k], i)) == (k + 7 * i) % 12
  {
    FifthsThenOffset(s, k, i);
  }

  /** The note `i` semitones above the note `k` fifths above the root note sits
      `k + 7 * i` places round. */
  lemma FifthsThenOffset(s: Scale, k: nat, i: Interval)
    ensures StackOffset(s, Transpose(Transpose(RootNote(s), 7 * k), i)) == (k + 7 * i) % 12
  {
    TransposeAdds(RootNote(s), 7 * k, i);
    StackOffsetOfTranspose(s, 7 * k + i);
    TwoFifthsStepsMod(i, k);
  }

  /** Forty-nine semitones are one more than four octaves, so `7 * (7 * k + i)` and
      `k + 7 * i` agree modulo 12. */
  lemma TwoFifthsStepsMod(i: nat, k: nat)
    ensures (7 * (7 * k + i)) % 12 == (k + 7 * i) % 12
  {
    ModStep(k + 7 * i, 4 * k);
    assert 7 * (7 * k + i) == k + 7 * i + 12 * (4 * k);
  }

  /** Where the key itself lands in the stack for the seven diatonic modes. */
  function TonicDegree(t: ScaleType): Option<nat> {
    match t
    case Lydian => Some(0)
    case Major => Some(1)
    case Mixolydian => Some(2)
    case Dorian => Some(3)
    case Minor => Some(4)
    case Phrygian => Some(5)
    case Locrian => Some(6)
    case OtherScale(_) => None
  }

  /** For the seven diatonic modes the root-interval table puts the key among the chord
      roots, on a chord of the quality that mode's tonic triad has (major for lydian,
      major and mixolydian; minor for dorian, minor and phrygian; diminished for locrian). */
  lemma TonicAmongChordRoots(s: Scale)
    requires TonicDegree(s.scaleType).Some?
    ensures ChordNotesOf(s)[TonicDegree(s.scaleType).value] == s.key
    ensures Chords[TonicDegree(s.scaleType).value] ==
      match s.scaleType
      case Lydian | Major | Mixolydian => MajorChord
      case Dorian | Minor | Phrygian => MinorChord
      case _ => DiminishedChord
  {
    var d := TonicDegree(s.scaleType).value;
    var iv := CircleModeRootInterval(s.scaleType);
    assert (iv + 7 * d) % 12 == 0 by {
      match s.scaleType
      case Lydian => case Major => case Mixolydian => case Dorian =>
      case Minor => case Phrygian => case Locrian =>
    }
    ReturnToKey(s.key, iv, d);
  }

  lemma ReturnToKey(key: NoteType, iv: Interval, d: nat)
    requires (iv + 7 * d) % 12 == 0
    ensures Transpose(Transpose(key, iv), 7 * d) == key
  {
    TransposeAdds(key, iv, 7 * d);
    TransposeCongruent(key, iv + 7 * d, 0);
    TransposeZero(key);
  }

  /** The view's default scale, C minor, has the roots A-flat E-flat B-flat F C G D:
      the notes of C natural minor, read from its minor sixth in fifths. */
  lemma CMinorChordNotes()
    ensures ChordNotesOf(Scale(Minor, C)) == [AFlat, EFlat, BFlat, F, C, G, D]
  {
  }


  // ---------------------------------------------------------------------------
  // Roman numerals

  const DegreeSign: char := '°'

  /** `toRomanInterval`: the numeral of the note's position in the scale's notes (a note
      that is not there counts as position 10, which has no numeral), upper-cased for a
      major chord, followed by a degree sign for a diminished one, unchanged for minor. */
  function ToRomanInterval(scaleNotes: seq<NoteType>, note: NoteType, chordMode: ChordType): string {
    var index := match IndexOf(scaleNotes, note) case Some(i) => i case None => 10;
    var roman := RomanNumeral(index);
    match chordMode
    case MajorChord => Uppercased(roman)
    case DiminishedChord => roman + [DegreeSign]
    case MinorChord => roman
  }

  /** The numeral part of an interval label: the label without the degree sign that
      follows the numeral of a diminished chord. */
  function LabelNumeral(r: string, chordMode: ChordType): string {
    if chordMode == DiminishedChord && |r| > 0 then r[..|r| - 1] else r
  }

  /** The label of an interval slice reads back as the note's one-based degree in the
      scale (for the first eight notes), is upper case exactly for a major chord, and
      ends in a degree sign exactly for a diminished one. A note that is not in the
      scale gets an empty numeral: "" for major and minor, the bare degree sign for
      diminished. */
  lemma RomanLabel(scaleNotes: seq<NoteType>, note: NoteType, chordMode: ChordType)
    ensures var r := ToRomanInterval(scaleNotes, note, chordMode);
      && (chordMode == DiminishedChord <==> |r| > 0 && r[|r| - 1] == DegreeSign)
      && (chordMode == MajorChord ==> AllUpper(LabelNumeral(r, chordMode)))
      && (chordMode != MajorChord ==> AllLower(LabelNumeral(r, chordMode)))
      && (match IndexOf(scaleNotes, note)
          case Some(i) => i < 8 ==> (RomanValue(LabelNumeral(r, chordMode)) == i + 1
                                    && LabelNumeral(r, chordMode) != "")
          case None => LabelNumeral(r, chordMode) == "")
  {
    var index := match IndexOf(scaleNotes, note) case Some(i) => i case None => 10;
    DecoratedNumeral(index, chordMode);
  }

  /** `RomanLabel` for the numeral of position `index`. */
  lemma DecoratedNumeral(index: int, chordMode: ChordType)
    ensures var roman := RomanNumeral(index);
      var r := match chordMode
               case MajorChord => Uppercased(roman)
               case DiminishedChord => roman + [DegreeSign]
               case MinorChord => roman;
      && (chordMode == DiminishedChord <==> |r| > 0 && r[|r| - 1] == DegreeSign)
      && (chordMode == MajorChord ==> AllUpper(LabelNumeral(r, chordMode)))
      && (chordMode != MajorChord ==> AllLower(LabelNumeral(r, chordMode)))
      && (0 <= index < 8 ==> RomanValue(LabelNumeral(r, chordMode)) == index + 1
                             && LabelNumeral(r, chordMode) != "")
      && (!(0 <= index < 8) ==> LabelNumeral(r, chordMode) == "")
  {
    var roman := RomanNumeral(index);
    if 0 <= index < 8 {
      NumeralValue(index);
    } else {
      assert roman == "";
    }
    if chordMode == DiminishedChord {
      var r := roman + [DegreeSign];
      assert r[..|r| - 1] == roman;
    }
  }

  // ---------------------------------------------------------------------------
  // Group labels

  /** The chord roots over which the "Major", "Minor" and "Dim" labels are placed. */
  const MajorLabelRoot: nat := 1
  const MinorLabelRoot: nat := 4
  const DimLabelRoot: nat := 6

  /** `chordNotes[j].circleStartAngle + 15 + 90` on macOS, `... + 15 - 90` on iOS. */
  function GroupLabelAngle(p: Platform, root: NoteType): int {
    CircleStartAngle(p, root) + 15 + (if p == OSX then 90 else -90)
  }

  /** A group label's angle is the middle of its root's wedge turned by the platform's
      quarter turn. The label roots 1, 4 and 6 carry a major, a minor and a diminished
      chord. */
  lemma GroupLabelsOverTheirQuality(p: Platform, root: NoteType)
    ensures 2 * GroupLabelAngle(p, root) ==
      CircleStartAngle(p, root) + CircleEndAngle(p, root) + (if p == OSX then 180 else -180)
  {
    assert Chords[MajorLabelRoot] == MajorChord && Chords[MinorLabelRoot] == MinorChord;
    assert Chords[DimLabelRoot] == DiminishedChord;
    WedgeAngles(p, root);
  }
}
