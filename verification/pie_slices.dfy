/** The slice-level work the three circle-of-fifths views share: building the slices
    of the chord, circle and interval pies in `setup()`, and the loop of `draw()` that
    enables the circle wedges of the chord roots and copies each root's wedge onto
    its chord (and interval) slice. */
module PieSlices {
  import opened Common
  import opened MusicTheory
  import opened Graphics
  import opened CircleTables
  import opened Harmony
  import opened PieChart

  /** `chordColor`: the colour of a chord slice by the chord's quality. */
  function ChordColor(t: ChordType, majorColor: Color, minorColor: Color, diminishedColor: Color): Color {
    match t
    case MajorChord => majorColor
    case MinorChord => minorColor
    case DiminishedChord => diminishedColor
  }

  /** The chord pie's colours, one per chord of the circle. */
  function ChordColors(majorColor: Color, minorColor: Color, diminishedColor: Color): (r: seq<Color>)
    ensures |r| == |Chords|
    ensures forall k :: 0 <= k < |Chords| ==> r[k] == ChordColor(Chords[k], majorColor, minorColor, diminishedColor)
  {
    seq(|Chords|, k requires 0 <= k < |Chords| => ChordColor(Chords[k], majorColor, minorColor, diminishedColor))
  }

  /** Each chord wedge is coloured by the quality of the triad that the seven chord roots
      form on the root `draw()` puts in it, whatever the scale. */
  lemma ChordColoursFollowTriads(s: Scale, k: nat, majorColor: Color, minorColor: Color,
                                 diminishedColor: Color)
    requires k < |Chords|
    ensures TriadQuality(ChordNotesOf(s), ChordNotesOf(s)[k]).Some?
    ensures ChordColors(majorColor, minorColor, diminishedColor)[k] ==
      ChordColor(TriadQuality(ChordNotesOf(s), ChordNotesOf(s)[k]).value,
                 majorColor, minorColor, diminishedColor)
  {
    ChordPatternIsDiatonic(s, k);
  }

  /** The slices of the pies whose angles are filled in later by `draw()`: one slice per
      colour, from angle 0 to angle 0, with no text and the other colours defaulted. */
  method NewFlatSlices(colors: seq<Color>) returns (slices: seq<PieChartSlice>)
    ensures |slices| == |colors|
    ensures Distinct(slices)
    ensures forall k :: 0 <= k < |slices| ==> fresh(slices[k])
    ensures forall k :: 0 <= k < |slices| ==>
      slices[k].State() == SliceState(0, 0, colors[k], colors[k], colors[k], None, true, false)
  {
    slices := [];
    for k := 0 to |colors|
      invariant |slices| == k
      invariant Distinct(slices)
      invariant forall j :: 0 <= j < k ==> fresh(slices[j])
      invariant forall j :: 0 <= j < k ==>
        slices[j].State() == SliceState(0, 0, colors[j], colors[j], colors[j], None, true, false)
    {
      var slice := new PieChartSlice(0, 0, colors[k], None, None, None);
      slices := slices + [slice];
    }
  }

  /** The wedge a circle slice is created with: the note's own angles from the
      platform's table, and the note's name as its text. */
  function CircleSliceState(p: Platform, n: NoteType, defaultColor: Color, highlightedColor: Color,
                            disabledColor: Color): SliceState
  {
    SliceState(CircleStartAngle(p, n), CircleEndAngle(p, n), defaultColor, highlightedColor,
               disabledColor, Some(NoteDescription(n)), true, false)
  }

  /** `circle.map { PieChartSlice(...) }`: one slice per note of the circle, in circle
      order. */
  method NewCircleSlices(p: Platform, defaultColor: Color, highlightedColor: Color, disabledColor: Color)
    returns (slices: seq<PieChartSlice>)
    ensures |slices| == |Circle|
    ensures Distinct(slices)
    ensures forall i :: 0 <= i < |slices| ==> fresh(slices[i])
    ensures forall i :: 0 <= i < |slices| ==>
      && slices[i].State() == CircleSliceState(p, Circle[i], defaultColor, highlightedColor, disabledColor)
      && slices[i].startAngle == CircleStartAngle(p, Circle[i])
      && slices[i].endAngle == CircleEndAngle(p, Circle[i])
      && !slices[i].isSelected
  {
    slices := [];
    for i := 0 to |Circle|
      invariant |slices| == i
      invariant Distinct(slices)
      invariant forall j :: 0 <= j < i ==> fresh(slices[j])
      invariant forall j :: 0 <= j < i ==>
        && slices[j].State() == CircleSliceState(p, Circle[j], defaultColor, highlightedColor, disabledColor)
        && slices[j].startAngle == CircleStartAngle(p, Circle[j])
        && slices[j].endAngle == CircleEndAngle(p, Circle[j])
        && !slices[j].isSelected
    {
      var note := Circle[i];
      var slice := new PieChartSlice(CircleStartAngle(p, note), CircleEndAngle(p, note), defaultColor,
                                     Some(highlightedColor), Some(disabledColor),
                                     Some(NoteDescription(note)));
      slices := slices + [slice];
    }
  }

  /** No slice occurs twice, within a pie or across pies. */
  ghost predicate SlicesApart(circleSlices: seq<PieChartSlice>, chordSlices: seq<PieChartSlice>,
                              intervalSlices: seq<PieChartSlice>)
  {
    && Distinct(circleSlices) && Distinct(chordSlices) && Distinct(intervalSlices)
    && Disjoint(circleSlices, chordSlices) && Disjoint(circleSlices, intervalSlices)
    && Disjoint(chordSlices, intervalSlices)
  }

  /** Circle slice i after marking: enabled exactly when its note is a chord root. */
  function MarkedCircleSlice(s: SliceState, note: NoteType, chordNotes: seq<NoteType>): SliceState {
    s.(isEnabled := note in chordNotes)
  }

  /** Chord slice k after marking: the wedge of chord root k. */
  function MarkedChordSlice(p: Platform, s: SliceState, root: NoteType): SliceState {
    s.(startAngle := CircleStartAngle(p, root), endAngle := CircleEndAngle(p, root))
  }

  /** Interval slice k after marking: the wedge of chord root k, labelled with the
      Roman numeral of that root in the scale. */
  function MarkedIntervalSlice(p: Platform, s: SliceState, root: NoteType, scaleNotes: seq<NoteType>,
                               chord: ChordType): SliceState {
    s.(startAngle := CircleStartAngle(p, root), endAngle := CircleEndAngle(p, root),
       attributedString := Some(ToRomanInterval(scaleNotes, root, chord)))
  }

  /** The body of the loop for a circle note that is chord root `k`: enable the circle
      slice and give the note's wedge (and numeral) to the chord and interval slices.
      The interval slice is `null` when the view has no interval pie. */
  method MarkRoot(p: Platform, note: NoteType, chord: ChordType, scaleNotes: seq<NoteType>,
                  noteSlice: PieChartSlice, chordSlice: PieChartSlice, intervalSlice: PieChartSlice?)
    requires noteSlice != chordSlice && noteSlice != intervalSlice && chordSlice != intervalSlice
    modifies noteSlice, chordSlice, intervalSlice
    ensures noteSlice.State() == old(noteSlice.State()).(isEnabled := true)
    ensures chordSlice.State() == MarkedChordSlice(p, old(chordSlice.State()), note)
    ensures intervalSlice != null ==>
      intervalSlice.State() == MarkedIntervalSlice(p, old(intervalSlice.State()), note, scaleNotes, chord)
  {
    chordSlice.startAngle := CircleStartAngle(p, note);
    chordSlice.endAngle := CircleEndAngle(p, note);
    if intervalSlice != null {
      intervalSlice.startAngle := CircleStartAngle(p, note);
      intervalSlice.endAngle := CircleEndAngle(p, note);
      intervalSlice.attributedString := Some(ToRomanInterval(scaleNotes, note, chord));
    }
    noteSlice.isEnabled := true;
  }

  /** The states of a pie's slices, in order. */
  function States(slices: seq<PieChartSlice>): (r: seq<SliceState>)
    reads slices
    ensures |r| == |slices| && forall i :: 0 <= i < |slices| ==> r[i] == slices[i].State()
  {
    seq(|slices|, i requires 0 <= i < |slices| reads slices => slices[i].State())
  }

  /** The slices after the loop of `draw()`, against their states before it: each
      circle slice enabled exactly when its note is a chord root, chord slice k on the
      wedge of root k, interval slice k on that wedge and labelled with the root's
      numeral, and nothing else changed. */
  ghost predicate MarkedStates(p: Platform, chordNotes: seq<NoteType>, scaleNotes: seq<NoteType>,
                               circleAfter: seq<SliceState>, chordAfter: seq<SliceState>,
                               intervalAfter: seq<SliceState>, circleBefore: seq<SliceState>,
                               chordBefore: seq<SliceState>, intervalBefore: seq<SliceState>)
  {
    && |chordNotes| == |Chords|
    && |circleAfter| == |circleBefore| == |Circle|
    && |chordAfter| == |chordBefore| == |Chords|
    && |intervalAfter| == |intervalBefore| <= |Chords|
    && (forall i :: 0 <= i < |Circle| ==>
        circleAfter[i] == MarkedCircleSlice(circleBefore[i], Circle[i], chordNotes))
    && (forall k :: 0 <= k < |Chords| ==>
        chordAfter[k] == MarkedChordSlice(p, chordBefore[k], chordNotes[k]))
    && (forall k :: 0 <= k < |intervalAfter| ==>
        intervalAfter[k] == MarkedIntervalSlice(p, intervalBefore[k], chordNotes[k], scaleNotes, Chords[k]))
  }

  /** The loop invariant: circle slices before `index` are marked, the rest untouched;
      a chord (or interval) slice is marked once its root's circle position has been
      passed, untouched before. */
  ghost predicate MarkedUpTo(p: Platform, chordNotes: seq<NoteType>, scaleNotes: seq<NoteType>,
                             circleSlices: seq<PieChartSlice>, chordSlices: seq<PieChartSlice>,
                             intervalSlices: seq<PieChartSlice>, circleBefore: seq<SliceState>,
                             chordBefore: seq<SliceState>, intervalBefore: seq<SliceState>, index: nat)
    reads circleSlices, chordSlices, intervalSlices
  {
    && |chordNotes| == |Chords|
    && |circleSlices| == |circleBefore| == |Circle|
    && |chordSlices| == |chordBefore| == |Chords|
    && |intervalSlices| == |intervalBefore|
    && (forall i :: 0 <= i < |Circle| ==>
        circleSlices[i].State() ==
          if i < index then MarkedCircleSlice(circleBefore[i], Circle[i], chordNotes) else circleBefore[i])
    && (forall k :: 0 <= k < |Chords| ==>
        chordSlices[k].State() ==
          if CircleIndex(chordNotes[k]) < index then MarkedChordSlice(p, chordBefore[k], chordNotes[k])
          else chordBefore[k])
    && (forall k :: 0 <= k < |intervalSlices| && k < |Chords| ==>
        intervalSlices[k].State() ==
          if CircleIndex(chordNotes[k]) < index
          then MarkedIntervalSlice(p, intervalBefore[k], chordNotes[k], scaleNotes, Chords[k])
          else intervalBefore[k])
  }

  /** Once the loop has passed every circle position, every slice is marked. */
  lemma MarkedUpToEnd(p: Platform, chordNotes: seq<NoteType>, scaleNotes: seq<NoteType>,
                      circleSlices: seq<PieChartSlice>, chordSlices: seq<PieChartSlice>,
                      intervalSlices: seq<PieChartSlice>, circleBefore: seq<SliceState>,
                      chordBefore: seq<SliceState>, intervalBefore: seq<SliceState>)
    requires |intervalSlices| <= |Chords|
    requires MarkedUpTo(p, chordNotes, scaleNotes, circleSlices, chordSlices, intervalSlices,
                        circleBefore, chordBefore, intervalBefore, |Circle|)
    ensures MarkedStates(p, chordNotes, scaleNotes,
                         States(circleSlices), States(chordSlices), States(intervalSlices),
                         circleBefore, chordBefore, intervalBefore)
  {
    forall k | 0 <= k < |Chords| ensures CircleIndex(chordNotes[k]) < |Circle| {
      CircleAtIndex(chordNotes[k]);
    }
  }

  /** A chord root sits at circle position `index` exactly when it is the note there. */
  lemma RootAtPosition(chordNotes: seq<NoteType>, index: nat)
    requires index < |Circle|
    ensures forall k :: 0 <= k < |chordNotes| ==>
      (CircleIndex(chordNotes[k]) == index <==> chordNotes[k] == Circle[index])
  {
    IndexOfCircleAt(index);
    forall k | 0 <= k < |chordNotes|
      ensures CircleIndex(chordNotes[k]) == index <==> chordNotes[k] == Circle[index]
    {
      CircleAtIndex(chordNotes[k]);
    }
  }

  /** One turn of the loop for a circle note that is no chord root: the circle slice
      is disabled. */
  method MarkMissing(p: Platform, chordNotes: seq<NoteType>, scaleNotes: seq<NoteType>,
                     circleSlices: seq<PieChartSlice>, chordSlices: seq<PieChartSlice>,
                     intervalSlices: seq<PieChartSlice>, ghost circleBefore: seq<SliceState>,
                     ghost chordBefore: seq<SliceState>, ghost intervalBefore: seq<SliceState>, index: nat)
    requires && index < |Circle| && Circle[index] !in chordNotes
             && SlicesApart(circleSlices, chordSlices, intervalSlices)
             && MarkedUpTo(p, chordNotes, scaleNotes, circleSlices, chordSlices, intervalSlices,
                           circleBefore, chordBefore, intervalBefore, index)
    modifies circleSlices, chordSlices, intervalSlices
    ensures MarkedUpTo(p, chordNotes, scaleNotes, circleSlices, chordSlices, intervalSlices,
                       circleBefore, chordBefore, intervalBefore, index + 1)
  {
    RootAtPosition(chordNotes, index);
    var noteSlice := circleSlices[index];
    noteSlice.isEnabled := false;
  }

  /** One turn of the loop for a circle note that is chord root `noteIndex`. */
  method MarkFound(p: Platform, chordNotes: seq<NoteType>, scaleNotes: seq<NoteType>,
                   circleSlices: seq<PieChartSlice>, chordSlices: seq<PieChartSlice>,
                   intervalSlices: seq<PieChartSlice>, ghost circleBefore: seq<SliceState>,
                   ghost chordBefore: seq<SliceState>, ghost intervalBefore: seq<SliceState>,
                   index: nat, noteIndex: nat)
    requires && index < |Circle| && Distinct(chordNotes)
             && noteIndex < |chordNotes| && chordNotes[noteIndex] == Circle[index]
             && (|intervalSlices| == 0 || |intervalSlices| == |Chords|)
             && SlicesApart(circleSlices, chordSlices, intervalSlices)
             && MarkedUpTo(p, chordNotes, scaleNotes, circleSlices, chordSlices, intervalSlices,
                           circleBefore, chordBefore, intervalBefore, index)
    modifies circleSlices, chordSlices, intervalSlices
    ensures MarkedUpTo(p, chordNotes, scaleNotes, circleSlices, chordSlices, intervalSlices,
                       circleBefore, chordBefore, intervalBefore, index + 1)
  {
    var note := Circle[index];
    var intervalSlice: PieChartSlice? := if |intervalSlices| > 0 then intervalSlices[noteIndex] else null;
    MarkRoot(p, note, Chords[noteIndex], scaleNotes, circleSlices[index], chordSlices[noteIndex], intervalSlice);
    forall i | 0 <= i < |Circle|
      ensures circleSlices[i].State() ==
        if i < index + 1 then MarkedCircleSlice(circleBefore[i], Circle[i], chordNotes) else circleBefore[i]
    {
      if i != index {
        assert circleSlices[i] != circleSlices[index] && circleSlices[i] != chordSlices[noteIndex];
        assert circleSlices[i] != intervalSlice;
      }
    }
    RootAtPosition(chordNotes, index);
    forall k | 0 <= k < |Chords|
      ensures chordSlices[k].State() ==
        if CircleIndex(chordNotes[k]) < index + 1 then MarkedChordSlice(p, chordBefore[k], chordNotes[k])
        else chordBefore[k]
    {
      if k != noteIndex {
        assert CircleIndex(chordNotes[k]) != index;
        assert chordSlices[k] != circleSlices[index] && chordSlices[k] != chordSlices[noteIndex];
        assert chordSlices[k] != intervalSlice;
      }
    }
    forall k | 0 <= k < |intervalSlices| && k < |Chords|
      ensures intervalSlices[k].State() ==
        if CircleIndex(chordNotes[k]) < index + 1
        then MarkedIntervalSlice(p, intervalBefore[k], chordNotes[k], scaleNotes, Chords[k])
        else intervalBefore[k]
    {
      if k != noteIndex {
        assert CircleIndex(chordNotes[k]) != index;
        assert intervalSlices[k] != circleSlices[index] && intervalSlices[k] != chordSlices[noteIndex];
        assert intervalSlices[k] != intervalSlice;
      }
    }
  }

  /** The `for (index, note) in circle.enumerated()` loop of `draw()`. Each circle
      note is looked up among the chord roots; when it is root k, chord slice k (and,
      in the framework's view, interval slice k) gets the note's wedge and the circle
      slice is enabled; otherwise the circle slice is disabled. The Mac and iOS apps
      have no interval pie and pass none. */
  method MarkChordSlices(p: Platform, chordNotes: seq<NoteType>, scaleNotes: seq<NoteType>,
                         circleSlices: seq<PieChartSlice>, chordSlices: seq<PieChartSlice>,
                         intervalSlices: seq<PieChartSlice>)
    requires |chordNotes| == |Chords| && Distinct(chordNotes)
    requires |circleSlices| == |Circle| && |chordSlices| == |Chords|
    requires |intervalSlices| == 0 || |intervalSlices| == |Chords|
    requires SlicesApart(circleSlices, chordSlices, intervalSlices)
    modifies circleSlices, chordSlices, intervalSlices
    ensures MarkedStates(p, chordNotes, scaleNotes,
                         States(circleSlices), States(chordSlices), States(intervalSlices),
                         old(States(circleSlices)), old(States(chordSlices)), old(States(intervalSlices)))
  {
    ghost var circleBefore, chordBefore, intervalBefore :=
      States(circleSlices), States(chordSlices), States(intervalSlices);
    for index := 0 to |Circle|
      invariant MarkedUpTo(p, chordNotes, scaleNotes, circleSlices, chordSlices, intervalSlices,
                           circleBefore, chordBefore, intervalBefore, index)
    {
      match IndexOf(chordNotes, Circle[index]) {
        case Some(noteIndex) =>
          MarkFound(p, chordNotes, scaleNotes, circleSlices, chordSlices, intervalSlices,
                    circleBefore, chordBefore, intervalBefore, index, noteIndex);
        case None =>
          MarkMissing(p, chordNotes, scaleNotes, circleSlices, chordSlices, intervalSlices,
                      circleBefore, chordBefore, intervalBefore, index);
      }
    }
    MarkedUpToEnd(p, chordNotes, scaleNotes, circleSlices, chordSlices, intervalSlices,
                  circleBefore, chordBefore, intervalBefore);
  }
}
