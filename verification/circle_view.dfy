/** The framework's `CircleOfFifths` view: three pies (chord roots outside, the twelve
    notes in the middle, Roman numerals inside), three group labels, and the selected
    wedge. `setup()` builds the pies, `draw()` sizes them and marks the chord roots of
    the current scale, `selectNote` moves the selection. */
module CircleView {
  import opened Common
  import opened MusicTheory
  import opened Graphics
  import opened CircleTables
  import opened Harmony
  import opened PieChart
  import opened PieSlices

  /** What `draw()` sets on an `ArcTextLayer`: its text, its angle in degrees and its
      radius. */
  datatype ArcLabel = ArcLabel(text: Option<string>, angle: int, radius: real)

  /** A new `ArcTextLayer`: no text, angle 0, radius 0. */
  const BlankArcLabel: ArcLabel := ArcLabel(None, 0, 0.0)

  /** What `draw()` puts on a group label: the quality's name, over the middle of the
      wedge of `root`, `treshold` inside the chord pie's rim. */
  function GroupLabel(p: Platform, text: string, root: NoteType, radius: real, treshold: real): ArcLabel {
    ArcLabel(Some(text), GroupLabelAngle(p, root), radius - treshold)
  }

  /** `radius` in `draw()`: half the shorter side of the frame, never negative. */
  function ViewRadius(width: real, height: real): (r: real)
    ensures r >= 0.0
    ensures r == 0.0 || 2.0 * r == width || 2.0 * r == height
    ensures 2.0 * r <= width || 2.0 * r <= 0.0
    ensures 2.0 * r <= height || 2.0 * r <= 0.0
  {
    Max(0.0, Min(width, height) / 2.0)
  }

  /** The slices of a pie, none before the pie exists. */
  function SlicesOf(pie: PieChartLayer?): (r: seq<PieChartSlice>)
    ensures pie != null ==> r == pie.slices
    ensures pie == null ==> r == []
  {
    if pie == null then [] else pie.slices
  }

  /** The pie as a set of one, or no pie before it exists. */
  function Present(pie: PieChartLayer?): (r: set<PieChartLayer>)
    ensures pie != null <==> pie in r
    ensures |r| <= 1
  {
    if pie == null then {} else {pie}
  }

  /** `n` copies of one colour. */
  function Uniform(c: Color, n: nat): (r: seq<Color>)
    ensures |r| == n
    ensures forall k :: 0 <= k < n ==> r[k] == c
  {
    if n == 0 then [] else [c] + Uniform(c, n - 1)
  }

  /** A pie of zero-width slices, one per colour, centred at `center` with radius 0. */
  method NewFlatPie(t: Target, center: Point, colors: seq<Color>) returns (pie: PieChartLayer)
    ensures fresh(pie) && pie.Valid() && pie.target == t
    ensures pie.center == center && pie.radius == 0.0
    ensures |pie.slices| == |colors| && Distinct(pie.slices)
    ensures forall k :: 0 <= k < |pie.slices| ==> fresh(pie.slices[k])
    ensures States(pie.slices) == FlatStates(colors)
    ensures forall k :: 0 <= k < |pie.slices| ==> !pie.slices[k].isSelected
  {
    var slices := NewFlatSlices(colors);
    pie := new PieChartLayer(t, 0.0, center, slices);
  }

  /** The circle pie: one slice per note of the circle, at the note's wedge. */
  method NewCirclePie(t: Target, center: Point, defaultColor: Color, highlightedColor: Color,
                      disabledColor: Color) returns (pie: PieChartLayer)
    ensures fresh(pie) && pie.Valid() && pie.target == t
    ensures pie.center == center && pie.radius == 0.0
    ensures |pie.slices| == |Circle| && Distinct(pie.slices)
    ensures forall i :: 0 <= i < |pie.slices| ==> fresh(pie.slices[i])
    ensures States(pie.slices) == CircleStates(TargetPlatform(t), defaultColor, highlightedColor, disabledColor)
    ensures forall i :: 0 <= i < |pie.slices| ==>
      && pie.slices[i].startAngle == CircleStartAngle(TargetPlatform(t), Circle[i])
      && pie.slices[i].endAngle == CircleEndAngle(TargetPlatform(t), Circle[i])
      && !pie.slices[i].isSelected
  {
    var slices := NewCircleSlices(TargetPlatform(t), defaultColor, highlightedColor, disabledColor);
    pie := new PieChartLayer(t, 0.0, center, slices);
  }

  /** Three pies in the style of `t` with 7, 12 and 7 slices, no slice shared, each
      pie's layers hosting its slices. */
  ghost predicate PiesReady(t: Target, chordPie: PieChartLayer, circlePie: PieChartLayer,
                            intervalPie: PieChartLayer)
    reads chordPie`sliceLayers, circlePie`sliceLayers, intervalPie`sliceLayers
    reads chordPie`angleTreshold, circlePie`angleTreshold, intervalPie`angleTreshold
  {
    && chordPie != circlePie && circlePie != intervalPie && chordPie != intervalPie
    && chordPie.target == t && circlePie.target == t && intervalPie.target == t
    && |chordPie.slices| == |Chords| && |circlePie.slices| == |Circle|
    && |intervalPie.slices| == |Chords|
    && chordPie.Valid() && circlePie.Valid() && intervalPie.Valid()
    && SlicesApart(circlePie.slices, chordPie.slices, intervalPie.slices)
  }

  /** Every selected circle wedge is the recorded one, and the recorded one is a circle
      wedge. */
  ghost predicate SelectionRecorded(circleSlices: seq<PieChartSlice>, circleStates: seq<SliceState>,
                                    selectedSlice: PieChartSlice?)
  {
    && |circleStates| == |circleSlices|
    && (forall i :: 0 <= i < |circleSlices| && circleStates[i].isSelected ==> circleSlices[i] == selectedSlice)
    && (selectedSlice != null ==> selectedSlice in circleSlices)
  }

  /** With the selection recorded, at most one circle wedge is selected: any two
      selected wedges are the recorded slice, and the circle slices are distinct. */
  lemma AtMostOneSelected(circleSlices: seq<PieChartSlice>, circleStates: seq<SliceState>,
                          selectedSlice: PieChartSlice?, i: nat, j: nat)
    requires SelectionRecorded(circleSlices, circleStates, selectedSlice) && Distinct(circleSlices)
    requires i < |circleStates| && j < |circleStates|
    requires circleStates[i].isSelected && circleStates[j].isSelected
    ensures i == j
  {
    assert circleSlices[i] == selectedSlice == circleSlices[j];
  }

  /** Marking the chord roots selects nothing and deselects nothing. */
  lemma MarkingKeepsSelection(p: Platform, chordNotes: seq<NoteType>, scaleNotes: seq<NoteType>,
                              circleSlices: seq<PieChartSlice>, selectedSlice: PieChartSlice?,
                              circleAfter: seq<SliceState>, chordAfter: seq<SliceState>,
                              intervalAfter: seq<SliceState>, circleBefore: seq<SliceState>,
                              chordBefore: seq<SliceState>, intervalBefore: seq<SliceState>)
    requires MarkedStates(p, chordNotes, scaleNotes, circleAfter, chordAfter, intervalAfter,
                          circleBefore, chordBefore, intervalBefore)
    requires SelectionRecorded(circleSlices, circleBefore, selectedSlice)
    ensures SelectionRecorded(circleSlices, circleAfter, selectedSlice)
  {
  }

  /** After marking with the chord roots of a scale, the enabled circle wedges are
      exactly the positions of those roots: seven wedges, whatever the scale. */
  lemma DrawnWedgesEnabled(p: Platform, s: Scale, scaleNotes: seq<NoteType>,
                           circleAfter: seq<SliceState>, chordAfter: seq<SliceState>,
                           intervalAfter: seq<SliceState>, circleBefore: seq<SliceState>,
                           chordBefore: seq<SliceState>, intervalBefore: seq<SliceState>)
    requires MarkedStates(p, ChordNotesOf(s), scaleNotes, circleAfter, chordAfter, intervalAfter,
                          circleBefore, chordBefore, intervalBefore)
    ensures (set i: nat | i < |circleAfter| && circleAfter[i].isEnabled) == EnabledPositions(s)
    ensures |set i: nat | i < |circleAfter| && circleAfter[i].isEnabled| == |Chords|
  {
    assert (set i: nat | i < |circleAfter| && circleAfter[i].isEnabled) == EnabledPositions(s);
    EnabledCount(s);
  }

  /** The states of zero-width slices, one per colour. */
  function FlatStates(colors: seq<Color>): (r: seq<SliceState>)
    ensures |r| == |colors|
    ensures forall k :: 0 <= k < |r| ==> r[k] == SliceState(0, 0, colors[k], colors[k], colors[k], None, true, false)
  {
    seq(|colors|, k requires 0 <= k < |colors| => SliceState(0, 0, colors[k], colors[k], colors[k], None, true, false))
  }

  /** The states of new circle slices, one per note of the circle. */
  function CircleStates(p: Platform, defaultColor: Color, highlightedColor: Color, disabledColor: Color)
    : (r: seq<SliceState>)
    ensures |r| == |Circle|
    ensures forall i :: 0 <= i < |r| ==>
      r[i] == CircleSliceState(p, Circle[i], defaultColor, highlightedColor, disabledColor)
  {
    seq(|Circle|, i requires 0 <= i < |Circle| =>
      CircleSliceState(p, Circle[i], defaultColor, highlightedColor, disabledColor))
  }

  /** The slices of three new pies as `setup()` creates them: zero-width chord slices
      in their chord colours, the circle slices at their notes' wedges, zero-width
      interval slices in the default colour. */
  ghost predicate NewPieStates(p: Platform, chordPie: PieChartLayer, circlePie: PieChartLayer,
                               intervalPie: PieChartLayer, chordColors: seq<Color>, defaultColor: Color,
                               highlightedColor: Color, disabledColor: Color)
    reads chordPie.slices, circlePie.slices, intervalPie.slices
  {
    && States(chordPie.slices) == FlatStates(chordColors)
    && States(circlePie.slices) == CircleStates(p, defaultColor, highlightedColor, disabledColor)
    && States(intervalPie.slices) == FlatStates(Uniform(defaultColor, |Chords|))
  }

  /** The three pies of `setup()`, in this platform's framework style: seven chord
      slices coloured by chord quality, the twelve circle slices, seven interval
      slices in the default colour; all new, none shared. */
  method NewFrameworkPies(p: Platform, center: Point, chordColors: seq<Color>, defaultColor: Color,
                          highlightedColor: Color, disabledColor: Color)
    returns (chordPie: PieChartLayer, circlePie: PieChartLayer, intervalPie: PieChartLayer)
    requires |chordColors| == |Chords|
    ensures && fresh(chordPie) && fresh(circlePie) && fresh(intervalPie)
            && chordPie.center == circlePie.center == intervalPie.center == center
            && chordPie.radius == circlePie.radius == intervalPie.radius == 0.0
    ensures && (forall k :: 0 <= k < |chordPie.slices| ==> fresh(chordPie.slices[k]))
            && (forall i :: 0 <= i < |circlePie.slices| ==> fresh(circlePie.slices[i]))
            && (forall k :: 0 <= k < |intervalPie.slices| ==> fresh(intervalPie.slices[k]))
    ensures PiesReady(Framework(p), chordPie, circlePie, intervalPie)
    ensures SelectionRecorded(circlePie.slices, States(circlePie.slices), null)
    ensures NewPieStates(p, chordPie, circlePie, intervalPie, chordColors, defaultColor,
                         highlightedColor, disabledColor)
  {
    chordPie := NewFlatPie(Framework(p), center, chordColors);
    circlePie := NewCirclePie(Framework(p), center, defaultColor, highlightedColor, disabledColor);
    intervalPie := NewFlatPie(Framework(p), center, Uniform(defaultColor, |Chords|));
  }

  /** The sizing part of `draw()`: the chord pie fills the frame, the circle pie sits
      `chordPieHeight` inside it, the interval pie has radius `intervalPieHeight`,
      all three are centred, and the two labelled pies get their label distances. */
  method SizePies(chordPie: PieChartLayer, circlePie: PieChartLayer, intervalPie: PieChartLayer,
                  radius: real, center: Point, chordPieHeight: real, intervalPieHeight: real,
                  textTreshold: real, intervalTextTreshold: real)
    requires chordPie != circlePie && circlePie != intervalPie && chordPie != intervalPie
    modifies chordPie`radius, circlePie`radius, intervalPie`radius
    modifies chordPie`center, circlePie`center, intervalPie`center
    modifies circlePie`labelPositionTreshold, intervalPie`labelPositionTreshold
    ensures && chordPie.radius == radius
            && circlePie.radius == Max(0.0, radius - chordPieHeight)
            && intervalPie.radius == Max(0.0, intervalPieHeight)
            && chordPie.center == circlePie.center == intervalPie.center == center
            && circlePie.labelPositionTreshold == textTreshold
            && intervalPie.labelPositionTreshold == intervalTextTreshold
  {
    chordPie.radius := radius;
    circlePie.radius := Max(0.0, radius - chordPieHeight);
    intervalPie.radius := Max(0.0, intervalPieHeight);
    chordPie.center := center;
    circlePie.center := center;
    circlePie.labelPositionTreshold := textTreshold;
    intervalPie.center := center;
    intervalPie.labelPositionTreshold := intervalTextTreshold;
  }

  class CircleOfFifths {
    const platform: Platform
    var scale: Scale
    var defaultColor: Color
    var highlightedColor: Color
    var disabledColor: Color
    var textTreshold: real
    var chordPieHeight: real
    var majorColor: Color
    var minorColor: Color
    var diminishedColor: Color
    var majorTextTreshold: real
    var minorTextTreshold: real
    var diminishedTextTreshold: real
    var intervalPieHeight: real
    var intervalTextTreshold: real

    var chordPie: PieChartLayer?
    var circlePie: PieChartLayer?
    var intervalPie: PieChartLayer?
    var selectedSlice: PieChartSlice?
    var majorArcText: Option<ArcLabel>
    var minorArcText: Option<ArcLabel>
    var dimArcText: Option<ArcLabel>

    /** Before `setup()` there are no pies; after it there are three pies drawn in
        this platform's framework style (see `PiesReady`) and three group labels. */
    ghost predicate Valid()
      reads this`chordPie, this`circlePie, this`intervalPie
      reads this`majorArcText, this`minorArcText, this`dimArcText
      reads chordPie, circlePie, intervalPie
    {
      && (chordPie == null <==> circlePie == null)
      && (circlePie == null <==> intervalPie == null)
      && (chordPie != null && circlePie != null && intervalPie != null ==>
        && PiesReady(Framework(platform), chordPie, circlePie, intervalPie)
        && majorArcText.Some? && minorArcText.Some? && dimArcText.Some?)
    }

    /** `selectedSlice` records the selected circle wedge, if any (none before
        `setup()`). */
    ghost predicate SlicesReady()
      reads this`circlePie, this`selectedSlice, SlicesOf(circlePie)
    {
      SelectionRecorded(SlicesOf(circlePie), States(SlicesOf(circlePie)), selectedSlice)
    }

    /** A view with the inspectable defaults: minor scale in c, white wedges, red
        highlight, light-gray disabled wedges, red / blue / green chord qualities. */
    constructor (platform: Platform)
      ensures this.platform == platform && Valid() && SlicesReady()
      ensures scale == Scale(Minor, C)
      ensures defaultColor == White && highlightedColor == Red && disabledColor == LightGray
      ensures majorColor == Red && minorColor == Blue && diminishedColor == Green
      ensures textTreshold == 10.0 && chordPieHeight == 10.0
      ensures majorTextTreshold == 5.0 && minorTextTreshold == 5.0 && diminishedTextTreshold == 5.0
      ensures intervalPieHeight == 10.0 && intervalTextTreshold == 15.0
      ensures chordPie == null && circlePie == null && intervalPie == null && selectedSlice == null
    {
      this.platform := platform;
      scale := Scale(Minor, C);
      defaultColor, highlightedColor, disabledColor := White, Red, LightGray;
      textTreshold, chordPieHeight := 10.0, 10.0;
      majorColor, minorColor, diminishedColor := Red, Blue, Green;
      majorTextTreshold, minorTextTreshold, diminishedTextTreshold := 5.0, 5.0, 5.0;
      intervalPieHeight, intervalTextTreshold := 10.0, 15.0;
      chordPie, circlePie, intervalPie, selectedSlice := null, null, null, null;
      majorArcText, minorArcText, dimArcText := None, None, None;
    }

    /** `setup()`: a chord pie of seven zero-width slices coloured by chord quality,
        a circle pie of twelve slices at their notes' wedges and labelled with the
        notes' names, an interval pie of seven zero-width slices in the default colour,
        each pie centred at `center` with radius 0, and three blank group labels. */
    method Setup(center: Point)
      requires Valid() && SlicesReady() && circlePie == null
      modifies this`chordPie, this`circlePie, this`intervalPie
      modifies this`majorArcText, this`minorArcText, this`dimArcText
      ensures && chordPie != null && circlePie != null && intervalPie != null
              && fresh(chordPie) && fresh(circlePie) && fresh(intervalPie)
              && chordPie.center == circlePie.center == intervalPie.center == center
              && chordPie.radius == circlePie.radius == intervalPie.radius == 0.0
              && majorArcText == minorArcText == dimArcText == Some(BlankArcLabel)
      ensures && (forall k :: 0 <= k < |chordPie.slices| ==> fresh(chordPie.slices[k]))
              && (forall i :: 0 <= i < |circlePie.slices| ==> fresh(circlePie.slices[i]))
              && (forall k :: 0 <= k < |intervalPie.slices| ==> fresh(intervalPie.slices[k]))
      ensures NewPieStates(platform, chordPie, circlePie, intervalPie,
                           old(ChordColors(majorColor, minorColor, diminishedColor)), old(defaultColor),
                           old(highlightedColor), old(disabledColor))
      ensures Valid() && SlicesReady()
    {
      majorArcText, minorArcText, dimArcText := Some(BlankArcLabel), Some(BlankArcLabel), Some(BlankArcLabel);
      chordPie, circlePie, intervalPie :=
        NewFrameworkPies(platform, center, ChordColors(majorColor, minorColor, diminishedColor),
                         defaultColor, highlightedColor, disabledColor);
    }

    /** `draw()`: builds the pies on first use, sizes them to the frame, marks the
        chord roots of the current scale on them, and puts the three group labels over
        their chords. */
    method Draw(width: real, height: real, center: Point, scaleNotes: seq<NoteType>)
      requires Valid() && SlicesReady()
      modifies this`chordPie, this`circlePie, this`intervalPie
      modifies this`majorArcText, this`minorArcText, this`dimArcText
      modifies Present(chordPie)`radius, Present(circlePie)`radius, Present(intervalPie)`radius
      modifies Present(chordPie)`center, Present(circlePie)`center, Present(intervalPie)`center
      modifies Present(circlePie)`labelPositionTreshold, Present(intervalPie)`labelPositionTreshold
      modifies SlicesOf(chordPie), SlicesOf(circlePie), SlicesOf(intervalPie)
      ensures Valid() && SlicesReady() && LaidOut(width, height, center, ChordNotesOf(scale))
      ensures old(circlePie) != null ==>
        && chordPie == old(chordPie) && circlePie == old(circlePie) && intervalPie == old(intervalPie)
        && MarkedStates(platform, ChordNotesOf(scale), scaleNotes,
                        States(circlePie.slices), States(chordPie.slices), States(intervalPie.slices),
                        old(States(SlicesOf(circlePie))), old(States(SlicesOf(chordPie))),
                        old(States(SlicesOf(intervalPie))))
      ensures old(circlePie) == null ==>
        && fresh(chordPie) && fresh(circlePie) && fresh(intervalPie)
        && MarkedStates(platform, ChordNotesOf(scale), scaleNotes,
                        States(circlePie.slices), States(chordPie.slices), States(intervalPie.slices),
                        old(CircleStates(platform, defaultColor, highlightedColor, disabledColor)),
                        old(FlatStates(ChordColors(majorColor, minorColor, diminishedColor))),
                        old(FlatStates(Uniform(defaultColor, |Chords|))))
    {
      if chordPie == null || circlePie == null {
        Setup(center);
      }
      Redraw(width, height, center, scaleNotes);
    }

    /** `selectNote(note:)`: clears the recorded selection, then, given a note and a
        circle pie, selects the note's circle wedge, records it and redraws the circle
        pie. When nothing new is selected the cleared slice stays recorded. */
    method SelectNote(note: Option<NoteType>)
      requires Valid() && SlicesReady()
      modifies this`selectedSlice, SlicesOf(circlePie), Present(circlePie)`sliceLayers,
        Present(circlePie)`frameSide
      ensures Valid() && SlicesReady()
      ensures circlePie != null ==> forall i :: 0 <= i < |Circle| ==>
        circlePie.slices[i].State() ==
          old(circlePie.slices[i].State()).(isSelected := note.Some? && i == CircleIndex(note.value))
      ensures selectedSlice ==
        if note.Some? && circlePie != null then circlePie.slices[CircleIndex(note.value)]
        else old(selectedSlice)
      ensures note.Some? && circlePie != null ==> circlePie.Rendered()
    {
      ClearSelection();
      if note.None? || circlePie == null {
        return;
      }
      SelectWedge(CircleIndex(note.value));
    }

    /** `selectedSlice?.isSelected = false`: afterwards no circle wedge is selected. */
    method ClearSelection()
      requires Valid() && SlicesReady()
      modifies SlicesOf(circlePie)
      ensures Valid() && SlicesReady()
      ensures circlePie != null ==> forall i :: 0 <= i < |Circle| ==>
        circlePie.slices[i].State() == old(circlePie.slices[i].State()).(isSelected := false)
    {
      if selectedSlice != null {
        selectedSlice.isSelected := false;
      }
    }

    /** The end of `selectNote(note:)`: selects circle wedge `index`, records it and
        redraws the circle pie. */
    method SelectWedge(index: nat)
      requires Valid() && circlePie != null && index < |Circle|
      requires forall i :: 0 <= i < |circlePie.slices| ==> !circlePie.slices[i].isSelected
      modifies this`selectedSlice, circlePie.slices[index], circlePie`sliceLayers, circlePie`frameSide
      ensures Valid() && SlicesReady()
      ensures forall i :: 0 <= i < |Circle| ==>
        circlePie.slices[i].State() == old(circlePie.slices[i].State()).(isSelected := i == index)
      ensures selectedSlice == circlePie.slices[index]
      ensures circlePie.Rendered()
    {
      var slice := circlePie.slices[index];
      slice.isSelected := true;
      selectedSlice := slice;
      circlePie.Draw();
    }

    /** The loop of `draw()`: marks the chord roots on the pies (see
        `MarkChordSlices`); it moves no circle wedge and selects nothing. */
    method MarkChordRoots(chordNotes: seq<NoteType>, scaleNotes: seq<NoteType>, ghost width: real,
                          ghost height: real, ghost center: Point)
      requires chordPie != null && circlePie != null && intervalPie != null
      requires PiesReady(Framework(platform), chordPie, circlePie, intervalPie) && SlicesReady()
      requires LaidOut(width, height, center, chordNotes)
      requires |chordNotes| == |Chords| && Distinct(chordNotes)
      modifies chordPie.slices, circlePie.slices, intervalPie.slices
      ensures PiesReady(Framework(platform), chordPie, circlePie, intervalPie) && SlicesReady()
      ensures LaidOut(width, height, center, chordNotes)
      ensures unchanged(this) && unchanged(chordPie, circlePie, intervalPie)
      ensures MarkedStates(platform, chordNotes, scaleNotes,
                           States(circlePie.slices), States(chordPie.slices), States(intervalPie.slices),
                           old(States(circlePie.slices)), old(States(chordPie.slices)),
                           old(States(intervalPie.slices)))
    {
      ghost var circleBefore, chordBefore, intervalBefore :=
        States(circlePie.slices), States(chordPie.slices), States(intervalPie.slices);
      MarkChordSlices(platform, chordNotes, scaleNotes, circlePie.slices, chordPie.slices,
                      intervalPie.slices);
      assert unchanged(chordPie, circlePie, intervalPie);
      MarkingKeepsSelection(platform, chordNotes, scaleNotes, circlePie.slices, selectedSlice,
                            States(circlePie.slices), States(chordPie.slices),
                            States(intervalPie.slices), circleBefore, chordBefore, intervalBefore);
    }

    /** What `draw()` leaves on the pies and labels for a `width` by `height` frame:
        the chord pie fills the frame, the circle pie sits `chordPieHeight` inside it,
        the interval pie has radius `intervalPieHeight`, all three are centred at
        `center`, the two labelled pies have their label distances, and each group
        label names its chord quality over the middle root of that quality's run (roots
        1, 4 and 6), `treshold` inside the chord pie's rim. */
    ghost predicate LaidOut(width: real, height: real, center: Point, chordNotes: seq<NoteType>)
      reads this, chordPie, circlePie, intervalPie
    {
      && chordPie != null && circlePie != null && intervalPie != null && |chordNotes| == |Chords|
      && var radius := ViewRadius(width, height);
      && chordPie.radius == radius
      && circlePie.radius == Max(0.0, radius - chordPieHeight)
      && intervalPie.radius == Max(0.0, intervalPieHeight)
      && chordPie.center == circlePie.center == intervalPie.center == center
      && circlePie.labelPositionTreshold == textTreshold
      && intervalPie.labelPositionTreshold == intervalTextTreshold
      && majorArcText == Some(GroupLabel(platform, "Major", chordNotes[MajorLabelRoot], radius, majorTextTreshold))
      && minorArcText == Some(GroupLabel(platform, "Minor", chordNotes[MinorLabelRoot], radius, minorTextTreshold))
      && dimArcText == Some(GroupLabel(platform, "Dim", chordNotes[DimLabelRoot], radius, diminishedTextTreshold))
    }

    /** The sizing and labelling parts of `draw()`; they touch no slice and no layer. */
    method Layout(width: real, height: real, center: Point, chordNotes: seq<NoteType>)
      requires && chordPie != null && circlePie != null && intervalPie != null
               && PiesReady(Framework(platform), chordPie, circlePie, intervalPie) && SlicesReady()
      requires |chordNotes| == |Chords|
      modifies this`majorArcText, this`minorArcText, this`dimArcText
      modifies chordPie`radius, circlePie`radius, intervalPie`radius
      modifies chordPie`center, circlePie`center, intervalPie`center
      modifies circlePie`labelPositionTreshold, intervalPie`labelPositionTreshold
      ensures PiesReady(Framework(platform), chordPie, circlePie, intervalPie) && SlicesReady()
      ensures && States(circlePie.slices) == old(States(circlePie.slices))
              && States(chordPie.slices) == old(States(chordPie.slices))
              && States(intervalPie.slices) == old(States(intervalPie.slices))
      ensures LaidOut(width, height, center, chordNotes)
    {
      var radius := ViewRadius(width, height);
      Resize(radius, center);
      PlaceGroupLabels(radius, chordNotes);
    }

    /** The sizing part of `draw()`. */
    method Resize(radius: real, center: Point)
      requires && chordPie != null && circlePie != null && intervalPie != null
               && PiesReady(Framework(platform), chordPie, circlePie, intervalPie) && SlicesReady()
      modifies chordPie`radius, circlePie`radius, intervalPie`radius
      modifies chordPie`center, circlePie`center, intervalPie`center
      modifies circlePie`labelPositionTreshold, intervalPie`labelPositionTreshold
      ensures PiesReady(Framework(platform), chordPie, circlePie, intervalPie) && SlicesReady()
      ensures && States(circlePie.slices) == old(States(circlePie.slices))
              && States(chordPie.slices) == old(States(chordPie.slices))
              && States(intervalPie.slices) == old(States(intervalPie.slices))
      ensures && chordPie.radius == radius
              && circlePie.radius == Max(0.0, radius - chordPieHeight)
              && intervalPie.radius == Max(0.0, intervalPieHeight)
              && chordPie.center == circlePie.center == intervalPie.center == center
              && circlePie.labelPositionTreshold == textTreshold
              && intervalPie.labelPositionTreshold == intervalTextTreshold
    {
      SizePies(chordPie, circlePie, intervalPie, radius, center, chordPieHeight, intervalPieHeight,
               textTreshold, intervalTextTreshold);
    }

    /** The labelling part of `draw()`: each group label names its chord quality over
        the middle root of that quality's run (roots 1, 4 and 6). */
    method PlaceGroupLabels(radius: real, chordNotes: seq<NoteType>)
      requires && chordPie != null && circlePie != null && intervalPie != null
               && PiesReady(Framework(platform), chordPie, circlePie, intervalPie) && SlicesReady()
      requires |chordNotes| == |Chords|
      modifies this`majorArcText, this`minorArcText, this`dimArcText
      ensures PiesReady(Framework(platform), chordPie, circlePie, intervalPie) && SlicesReady()
      ensures && States(circlePie.slices) == old(States(circlePie.slices))
              && States(chordPie.slices) == old(States(chordPie.slices))
              && States(intervalPie.slices) == old(States(intervalPie.slices))
      ensures unchanged(chordPie, circlePie, intervalPie)
      ensures && majorArcText == Some(GroupLabel(platform, "Major", chordNotes[MajorLabelRoot], radius, majorTextTreshold))
              && minorArcText == Some(GroupLabel(platform, "Minor", chordNotes[MinorLabelRoot], radius, minorTextTreshold))
              && dimArcText == Some(GroupLabel(platform, "Dim", chordNotes[DimLabelRoot], radius, diminishedTextTreshold))
    {
      majorArcText := Some(GroupLabel(platform, "Major", chordNotes[MajorLabelRoot], radius, majorTextTreshold));
      minorArcText := Some(GroupLabel(platform, "Minor", chordNotes[MinorLabelRoot], radius, minorTextTreshold));
      dimArcText := Some(GroupLabel(platform, "Dim", chordNotes[DimLabelRoot], radius, diminishedTextTreshold));
    }

    /** The part of `draw()` after the `guard`: the pies exist. */
    method Redraw(width: real, height: real, center: Point, scaleNotes: seq<NoteType>)
      requires Valid() && SlicesReady() && circlePie != null
      modifies this`majorArcText, this`minorArcText, this`dimArcText
      modifies chordPie`radius, circlePie`radius, intervalPie`radius
      modifies chordPie`center, circlePie`center, intervalPie`center
      modifies circlePie`labelPositionTreshold, intervalPie`labelPositionTreshold
      modifies SlicesOf(chordPie), SlicesOf(circlePie), SlicesOf(intervalPie)
      ensures chordPie == old(chordPie) && circlePie == old(circlePie) && intervalPie == old(intervalPie)
      ensures Valid() && SlicesReady() && LaidOut(width, height, center, ChordNotesOf(scale))
      ensures MarkedStates(platform, ChordNotesOf(scale), scaleNotes,
                           States(circlePie.slices), States(chordPie.slices), States(intervalPie.slices),
                           old(States(circlePie.slices)), old(States(chordPie.slices)),
                           old(States(intervalPie.slices)))
    {
      var chordNotes := DetermineChordNotes(scale);
      ChordNotesDistinct(scale);
      Layout(width, height, center, chordNotes);
      MarkChordRoots(chordNotes, scaleNotes, width, height, center);
    }
  }
}
