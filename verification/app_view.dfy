/** The `CircleOfFifths` view of the macOS and iOS apps: a chord pie outside and the
    twelve notes inside, no interval pie, no group labels and no selection. `setup()`
    builds the two pies, the private `draw()` sizes them and marks the chord roots of
    the current scale, and the framework's `draw(_:)` override runs `setup()` first when
    a pie is missing. */
module AppView {
  import opened Common
  import opened MusicTheory
  import opened Graphics
  import opened CircleTables
  import opened Harmony
  import opened PieChart
  import opened PieSlices
  import opened CircleView

  /** The two pies of an app view: distinct, drawn in the app's style, seven chord
      slices and twelve circle slices, each pie pairing its layers with its slices, and
      no slice shared. */
  ghost predicate AppPiesReady(t: Target, chordPie: PieChartLayer, circlePie: PieChartLayer)
    reads chordPie`sliceLayers, circlePie`sliceLayers
    reads chordPie`angleTreshold, circlePie`angleTreshold
  {
    && chordPie != circlePie
    && chordPie.target == t && circlePie.target == t
    && |chordPie.slices| == |Chords| && |circlePie.slices| == |Circle|
    && chordPie.Valid() && circlePie.Valid()
    && SlicesApart(circlePie.slices, chordPie.slices, [])
  }

  /** The sizing part of the app's `draw()`: the chord pie fills the frame, the circle
      pie sits `chordPieHeight` inside it (never below radius 0), both are centred, and
      the circle pie gets its label distance. */
  method SizeAppPies(chordPie: PieChartLayer, circlePie: PieChartLayer, radius: real, center: Point,
                     chordPieHeight: real, textTreshold: real)
    requires chordPie != circlePie
    modifies chordPie`radius, circlePie`radius, chordPie`center, circlePie`center
    modifies circlePie`labelPositionTreshold
    ensures && chordPie.radius == radius
            && circlePie.radius == Max(0.0, radius - chordPieHeight)
            && chordPie.center == circlePie.center == center
            && circlePie.labelPositionTreshold == textTreshold
  {
    chordPie.radius := radius;
    circlePie.radius := Max(0.0, radius - chordPieHeight);
    chordPie.center := center;
    circlePie.center := center;
    circlePie.labelPositionTreshold := textTreshold;
  }

  class AppCircleOfFifths {
    /** `MacApp` or `IOSApp`: which of the two apps this view belongs to. */
    const target: Target
    var scale: Scale
    var defaultColor: Color
    var highlightedColor: Color
    var disabledColor: Color
    var textTreshold: real
    var chordPieHeight: real
    var majorColor: Color
    var minorColor: Color
    var diminishedColor: Color

    var chordPie: PieChartLayer?
    var circlePie: PieChartLayer?

    /** Both pies or neither, and once built they are ready (see `AppPiesReady`). */
    ghost predicate Valid()
      reads this`chordPie, this`circlePie, chordPie, circlePie
    {
      && (target == MacApp || target == IOSApp)
      && (chordPie == null <==> circlePie == null)
      && (chordPie != null && circlePie != null ==> AppPiesReady(target, chordPie, circlePie))
    }

    /** What the app's `draw()` leaves on the pies for a frame of `width` by `height`
        centred at `center`. */
    ghost predicate LaidOut(width: real, height: real, center: Point)
      reads this, chordPie, circlePie
    {
      && chordPie != null && circlePie != null
      && chordPie.radius == ViewRadius(width, height)
      && circlePie.radius == Max(0.0, ViewRadius(width, height) - chordPieHeight)
      && chordPie.center == center && circlePie.center == center
      && circlePie.labelPositionTreshold == textTreshold
    }

    /** A view with the inspectable defaults and no pies yet. */
    constructor (target: Target)
      requires target == MacApp || target == IOSApp
      ensures this.target == target && Valid()
      ensures scale == Scale(Minor, C)
      ensures defaultColor == White && highlightedColor == Red && disabledColor == LightGray
      ensures majorColor == Red && minorColor == Blue && diminishedColor == Green
      ensures textTreshold == 10.0 && chordPieHeight == 10.0
      ensures chordPie == null && circlePie == null
    {
      this.target := target;
      scale := Scale(Minor, C);
      defaultColor := White;
      highlightedColor := Red;
      disabledColor := LightGray;
      textTreshold := 10.0;
      chordPieHeight := 10.0;
      majorColor := Red;
      minorColor := Blue;
      diminishedColor := Green;
      chordPie := null;
      circlePie := null;
    }

    /** `setup()`: seven chord slices of angle 0 coloured by chord quality and the
        twelve circle slices from the framework's angle table (equal to the app's own
        by `MacAppTablesAgree` and `IOSAppTablesAgree`), both pies of radius 0 centred
        at `center`. */
    method Setup(center: Point)
      requires Valid()
      modifies this`chordPie, this`circlePie
      ensures Valid() && chordPie != null && circlePie != null
      ensures fresh(chordPie) && fresh(circlePie)
      ensures chordPie.center == circlePie.center == center
      ensures chordPie.radius == circlePie.radius == 0.0
      ensures forall k :: 0 <= k < |chordPie.slices| ==> fresh(chordPie.slices[k])
      ensures forall i :: 0 <= i < |circlePie.slices| ==> fresh(circlePie.slices[i])
      ensures States(chordPie.slices) == old(FlatStates(ChordColors(majorColor, minorColor, diminishedColor)))
      ensures States(circlePie.slices) ==
        old(CircleStates(TargetPlatform(target), defaultColor, highlightedColor, disabledColor))
    {
      var chord := NewFlatPie(target, center, ChordColors(majorColor, minorColor, diminishedColor));
      var circle := NewCirclePie(target, center, defaultColor, highlightedColor, disabledColor);
      chordPie, circlePie := chord, circle;
    }

    /** The app's private `draw()`: nothing happens unless both pies exist (its
        `modifies` is then empty); otherwise the pies are sized to the frame and each
        circle slice is enabled exactly when its note is a chord root of the scale, with
        chord slice k on the wedge of root k. */
    method Redraw(width: real, height: real, center: Point)
      requires Valid()
      modifies Present(chordPie)`radius, Present(circlePie)`radius
      modifies Present(chordPie)`center, Present(circlePie)`center
      modifies Present(circlePie)`labelPositionTreshold, SlicesOf(chordPie), SlicesOf(circlePie)
      ensures Valid() && chordPie == old(chordPie) && circlePie == old(circlePie)
      ensures chordPie != null ==>
        && LaidOut(width, height, center)
        && MarkedStates(TargetPlatform(target), ChordNotesOf(scale), [],
                        States(circlePie.slices), States(chordPie.slices), [],
                        old(States(circlePie.slices)), old(States(chordPie.slices)), [])
    {
      if chordPie == null || circlePie == null {
        return;
      }
      Refresh(width, height, center);
    }

    /** The part of `draw()` after the `guard`: the pies exist. */
    method Refresh(width: real, height: real, center: Point)
      requires chordPie != null && circlePie != null && AppPiesReady(target, chordPie, circlePie)
      modifies chordPie`radius, circlePie`radius, chordPie`center, circlePie`center
      modifies circlePie`labelPositionTreshold, chordPie.slices, circlePie.slices
      ensures AppPiesReady(target, chordPie, circlePie) && LaidOut(width, height, center)
      ensures MarkedStates(TargetPlatform(target), ChordNotesOf(scale), [],
                           States(circlePie.slices), States(chordPie.slices), [],
                           old(States(circlePie.slices)), old(States(chordPie.slices)), [])
    {
      SizeAppPies(chordPie, circlePie, ViewRadius(width, height), center, chordPieHeight, textTreshold);
      var chordNotes := DetermineChordNotes(scale);
      ChordNotesDistinct(scale);
      MarkChordSlices(TargetPlatform(target), chordNotes, [], circlePie.slices, chordPie.slices, []);
    }

    /** `draw(_:)`: builds the pies when one is missing, then runs `draw()`. */
    method Render(width: real, height: real, center: Point)
      requires Valid()
      modifies this`chordPie, this`circlePie
      modifies Present(chordPie)`radius, Present(circlePie)`radius
      modifies Present(chordPie)`center, Present(circlePie)`center
      modifies Present(circlePie)`labelPositionTreshold
      modifies SlicesOf(chordPie), SlicesOf(circlePie)
      ensures Valid() && LaidOut(width, height, center)
      ensures old(chordPie) != null ==>
        && chordPie == old(chordPie) && circlePie == old(circlePie)
        && MarkedStates(TargetPlatform(target), ChordNotesOf(scale), [],
                        States(circlePie.slices), States(chordPie.slices), [],
                        old(States(SlicesOf(circlePie))), old(States(SlicesOf(chordPie))), [])
      ensures old(chordPie) == null ==>
        && fresh(chordPie) && fresh(circlePie)
        && MarkedStates(TargetPlatform(target), ChordNotesOf(scale), [],
                        States(circlePie.slices), States(chordPie.slices), [],
                        old(CircleStates(TargetPlatform(target), defaultColor, highlightedColor,
                                         disabledColor)),
                        old(FlatStates(ChordColors(majorColor, minorColor, diminishedColor))), [])
    {
      if chordPie == null || circlePie == null {
        Setup(center);
      }
      Redraw(width, height, center);
    }
  }
}
