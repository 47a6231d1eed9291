/** `PieChartSlice` and `PieChartLayer`: one wedge per slice, filled by a colour
    priority rule, drawn as an arc shifted by the platform's quarter turn, with the
    slice's label anchored at the middle of that arc. Three copies exist: the
    framework's shared source compiled for either platform, and the Mac and iOS
    app copies; `Target` says which one is meant. */
module PieChart {
  import opened Common
  import opened Graphics

  /** Which copy of the layer code is meant. */
  datatype Target = Framework(platform: Platform) | MacApp | IOSApp

  function TargetPlatform(t: Target): Platform {
    match t
    case Framework(p) => p
    case MacApp => OSX
    case IOSApp => IOS
  }

  /** `angleTreshold`'s value: a quarter turn added to every slice angle, +90 degrees
      on macOS and -90 on iOS. */
  function AngleTreshold(t: Target): int {
    if TargetPlatform(t) == OSX then 90 else -90
  }

  /** The arc is drawn clockwise on iOS and counter-clockwise on macOS. */
  function Clockwise(t: Target): bool {
    TargetPlatform(t) == IOS
  }

  /** Only the framework's copy closes the wedge path back to the centre. */
  function ClosesPath(t: Target): bool {
    t.Framework?
  }

  /** What `draw()` reads from a slice. */
  datatype SliceState = SliceState(
    startAngle: int, endAngle: int,
    color: Color, highlightedColor: Color, disabledColor: Color,
    attributedString: Option<string>,
    isEnabled: bool, isSelected: bool)

  /** The fill colour `draw()` picks. The framework and the Mac app let a selected
      slice win over everything; the iOS app lets a disabled slice win. */
  function FillColor(t: Target, s: SliceState): (c: Color)
    ensures c == s.color || c == s.highlightedColor || c == s.disabledColor
  {
    if t == IOSApp then
      (if s.isEnabled then (if s.isSelected then s.highlightedColor else s.color) else s.disabledColor)
    else
      (if s.isSelected then s.highlightedColor else if s.isEnabled then s.color else s.disabledColor)
  }

  /** The wedge path: a move to the centre, an arc at `radius` from `arcStart` to
      `arcEnd` degrees in the given direction, and, if `closed`, a line back. */
  datatype WedgePath = WedgePath(center: Point, radius: real, arcStart: int, arcEnd: int,
                                 clockwise: bool, closed: bool)

  /** Where the label goes, in polar form about the centre: an angle in degrees and
      a distance. */
  datatype LabelAnchor = LabelAnchor(angle: real, distance: real)

  /** `textLayer.frame.size`: measured by the platform for a string, zero otherwise. */
  datatype TextSize = Zero | Measured(text: string)

  /** Everything `draw()` sets on one slice layer and on the slice's text layer. */
  datatype Drawing = Drawing(fill: Color, path: WedgePath, text: Option<string>,
                             textSize: TextSize, anchor: LabelAnchor)

  /** The body of the `draw()` loop for one slice. */
  function RenderSlice(t: Target, center: Point, radius: real, labelPositionTreshold: real,
                       angleTreshold: int, s: SliceState): (d: Drawing)
    ensures d.path.arcEnd - d.path.arcStart == s.endAngle - s.startAngle
    ensures 2.0 * d.anchor.angle == (d.path.arcStart + d.path.arcEnd) as real
    ensures d.anchor.distance < radius <==> labelPositionTreshold > 0.0
    ensures d.textSize.Zero? <==> s.attributedString.None?
  {
    var arcStart := s.startAngle + angleTreshold;
    var arcEnd := s.endAngle + angleTreshold;
    Drawing(
      FillColor(t, s),
      WedgePath(center, radius, arcStart, arcEnd, Clockwise(t), ClosesPath(t)),
      s.attributedString,
      if s.attributedString.Some? then Measured(s.attributedString.value) else Zero,
      LabelAnchor((s.endAngle + s.startAngle + angleTreshold * 2) as real / 2.0,
                  radius - labelPositionTreshold))
  }

  /** A slice layer and the slice whose text layer it hosts, with what `draw()` last
      set on them (nothing before the first `draw()`). */
  datatype SliceLayer = SliceLayer(host: PieChartSlice, drawing: Option<Drawing>)

  class PieChartSlice {
    var startAngle: int
    var endAngle: int
    var color: Color
    var highlightedColor: Color
    var disabledColor: Color
    var attributedString: Option<string>
    var isEnabled: bool
    var isSelected: bool

    /** Omitted highlighted and disabled colours default to `color`; a new slice is
        enabled and not selected. */
    constructor (startAngle: int, endAngle: int, color: Color, highlightedColor: Option<Color>,
                 disabledColor: Option<Color>, attributedString: Option<string>)
      ensures this.startAngle == startAngle && this.endAngle == endAngle
      ensures this.color == color
      ensures this.highlightedColor == highlightedColor.GetOr(color)
      ensures this.disabledColor == disabledColor.GetOr(color)
      ensures this.attributedString == attributedString
      ensures isEnabled && !isSelected
    {
      this.startAngle := startAngle;
      this.endAngle := endAngle;
      this.color := color;
      this.highlightedColor := highlightedColor.GetOr(color);
      this.disabledColor := disabledColor.GetOr(color);
      this.attributedString := attributedString;
      isEnabled := true;
      isSelected := false;
    }

    function State(): SliceState
      reads this
    {
      SliceState(startAngle, endAngle, color, highlightedColor, disabledColor,
                 attributedString, isEnabled, isSelected)
    }
  }

  class PieChartLayer {
    const target: Target
    const slices: seq<PieChartSlice>
    var center: Point
    var radius: real
    var labelPositionTreshold: real
    var angleTreshold: int
    var sliceLayers: seq<SliceLayer>
    /** The side of the square `frame` that `draw()` sets. */
    var frameSide: real

    /** Layer i hosts slice i, one layer per slice, and the angle offset is the
        platform's. */
    ghost predicate Valid()
      reads this`sliceLayers, this`angleTreshold
    {
      && |sliceLayers| == |slices|
      && (forall i :: 0 <= i < |sliceLayers| ==> sliceLayers[i].host == slices[i])
      && angleTreshold == AngleTreshold(target)
    }

    /** Every layer shows what `draw()` makes of the slice it hosts, as the slice is
        now. */
    ghost predicate Rendered()
      reads this, slices
    {
      forall i :: 0 <= i < |sliceLayers| && i < |slices| ==>
        sliceLayers[i].drawing == Some(RenderSlice(target, center, radius, labelPositionTreshold,
                                                   angleTreshold, slices[i].State()))
    }

    /** `init(radius:center:slices:)`, which ends by calling `setup()`. */
    constructor (target: Target, radius: real, center: Point, slices: seq<PieChartSlice>)
      ensures this.target == target && this.slices == slices
      ensures this.radius == radius && this.center == center
      ensures labelPositionTreshold == 10.0
      ensures Valid()
      ensures forall i :: 0 <= i < |sliceLayers| ==> sliceLayers[i].drawing.None?
    {
      this.target := target;
      this.slices := slices;
      this.radius := radius;
      this.center := center;
      labelPositionTreshold := 10.0;
      angleTreshold := AngleTreshold(target);
      sliceLayers := [];
      frameSide := 0.0;
      new;
      Setup();
    }

    /** `setup()`: appends one fresh layer per slice, in slice order. (The old layers
        are only detached from the layer tree, which is not modelled; the list itself
        is not cleared, so `setup()` keeps the pairing only when the list starts empty,
        as it does in every initialiser.) */
    method Setup()
      modifies this`sliceLayers
      ensures |sliceLayers| == old(|sliceLayers|) + |slices|
      ensures sliceLayers[..old(|sliceLayers|)] == old(sliceLayers)
      ensures forall i :: 0 <= i < |slices| ==>
        sliceLayers[old(|sliceLayers|) + i] == SliceLayer(slices[i], None)
      ensures center == old(center) && radius == old(radius) && frameSide == old(frameSide)
      ensures labelPositionTreshold == old(labelPositionTreshold)
      ensures angleTreshold == old(angleTreshold)
    {
      ghost var before := sliceLayers;
      for i := 0 to |slices|
        invariant |sliceLayers| == |before| + i
        invariant sliceLayers[..|before|] == before
        invariant forall j :: 0 <= j < i ==> sliceLayers[|before| + j] == SliceLayer(slices[j], None)
      {
        sliceLayers := sliceLayers + [SliceLayer(slices[i], None)];
      }
    }

    /** `draw()`: sets the frame to a `2 * radius` square and redraws every layer from
        the slice it hosts. It reads the slices and writes none of them. Pairing layer
        i with `slices[i]` needs at least as many slices as layers. */
    method Draw()
      requires |sliceLayers| <= |slices|
      modifies this`sliceLayers, this`frameSide
      ensures frameSide == 2.0 * radius
      ensures |sliceLayers| == old(|sliceLayers|)
      ensures forall i :: 0 <= i < |sliceLayers| ==>
        sliceLayers[i] == SliceLayer(old(sliceLayers[i].host),
          Some(RenderSlice(target, center, radius, labelPositionTreshold, angleTreshold,
                           slices[i].State())))
      ensures center == old(center) && radius == old(radius)
      ensures labelPositionTreshold == old(labelPositionTreshold)
      ensures angleTreshold == old(angleTreshold)
      ensures old(Valid()) ==> Valid()
    {
      frameSide := 2.0 * radius;
      ghost var before := sliceLayers;
      for index := 0 to |sliceLayers|
        invariant frameSide == 2.0 * radius
        invariant |sliceLayers| == |before|
        invariant forall i :: 0 <= i < |sliceLayers| ==> sliceLayers[i].host == before[i].host
        invariant forall i :: 0 <= i < index ==>
          sliceLayers[i].drawing == Some(RenderSlice(target, center, radius,
            labelPositionTreshold, angleTreshold, slices[i].State()))
      {
        var slice := slices[index];
        var drawing := RenderSlice(target, center, radius, labelPositionTreshold,
                                   angleTreshold, slice.State());
        sliceLayers := sliceLayers[index := SliceLayer(sliceLayers[index].host, Some(drawing))];
      }
    }
  }

  // ---------------------------------------------------------------------------
  // Properties of the drawing rules

  /** The two priority rules disagree only on a slice that is selected and disabled,
      which the iOS app fills with its disabled colour and the others with their
      highlighted colour. */
  lemma FillRulesDifferOnlyWhenSelectedAndDisabled(t: Target, s: SliceState)
    requires t != IOSApp
    ensures FillColor(t, s) != FillColor(IOSApp, s) ==> s.isSelected && !s.isEnabled
    ensures s.isSelected && !s.isEnabled ==>
      FillColor(t, s) == s.highlightedColor && FillColor(IOSApp, s) == s.disabledColor
  {
  }

  /** A slice whose optional colours were left out fills with `color` whatever its
      flags, in every copy. */
  lemma DefaultColoursFillWithColor(t: Target, s: SliceState)
    requires s.highlightedColor == s.color && s.disabledColor == s.color
    ensures FillColor(t, s) == s.color
  {
  }

  /** The label anchor is the middle of the slice's own angles turned by the offset,
      so within one layer every label sits in the middle of its wedge; and a wedge's
      label turns with the wedge. */
  lemma {:induction false} AnchorIsWedgeMiddle(t: Target, center: Point, radius: real, lpt: real,
                             at: int, s: SliceState, delta: int)
    ensures var d := RenderSlice(t, center, radius, lpt, at, s);
      d.anchor.angle == (s.startAngle + s.endAngle) as real / 2.0 + at as real
    ensures var turned := s.(startAngle := s.startAngle + delta, endAngle := s.endAngle + delta);
      RenderSlice(t, center, radius, lpt, at, turned).anchor.angle ==
      RenderSlice(t, center, radius, lpt, at, s).anchor.angle + delta as real
  {
  }

  /** Slices that tile a range of angles give arcs that tile the range turned by the
      offset: consecutive slices sharing a boundary give arcs sharing a boundary. */
  lemma ArcsShareBoundaries(t: Target, center: Point, radius: real, lpt: real, at: int,
                            s1: SliceState, s2: SliceState)
    requires s1.endAngle == s2.startAngle
    ensures RenderSlice(t, center, radius, lpt, at, s1).path.arcEnd ==
            RenderSlice(t, center, radius, lpt, at, s2).path.arcStart
  {
  }
}
