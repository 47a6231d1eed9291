# Circle of fifths — a Dafny model

This project models the discrete core of the `CircleOfFifths` view. The view draws three
concentric pies:

- the seven chord roots of a scale, on the outside;
- the twelve notes in circle-of-fifths order, in the middle;
- Roman-numeral degrees, on the inside.

It also places three group labels ("Major", "Minor", "Dim") and keeps one selected wedge.
Three copies of the view exist: the framework's shared source (compiled for macOS or for
iOS), the macOS app copy and the iOS app copy. Each has its own `PieChartLayer`. The model
shares one core and has a parameter for the copy (`PieChart.Target`):

- `MusicTheory`: notes as pitch classes, and `NoteType + Interval` as addition modulo 12.
  The MusicTheorySwift library itself is not part of this model; this is a modelling
  assumption. Scales are a mode and a key. `scale.noteTypes` is an input sequence.
- `CircleTables`:
  - the fixed tables: the mode's root interval, the circle index, and the wedge angles
    in whole degrees for each platform;
  - proofs that the wedges tile the circle in the platform's direction.
- `AppTables`: the app copies' own angle tables, with their agreement with the framework
  tables. The app copies of the root-interval and circle-index tables are textually the
  same as the framework's, so the same functions stand for them.
- `KeyTables`: the tables keyed by note-name strings in `Source/Extensions.swift`, with
  their enharmonic aliases and fallbacks.
- `RomanNumerals` and `Harmony`:
  - the chord-root stack and the loop of `draw()` that builds it;
  - which wedges are enabled;
  - the fixed quality pattern;
  - `toRomanInterval`;
  - the group-label angles.
- `PieChart`: `PieChartSlice` and `PieChartLayer` as classes. This covers `setup()` (one
  layer per slice) and `draw()` (fill priority, arc angles, label anchor and text size)
  for each copy.
- `PieSlices`: building the slices in `setup()`, and the in-place marking loop of
  `draw()`, shared by all three views.
- `CircleView`: the framework view as a class. It covers `setup()`, `draw()` and
  `selectNote(note:)`.
- `AppView`: the macOS and iOS app views as one class. It covers `setup()`, the private
  `draw()` and the `draw(_:)` override.

The three copies of `PieChartLayer` and of the view differ in these ways, and the model
follows each copy as written:

- Only the framework's `PieChartLayer` closes the wedge path. The app copies leave it open
  (`PieChart.ClosesPath`).
- The iOS app's layer lets a disabled slice win over a selected one
  (`PieChart.FillColor`). The framework's layer and the macOS app's layer let a selected
  slice win.
- `PieChartLayer.setup()` detaches the old layers but does not clear its list. A rebuild
  with a non-empty list would therefore keep stale entries. The model keeps this
  (`PieChart.PieChartLayer.Setup`). Every initialiser starts with an empty list.
- On macOS, the start-angle table of `Source/Extensions.swift` is not consistent with its
  end-angle table (see Findings). The model reproduces it as written.

## Model

| member | source | states |
|---|---|---|
| Common.IndexOf | Source/CircleOfFifths.swift:323 | `index(of:)`: none exactly when the element is absent; otherwise a position holding it, with no earlier occurrence |
| Common.IndexOfDistinct | Source/CircleOfFifths.swift:323 | in a sequence without repeats, `index(of:)` finds each element at its own position |
| MusicTheory.Transpose | Source/CircleOfFifths.swift:309 | `note + interval` lands on the semitone (note + interval) mod 12 |
| MusicTheory.TransposeAdds | Source/CircleOfFifths.swift:316 | adding two intervals in turn is adding their sum |
| CircleTables.CircleModeRootInterval | Source/CircleOfFifths.swift:17-28 | the root interval of every mode is less than an octave |
| CircleTables.TransposeOnCircle | Source/CircleOfFifths.swift:32-47 | adding i semitones moves a note 7·i places round the circle; a perfect fifth moves it one place |
| CircleTables.CircleIndexIsFifths | Source/CircleOfFifths.swift:32-47 | circle index = 7 · semitone mod 12, and semitone = 7 · circle index mod 12 |
| CircleTables.CircleAtIndex | Source/CircleOfFifths.swift:168 | `circle[note.circleIndex]` is the note itself |
| CircleTables.IndexOfCircleAt | Source/CircleOfFifths.swift:168 | the note at position i of `circle` has circle index i |
| CircleTables.CircleIndexBijection | Source/CircleOfFifths.swift:32-47 | `circleIndex` is a bijection onto 0..11 and inverts the `circle` array |
| CircleTables.CircleIndexInjective | Source/CircleOfFifths.swift:32-47 | different notes have different circle indices |
| CircleTables.WedgeAngles | Source/CircleOfFifths.swift:50-116 | every wedge is 30 degrees wide and starts at -15 + 30·k: k is the circle index on iOS and its complement on macOS |
| CircleTables.WedgesTile | Source/CircleOfFifths.swift:50-116 | every angle in [-15, 345) lies in the wedge of exactly one note, on both platforms |
| CircleTables.StartAnglesAreGrid | Source/CircleOfFifths.swift:50-82 | the twelve start angles are exactly -15, 15, …, 315 |
| CircleTables.NeighboursShareBoundary | Source/CircleOfFifths.swift:84-116 | on iOS a wedge ends where the next note's begins (mod 360); on macOS the next note's wedge ends where this one begins |
| AppTables.MacAppTablesAgree | Mac/Mac/CircleOfFifths/CircleOfFifths.swift:45-77 | the macOS app's tables equal the framework's macOS tables: 30-degree wedges, counter-clockwise neighbours |
| AppTables.IOSAppTablesAgree | CircleOfFifths/CircleOfFifths/CircleOfFifths.swift:45-77 | the iOS app's tables equal the framework's iOS tables: 30-degree wedges, clockwise neighbours |
| KeyTables.KeyCircleIndex | Source/Extensions.swift:108-124 | every key, known or not, gets a circle index below 12 |
| KeyTables.KeyTablesAgreeWithNotes | Source/Extensions.swift:107-197 | both names of a note get the note's circle index, start angle -15 + 30·index and the note table's end angle; a sharp name gets the same index and angles as the flat name |
| KeyTables.KeyIndexCoversCircle | Source/Extensions.swift:108-124 | the recognised keys reach every circle position |
| KeyTables.UnrecognisedKeyFallback | Source/Extensions.swift:122 | an unknown name falls back to index 0 and angles 0 |
| KeyTables.IOSKeyWedges | Source/Extensions.swift:163-197 | on iOS every recognised key's wedge is 30 degrees wide and starts at -15 + 30·index; an unknown key gets the empty wedge 0..0 |
| KeyTables.OSXKeyWedges | Source/Extensions.swift:127-161 | on macOS start = -15 + 30·index, and end = start + 30 exactly for "c", "gb" and "f#" |
| KeyTables.OSXKeyGWedge | Source/Extensions.swift:130 | as written, macOS key "g" spans 15 to 345 degrees, which is 330 degrees |
| KeyTables.CorrectedOSXKeyWedges | Source/Extensions.swift:145-161 | with the counter-clockwise start table, every macOS key wedge is 30 degrees wide and agrees with the note tables for both names |
| RomanNumerals.Uppercased | Source/CircleOfFifths.swift:410 | `uppercased()` keeps the length and upper-cases each ASCII letter |
| RomanNumerals.RomanValueIgnoresCase | Source/CircleOfFifths.swift:410 | upper-casing does not change a numeral's value |
| RomanNumerals.NumeralValue | Source/CircleOfFifths.swift:397-407 | the numerals of indexes 0..7 are non-empty lower-case words that read back as index + 1, in either case |
| Harmony.ChordNotesOf | Source/CircleOfFifths.swift:309-318 | the chord roots are exactly seven notes |
| Harmony.DetermineChordNotes | Source/CircleOfFifths.swift:309-318 | the loop yields seven notes: the first is key + root interval, each later one is a fifth above the one before, and together they are `ChordNotesOf(scale)` |
| Harmony.StackedFifthsClosedForm | Source/CircleOfFifths.swift:311-317 | in a stack of fifths, entry i is 7·i semitones above the first |
| Harmony.StackedFifthsWalkCircle | Source/CircleOfFifths.swift:316 | a stack of fifths walks the circle one wedge at a time |
| Harmony.FifthsOnCircle | Source/CircleOfFifths.swift:316 | going up i fifths moves i places round the circle |
| Harmony.ChordNotesContiguous | Source/CircleOfFifths.swift:309-318 | the roots start at key + root interval, are stacked fifths, occupy seven contiguous circle positions and are all different |
| Harmony.ChordNotesDistinct | Source/CircleOfFifths.swift:309-318 | no chord root repeats |
| Harmony.ChordNoteMembership | Source/CircleOfFifths.swift:323 | a note is a chord root iff it lies in the seven-wedge window from the first root; `index(of:)` then finds it at its offset |
| Harmony.EnabledCount | Source/CircleOfFifths.swift:321-342 | exactly seven circle positions hold a chord root and five do not, for every scale |
| Harmony.ChordPatternIsDiatonic | Source/CircleOfFifths.swift:169 | the fixed pattern major ×3, minor ×3, diminished is, for every scale, the quality of the triad the seven roots form on each root |
| Harmony.TonicAmongChordRoots | Source/CircleOfFifths.swift:17-28 | for the seven diatonic modes the key is a chord root, on a chord of the quality of that mode's tonic triad |
| Harmony.CMinorChordNotes | Source/CircleOfFifths.swift:140 | the default scale, C minor, has the roots A♭ E♭ B♭ F C G D |
| Harmony.RomanLabel | Source/CircleOfFifths.swift:393-414 | the label ends in a degree sign iff the chord is diminished; its numeral is upper case for major and lower case otherwise; it reads back as the one-based position for the first eight scale notes; a note outside the scale gets an empty numeral |
| Harmony.DecoratedNumeral | Source/CircleOfFifths.swift:397-413 | the same facts for the numeral of any index |
| Harmony.GroupLabelsOverTheirQuality | Source/CircleOfFifths.swift:345-353 | each label angle is the middle of the root's wedge turned by the platform's quarter turn |
| PieChart.FillColor | Source/PieChartLayer.swift:137 | the fill is always one of the slice's three colours |
| PieChart.FillRulesDifferOnlyWhenSelectedAndDisabled | Mac/Mac/CircleOfFifths/PieChartLayer.swift:108 | the two priority rules disagree exactly on a selected, disabled slice |
| PieChart.DefaultColoursFillWithColor | Source/PieChartLayer.swift:52-58 | a slice whose optional colours were omitted always fills with `color` |
| PieChart.RenderSlice | Source/PieChartLayer.swift:136-202 | the arc is as wide as the slice; the label angle is the arc's middle; the label sits inside the rim iff the threshold is positive; the text size is zero iff there is no string |
| PieChart.AnchorIsWedgeMiddle | Source/PieChartLayer.swift:167-168 | the label angle is the slice's midpoint plus the offset, and it turns with the slice |
| PieChart.ArcsShareBoundaries | Mac/Mac/CircleOfFifths/PieChartLayer.swift:114-122 | slices sharing a boundary give arcs sharing a boundary |
| PieChart.PieChartSlice.constructor | Mac/Mac/CircleOfFifths/PieChartLayer.swift:47-56 | omitted highlighted and disabled colours default to `color`; a new slice is enabled and not selected |
| PieChart.PieChartLayer.constructor | CircleOfFifths/CircleOfFifths/PieChartLayer.swift:43-49 | the layer keeps radius, centre and slices, has label distance 10, and pairs one fresh, undrawn layer with each slice |
| PieChart.PieChartLayer.Setup | Source/PieChartLayer.swift:114-126 | appends exactly one layer per slice, in slice order, and keeps the earlier entries |
| PieChart.PieChartLayer.Draw | Source/PieChartLayer.swift:130-204 | sets the frame to a 2·radius square and redraws every layer from its slice's current state; it writes no slice and keeps the pairing |
| PieSlices.ChordColoursFollowTriads | Source/CircleOfFifths.swift:203-220 | for every scale, chord slice k gets the major, minor or diminished colour of the triad that the seven chord roots form on root k, the root `draw()` places in that slice |
| PieSlices.NewFlatSlices | Source/CircleOfFifths.swift:212-220 | one fresh, distinct, zero-width, enabled, unselected slice per colour |
| PieSlices.NewCircleSlices | Source/CircleOfFifths.swift:222-238 | one fresh, distinct slice per note of the circle, on the note's wedge, with the note's name |
| PieSlices.MarkRoot | Source/CircleOfFifths.swift:324-338 | the circle slice is enabled; the chord slice and the interval slice (if any) take the note's wedge; the interval slice takes the numeral |
| PieSlices.MarkMissing | Source/CircleOfFifths.swift:339-341 | one turn for a note that is no root: the loop invariant advances by one position |
| PieSlices.MarkFound | Source/CircleOfFifths.swift:322-338 | one turn for a root: the loop invariant advances by one position |
| PieSlices.MarkChordSlices | Source/CircleOfFifths.swift:321-342 | afterwards circle slice i is enabled iff its note is a root; chord slice k (and interval slice k) has root k's wedge (and numeral); nothing else changes |
| CircleView.ViewRadius | Source/CircleOfFifths.swift:295 | the radius is never negative and is half the shorter side, or 0 |
| CircleView.NewFlatPie | Source/CircleOfFifths.swift:241-249 | a fresh pie of radius 0 at the centre, with one fresh zero-width slice per colour |
| CircleView.NewCirclePie | Source/CircleOfFifths.swift:222-238 | a fresh pie of radius 0 at the centre, with the twelve note slices on their wedges |
| CircleView.NewFrameworkPies | Source/CircleOfFifths.swift:201-249 | three fresh pies with 7, 12 and 7 slices, none shared and none selected, with the creation states of `setup()` |
| CircleView.SizePies | Source/CircleOfFifths.swift:294-306 | radii (the inner ones clamped at 0), centres and label distances as `draw()` sets them |
| CircleView.MarkingKeepsSelection | Source/CircleOfFifths.swift:321-342 | marking the roots selects nothing and deselects nothing |
| CircleView.AtMostOneSelected | Source/CircleOfFifths.swift:191-198 | while the selection is recorded, at most one circle wedge is selected |
| CircleView.DrawnWedgesEnabled | Source/CircleOfFifths.swift:321-342 | after marking, the enabled wedges are exactly the positions of the roots: seven of them |
| CircleView.CircleOfFifths.constructor | Source/CircleOfFifths.swift:140-166 | the inspectable defaults: C minor, white / red / light gray, red / blue / green, thresholds 10, 5, 15, no pies |
| CircleView.CircleOfFifths.Setup | Source/CircleOfFifths.swift:201-274 | three fresh pies at the centre with radius 0, in their creation states, plus three blank group labels |
| CircleView.CircleOfFifths.Draw | Source/CircleOfFifths.swift:276-391 | builds the pies if missing; then the layout and group labels are those of `LaidOut`, the slices are marked for the scale's roots, and the selection stays recorded |
| CircleView.CircleOfFifths.Redraw | Source/CircleOfFifths.swift:281-391 | with the pies present: laid out for the frame, and the slices marked from their previous states |
| CircleView.CircleOfFifths.Layout | Source/CircleOfFifths.swift:294-383 | sizing and group labels as `LaidOut` states; no slice changes |
| CircleView.CircleOfFifths.Resize | Source/CircleOfFifths.swift:294-306 | radii, centres and label distances for the frame; no slice changes |
| CircleView.CircleOfFifths.PlaceGroupLabels | Source/CircleOfFifths.swift:345-383 | "Major", "Minor" and "Dim" over roots 1, 4 and 6, inset by their thresholds |
| CircleView.CircleOfFifths.MarkChordRoots | Source/CircleOfFifths.swift:320-342 | the marking loop on the view's pies; it changes no pie and no layout, and keeps the selection recorded |
| CircleView.CircleOfFifths.SelectNote | Source/CircleOfFifths.swift:191-199 | every circle wedge is deselected except the note's, which is selected, recorded and redrawn; without a note (or pie) nothing is selected; nothing else in the slices changes; of the circle pie only its layers and frame are written, so its radius, centre and label distance stay |
| CircleView.CircleOfFifths.ClearSelection | Source/CircleOfFifths.swift:192 | afterwards no circle wedge is selected; the rest of each slice is unchanged |
| CircleView.CircleOfFifths.SelectWedge | Source/CircleOfFifths.swift:193-198 | wedge `index` alone is selected, recorded, and the circle pie is redrawn; of the pie only its layers and frame are written |
| AppView.SizeAppPies | Mac/Mac/CircleOfFifths/CircleOfFifths.swift:182-189 | the chord pie fills the frame, the circle pie is inset and clamped at 0, both are centred, and the circle pie gets its label distance |
| AppView.AppCircleOfFifths.constructor | Mac/Mac/CircleOfFifths/CircleOfFifths.swift:93-113 | the app defaults and no pies |
| AppView.AppCircleOfFifths.Setup | Mac/Mac/CircleOfFifths/CircleOfFifths.swift:124-170 | two fresh pies at the centre with radius 0: chord slices in their quality colours, circle slices from the framework's table, which `AppTables.MacAppTablesAgree` and `AppTables.IOSAppTablesAgree` prove equal to the app's own |
| AppView.AppCircleOfFifths.Redraw | Mac/Mac/CircleOfFifths/CircleOfFifths.swift:172-213 | changes nothing without pies; otherwise sizes the pies and marks the roots on the chord and circle slices |
| AppView.AppCircleOfFifths.Refresh | CircleOfFifths/CircleOfFifths/CircleOfFifths.swift:171-206 | sizing and marking with both pies present |
| AppView.AppCircleOfFifths.Render | CircleOfFifths/CircleOfFifths/CircleOfFifths.swift:110-117 | builds the pies if missing, then lays them out and marks the roots |

## Left out

- Drawing output:
  - Stroke colours and line widths are not modelled.
  - Fonts and text colours are not modelled. An attributed string is its plain text.
  - Text is measured by the platform, so the measured size is a tag (`TextSize.Measured`).
- Radians, `cos` and `sin`: the label position is kept in polar form (angle in degrees, distance).
- `ArcTextLayer` drawing: a group label is the text, angle and radius that `draw()` sets on it. Its `frame = bounds` assignment is not modelled.
- Window geometry: the frame size and the bounds centre are parameters of `draw()`. `scale.noteTypes` is a parameter of the framework's `draw()`.
- The layer tree is not modelled: `addSublayer`, `removeFromSuperlayer`, `wantsLayer`, `setNeedsDisplay`. On macOS `setup()` returns early when the view has no backing layer; the model always has one.
- The `didSet { draw() }` observers on the inspectable properties are not modelled as separate operations. Each one amounts to a call of `Draw` (or `Redraw` for the apps) after the field changes.
- The framework's `draw(_:)` override only calls `draw()`, which is `CircleView.CircleOfFifths.Draw`.
- `CircleView.CircleOfFifths.Redraw` lays out and places the group labels before marking the slices; the source marks first. The two parts touch disjoint state (pie sizes and labels against slice fields), so the final state is the same.
- `MusicTheory.NoteDescription`: a circle slice shows a note as its case name ("dFlat", "eFlat", …). The MusicTheorySwift library's own `description` of a note is not part of this model. No proved property depends on the exact strings.
- `PieChartLayer.slices` is fixed at construction. No modelled code assigns it later.
- `init?(coder:)` and `init(layer:)` of `PieChartLayer` are not modelled. They build a layer from an archive or a copy, which the views never do.

## Findings

| source | as written | input that shows it | evidently intended | confidence | as-written member | corrected member |
|---|---|---|---|---|---|---|
| Source/Extensions.swift:127-143 | the macOS `Key.circleStartAngle` table runs clockwise from c, while the macOS `circleEndAngle` table runs counter-clockwise | key "g": start 15, end 345, a 330-degree wedge; only "c", "gb" and "f#" get 30-degree wedges | the start table counter-clockwise from c, like the macOS note table: "f" 15, "bb" 45, …, "g" 315 | not executed; the two tables visibly disagree | KeyTables.OSXKeyGWedge | KeyTables.CorrectedOSXKeyWedges |
