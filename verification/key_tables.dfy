/** The circle tables keyed by note-name strings (`Key.circleIndex`,
    `Key.circleStartAngle`, `Key.circleEndAngle`): lower-case names, flats and
    sharps as enharmonic aliases, and 0 for every name the tables do not know. */
module KeyTables {
  import opened Common
  import opened MusicTheory
  import opened Graphics
  import opened CircleTables

  /** A note name such as "c", "f#" or "bb". */
  type Key = string

  /** The seventeen names the tables recognise. */
  const RecognisedKeys: set<Key> :=
    {"c", "g", "d", "a", "e", "b", "gb", "f#", "db", "c#", "ab", "g#", "eb", "d#", "bb", "a#", "f"}

  /** The flat (or natural) name of a note. */
  function KeyName(n: NoteType): (k: Key)
    ensures k in RecognisedKeys
  {
    match n
    case C => "c"
    case DFlat => "db"
    case D => "d"
    case EFlat => "eb"
    case E => "e"
    case F => "f"
    case GFlat => "gb"
    case G => "g"
    case AFlat => "ab"
    case A => "a"
    case BFlat => "bb"
    case B => "b"
  }

  /** The sharp name of a black-key note. */
  function SharpName(n: NoteType): (k: Option<Key>)
    ensures k.Some? ==> k.value in RecognisedKeys
  {
    match n
    case DFlat => Some("c#")
    case EFlat => Some("d#")
    case GFlat => Some("f#")
    case AFlat => Some("g#")
    case BFlat => Some("a#")
    case _ => None
  }

  /** `Key.circleIndex`. */
  function KeyCircleIndex(k: Key): (r: nat)
    ensures r < 12
  {
    match k
    case "c" => 0
    case "g" => 1
    case "d" => 2
    case "a" => 3
    case "e" => 4
    case "b" => 5
    case "gb" | "f#" => 6
    case "db" | "c#" => 7
    case "ab" | "g#" => 8
    case "eb" | "d#" => 9
    case "bb" | "a#" => 10
    case "f" => 11
    case _ => 0
  }

  /** `Key.circleStartAngle`. The macOS table is the same as the iOS one: both run
      clockwise from c. */
  function KeyCircleStartAngle(p: Platform, k: Key): int
  {
    match k
    case "c" => -15
    case "g" => 15
    case "d" => 45
    case "a" => 75
    case "e" => 105
    case "b" => 135
    case "gb" | "f#" => 165
    case "db" | "c#" => 195
    case "ab" | "g#" => 225
    case "eb" | "d#" => 255
    case "bb" | "a#" => 285
    case "f" => 315
    case _ => 0
  }

  /** `Key.circleEndAngle`. The macOS table runs counter-clockwise from c, the iOS
      table clockwise. */
  function KeyCircleEndAngle(p: Platform, k: Key): int
  {
    match p
    case OSX =>
      (match k
       case "c" => 15
       case "f" => 45
       case "bb" | "a#" => 75
       case "eb" | "d#" => 105
       case "ab" | "g#" => 135
       case "db" | "c#" => 165
       case "gb" | "f#" => 195
       case "b" => 225
       case "e" => 255
       case "a" => 285
       case "d" => 315
       case "g" => 345
       case _ => 0)
    case IOS =>
      (match k
       case "c" => 15
       case "g" => 45
       case "d" => 75
       case "a" => 105
       case "e" => 135
       case "b" => 165
       case "gb" | "f#" => 195
       case "db" | "c#" => 225
       case "ab" | "g#" => 255
       case "eb" | "d#" => 285
       case "bb" | "a#" => 315
       case "f" => 345
       case _ => 0)
  }

  // ---------------------------------------------------------------------------
  // Agreement with the note tables

  /** Both names of a note get the note's circle index, and the start angle
      `-15 + 30 * index` on either platform; the end angles agree with the note tables
      of the same platform. */
  lemma KeyTablesAgreeWithNotes(p: Platform, n: NoteType)
    ensures KeyCircleIndex(KeyName(n)) == CircleIndex(n)
    ensures KeyCircleStartAngle(p, KeyName(n)) == -15 + 30 * CircleIndex(n)
    ensures KeyCircleEndAngle(p, KeyName(n)) == CircleEndAngle(p, n)
    ensures SharpName(n).Some? ==>
      && KeyCircleIndex(SharpName(n).value) == KeyCircleIndex(KeyName(n))
      && KeyCircleStartAngle(p, SharpName(n).value) == KeyCircleStartAngle(p, KeyName(n))
      && KeyCircleEndAngle(p, SharpName(n).value) == KeyCircleEndAngle(p, KeyName(n))
  {
    match n
    case C => case DFlat => case D => case EFlat => case E => case F =>
    case GFlat => case G => case AFlat => case A => case BFlat => case B =>
  }

  /** Every recognised key is the flat or the sharp name of some note. */
  lemma RecognisedKeysAreNoteNames(k: Key)
    requires k in RecognisedKeys
    ensures exists n: NoteType :: KeyName(n) == k || SharpName(n) == Some(k)
  {
    if k == "c" { assert KeyName(C) == k; }
    else if k == "g" { assert KeyName(G) == k; }
    else if k == "d" { assert KeyName(D) == k; }
    else if k == "a" { assert KeyName(A) == k; }
    else if k == "e" { assert KeyName(E) == k; }
    else if k == "b" { assert KeyName(B) == k; }
    else if k == "f" { assert KeyName(F) == k; }
    else if k == "gb" || k == "f#" { assert KeyName(GFlat) == k || SharpName(GFlat) == Some(k); }
    else if k == "db" || k == "c#" { assert KeyName(DFlat) == k || SharpName(DFlat) == Some(k); }
    else if k == "ab" || k == "g#" { assert KeyName(AFlat) == k || SharpName(AFlat) == Some(k); }
    else if k == "eb" || k == "d#" { assert KeyName(EFlat) == k || SharpName(EFlat) == Some(k); }
    else { assert KeyName(BFlat) == k || SharpName(BFlat) == Some(k); }
  }

  /** The recognised keys reach every circle position, and the key named after the
      note at position i has index i. */
  lemma KeyIndexCoversCircle(i: nat)
    requires i < 12
    ensures KeyName(Circle[i]) in RecognisedKeys
    ensures KeyCircleIndex(KeyName(Circle[i])) == i
  {
    IndexOfCircleAt(i);
    KeyTablesAgreeWithNotes(IOS, Circle[i]);
  }

  /** A name the tables do not know falls back to index 0 and angles 0. */
  lemma UnrecognisedKeyFallback(p: Platform, k: Key)
    requires k !in RecognisedKeys
    ensures KeyCircleIndex(k) == 0
    ensures KeyCircleStartAngle(p, k) == 0 && KeyCircleEndAngle(p, k) == 0
  {
  }

  // ---------------------------------------------------------------------------
  // Wedge widths

  /** On iOS every recognised key's wedge is 30 degrees wide and starts at
      `-15 + 30 * index`; an unrecognised key gets the empty wedge from 0 to 0. */
  lemma IOSKeyWedges(k: Key)
    ensures k in RecognisedKeys ==>
      && KeyCircleEndAngle(IOS, k) == KeyCircleStartAngle(IOS, k) + 30
      && KeyCircleStartAngle(IOS, k) == -15 + 30 * KeyCircleIndex(k)
    ensures k !in RecognisedKeys ==> KeyCircleStartAngle(IOS, k) == 0 == KeyCircleEndAngle(IOS, k)
  {
    if k in RecognisedKeys {
      RecognisedKeysAreNoteNames(k);
      var n: NoteType :| KeyName(n) == k || SharpName(n) == Some(k);
      KeyTablesAgreeWithNotes(IOS, n);
      WedgeAngles(IOS, n);
    }
  }

  /** On macOS the start table runs clockwise and the end table counter-clockwise, so
      a recognised key's wedge is 30 degrees wide only for c and for g-flat / f-sharp,
      the two keys where both directions meet. */
  lemma OSXKeyWedges(k: Key)
    requires k in RecognisedKeys
    ensures KeyCircleStartAngle(OSX, k) == -15 + 30 * KeyCircleIndex(k)
    ensures KeyCircleEndAngle(OSX, k) == KeyCircleStartAngle(OSX, k) + 30 <==> k in {"c", "gb", "f#"}
  {
    RecognisedKeysAreNoteNames(k);
    var n: NoteType :| KeyName(n) == k || SharpName(n) == Some(k);
    KeyTablesAgreeWithNotes(OSX, n);
    WedgeAngles(OSX, n);
    CircleAtIndex(n);
    if KeyCircleEndAngle(OSX, k) == KeyCircleStartAngle(OSX, k) + 30 {
      // -15 + 30 * ((12 - c) % 12) == -15 + 30 * c holds only for c = 0 and c = 6
      assert CircleIndex(n) == 0 || CircleIndex(n) == 6;
      assert n == C || n == GFlat;
    }
  }

  /** The counter-example: on macOS the key "g" gets the wedge from 15 to 345 degrees. */
  lemma OSXKeyGWedge()
    ensures KeyCircleStartAngle(OSX, "g") == 15 && KeyCircleEndAngle(OSX, "g") == 345
    ensures KeyCircleEndAngle(OSX, "g") - KeyCircleStartAngle(OSX, "g") == 330
  {
  }

  /** The macOS start table as the end table and the note tables imply it:
      counter-clockwise from c. */
  function CorrectedOSXKeyStartAngle(k: Key): int
  {
    match k
    case "c" => -15
    case "f" => 15
    case "bb" | "a#" => 45
    case "eb" | "d#" => 75
    case "ab" | "g#" => 105
    case "db" | "c#" => 135
    case "gb" | "f#" => 165
    case "b" => 195
    case "e" => 225
    case "a" => 255
    case "d" => 285
    case "g" => 315
    case _ => 0
  }

  /** With the corrected start table every macOS key wedge is 30 degrees wide, agrees
      with the note table for both names of the note, and falls back to 0 like the rest. */
  lemma CorrectedOSXKeyWedges(n: NoteType, k: Key)
    ensures CorrectedOSXKeyStartAngle(KeyName(n)) == CircleStartAngle(OSX, n)
    ensures SharpName(n).Some? ==>
      CorrectedOSXKeyStartAngle(SharpName(n).value) == CircleStartAngle(OSX, n)
    ensures k in RecognisedKeys ==>
      KeyCircleEndAngle(OSX, k) == CorrectedOSXKeyStartAngle(k) + 30
    ensures k !in RecognisedKeys ==> CorrectedOSXKeyStartAngle(k) == 0
  {
    match n
    case C => case DFlat => case D => case EFlat => case E => case F =>
    case GFlat => case G => case AFlat => case A => case BFlat => case B =>
  }
}
