/** The angle tables the macOS and iOS apps carry in their own copies of the view,
    restated as written, and their agreement with the framework's tables for the
    same platform: the macOS app runs counter-clockwise, the iOS app clockwise. */
module AppTables {
  import opened MusicTheory
  import opened Graphics
  import opened CircleTables

  /** The macOS app's `circleStartAngle`. */
  function MacAppStartAngle(n: NoteType): int {
    match n
    case C => -15
    case F => 15
    case BFlat => 45
    case EFlat => 75
    case AFlat => 105
    case DFlat => 135
    case GFlat => 165
    case B => 195
    case E => 225
    case A => 255
    case D => 285
    case G => 315
  }

  /** The macOS app's `circleEndAngle`. */
  function MacAppEndAngle(n: NoteType): int {
    match n
    case C => 15
    case F => 45
    case BFlat => 75
    case EFlat => 105
    case AFlat => 135
    case DFlat => 165
    case GFlat => 195
    case B => 225
    case E => 255
    case A => 285
    case D => 315
    case G => 345
  }

  /** The iOS app's `circleStartAngle`. */
  function IOSAppStartAngle(n: NoteType): int {
    match n
    case C => -15
    case G => 15
    case D => 45
    case A => 75
    case E => 105
    case B => 135
    case GFlat => 165
    case DFlat => 195
    case AFlat => 225
    case EFlat => 255
    case BFlat => 285
    case F => 315
  }

  /** The iOS app's `circleEndAngle`. */
  function IOSAppEndAngle(n: NoteType): int {
    match n
    case C => 15
    case G => 45
    case D => 75
    case A => 105
    case E => 135
    case B => 165
    case GFlat => 195
    case DFlat => 225
    case AFlat => 255
    case EFlat => 285
    case BFlat => 315
    case F => 345
  }

  /** The macOS app's wedges are the framework's macOS wedges: 30 degrees wide, and
      counter-clockwise each next note's wedge ends where this note's begins. */
  lemma MacAppTablesAgree(n: NoteType, i: nat)
    requires i < 12
    ensures MacAppStartAngle(n) == CircleStartAngle(OSX, n)
    ensures MacAppEndAngle(n) == CircleEndAngle(OSX, n)
    ensures MacAppEndAngle(n) == MacAppStartAngle(n) + 30
    ensures MacAppEndAngle(Circle[(i + 1) % 12]) % 360 == MacAppStartAngle(Circle[i]) % 360
  {
    SameOSXTables(n);
    SameOSXTables(Circle[i]);
    SameOSXTables(Circle[(i + 1) % 12]);
    WedgeAngles(OSX, n);
    NeighboursShareBoundary(OSX, i);
  }

  /** The iOS app's wedges are the framework's iOS wedges: 30 degrees wide, and
      clockwise each note's wedge ends where the next note's begins. */
  lemma IOSAppTablesAgree(n: NoteType, i: nat)
    requires i < 12
    ensures IOSAppStartAngle(n) == CircleStartAngle(IOS, n)
    ensures IOSAppEndAngle(n) == CircleEndAngle(IOS, n)
    ensures IOSAppEndAngle(n) == IOSAppStartAngle(n) + 30
    ensures IOSAppEndAngle(Circle[i]) % 360 == IOSAppStartAngle(Circle[(i + 1) % 12]) % 360
  {
    SameIOSTables(n);
    SameIOSTables(Circle[i]);
    SameIOSTables(Circle[(i + 1) % 12]);
    WedgeAngles(IOS, n);
    NeighboursShareBoundary(IOS, i);
  }

  lemma SameOSXTables(n: NoteType)
    ensures MacAppStartAngle(n) == CircleStartAngle(OSX, n)
    ensures MacAppEndAngle(n) == CircleEndAngle(OSX, n)
  {
  }

  lemma SameIOSTables(n: NoteType)
    ensures IOSAppStartAngle(n) == CircleStartAngle(IOS, n)
    ensures IOSAppEndAngle(n) == CircleEndAngle(IOS, n)
  {
  }
}
