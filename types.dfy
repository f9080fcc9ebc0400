/**
 * The value types of the toy robot (codeChallenge/Types.h): the command
 * keywords, the compass headings with their names, and the transform that
 * packs a position and a heading into one byte.
 */
module Types {
  import opened Wrappers

  // ---------------------------------------------------------------------
  // ACTION and actionEnumMap
  // ---------------------------------------------------------------------

  /** The five commands a user can give. */
  datatype Action = Move | Left | Right | Place | Report

  /** The keyword that names each action in the action table. */
  function ActionName(a: Action): string
  {
    match a
    case Move => "MOVE"
    case Left => "LEFT"
    case Right => "RIGHT"
    case Place => "PLACE"
    case Report => "REPORT"
  }

  /**
   * Lookup of a keyword in the action table: an exact, case-sensitive match
   * against the five keywords, and nothing otherwise.
   */
  function ActionOf(keyword: string): (r: Option<Action>)
    ensures r.Some? <==> keyword in {"MOVE", "LEFT", "RIGHT", "PLACE", "REPORT"}
    ensures r.Some? ==> ActionName(r.value) == keyword
  {
    if keyword == "MOVE" then Some(Move)
    else if keyword == "LEFT" then Some(Left)
    else if keyword == "RIGHT" then Some(Right)
    else if keyword == "PLACE" then Some(Place)
    else if keyword == "REPORT" then Some(Report)
    else None
  }

  // ---------------------------------------------------------------------
  // HEADING, headingMap and getHeadingEnum
  // ---------------------------------------------------------------------

  /** The four compass headings and the sentinel for "no valid heading". */
  datatype Heading = North | East | South | West | Undefined

  /** The enumerator values: NORTH 0b00, EAST 0b01, SOUTH 0b10, WEST 0b11, UNDEFINED 0b111. */
  function Code(h: Heading): nat
  {
    match h
    case North => 0
    case East => 1
    case South => 2
    case West => 3
    case Undefined => 7
  }

  /** The keys of the heading name table in the order the table iterates them (by enum value). */
  const HeadingOrder: seq<Heading> := [North, East, South, West, Undefined]

  /** The heading name table. */
  function HeadingName(h: Heading): string
  {
    match h
    case North => "NORTH"
    case East => "EAST"
    case South => "SOUTH"
    case West => "WEST"
    case Undefined => "UNDEFINED"
  }

  /** Where a heading sits in the heading name table (the table's `find`). */
  function HeadingIndex(h: Heading): (i: nat)
    ensures i < |HeadingOrder| && HeadingOrder[i] == h
  {
    match h
    case North => 0
    case East => 1
    case South => 2
    case West => 3
    case Undefined => 4
  }

  /** The table lists every heading once, in increasing enum value, so UNDEFINED is last. */
  lemma HeadingOrderByCode()
    ensures forall i, j :: 0 <= i < j < |HeadingOrder| ==> Code(HeadingOrder[i]) < Code(HeadingOrder[j])
    ensures forall h: Heading :: h in HeadingOrder
    ensures HeadingOrder[|HeadingOrder| - 1] == Undefined
  {
    forall h: Heading ensures h in HeadingOrder {
      assert HeadingOrder[HeadingIndex(h)] == h;
    }
  }

  /**
   * Conversion of a heading name to a heading: an exact match against the
   * four compass names (and "UNDEFINED"); every other string is UNDEFINED.
   */
  function GetHeadingEnum(name: string): (h: Heading)
    ensures h != Undefined <==> name in {"NORTH", "EAST", "SOUTH", "WEST"}
    ensures h != Undefined ==> HeadingName(h) == name
  {
    if name == "NORTH" then North
    else if name == "EAST" then East
    else if name == "SOUTH" then South
    else if name == "WEST" then West
    else if name == "UNDEFINED" then Undefined
    else Undefined
  }

  /** Every heading's name converts back to that heading. */
  lemma HeadingNameRoundTrip(h: Heading)
    ensures GetHeadingEnum(HeadingName(h)) == h
  {
  }

  // ---------------------------------------------------------------------
  // T_Position and T_Transform<uint8_t>
  // ---------------------------------------------------------------------

  /** A position coordinate is a 3-bit unsigned bit-field: 0..7. */
  type Coord = n: nat | n < 8

  /** Increment of a 3-bit field: 7 wraps to 0. */
  function Inc3(n: Coord): Coord { (n + 1) % 8 }

  /** Decrement of a 3-bit field: 0 wraps to 7. */
  function Dec3(n: Coord): Coord { (n + 7) % 8 }

  datatype Position = Position(x: Coord, y: Coord)

  /** All bits set: the initial transform and the base of every mask. */
  const ALL_ONES: bv8 := !0

  /** Masks for an 8-bit transform: heading in the top two bits, then y, then x. */
  const ROTATION: bv8 := ALL_ONES << 6
  const AXIS_X: bv8 := ALL_ONES >> 5
  const AXIS_Y: bv8 := ALL_ONES ^ (AXIS_X | ROTATION)

  /** The masks are 0xC0, 0x38 and 0x07: pairwise disjoint and together covering the byte. */
  lemma MaskLayout()
    ensures ROTATION == 0xC0 && AXIS_Y == 0x38 && AXIS_X == 0x07
    ensures ROTATION & AXIS_Y == 0 && ROTATION & AXIS_X == 0 && AXIS_Y & AXIS_X == 0
    ensures ROTATION | AXIS_Y | AXIS_X == ALL_ONES
  {
  }

  /** getPosition: the x and y bit-fields of a transform byte. */
  function PositionOf(data: bv8): Position
  {
    Position((data & AXIS_X) as int, ((data & AXIS_Y) >> 3) as int)
  }

  /** The heading enumerator with a given 2-bit value. */
  function HeadingOfBits(b: bv8): (h: Heading)
    requires b < 4
    ensures Code(h) == b as int
  {
    if b == 0 then North else if b == 1 then East else if b == 2 then South else West
  }

  /**
   * getRotation: the top two bits of a transform byte, read as a heading.
   * Two bits can only hold 0..3, so the result is never UNDEFINED.
   */
  function RotationOf(data: bv8): (h: Heading)
    ensures h != Undefined
    ensures Code(h) as bv8 == data >> 6
  {
    HeadingOfBits((data & !(AXIS_Y | AXIS_X)) >> 6)
  }

  /**
   * setPosition on a byte: the new x and y fields replace the old ones and
   * the heading bits are kept.
   */
  function WithPosition(data: bv8, pos: Position): (r: bv8)
    ensures PositionOf(r) == pos
    ensures r & ROTATION == data & ROTATION
    ensures RotationOf(r) == RotationOf(data)
  {
    (data & ROTATION) | (AXIS_X & pos.x as bv8) | ((AXIS_X & pos.y as bv8) << 3)
  }

  /**
   * setRotation on a byte. The enum value is shifted into the top two bits
   * of an 8-bit value, so UNDEFINED (0b111) is truncated to 0b11 and is
   * stored as WEST. The position bits are kept.
   */
  function WithRotation(data: bv8, h: Heading): (r: bv8)
    ensures r & (AXIS_X | AXIS_Y) == data & (AXIS_X | AXIS_Y)
    ensures PositionOf(r) == PositionOf(data)
    ensures RotationOf(r) == if h == Undefined then West else h
  {
    (data & (AXIS_Y | AXIS_X)) | ((Code(h) as bv8) << 6)
  }

  /** The byte holds nothing but the position and the heading: equal fields mean equal bytes. */
  lemma TransformDeterminedByFields(a: bv8, b: bv8)
    requires PositionOf(a) == PositionOf(b) && RotationOf(a) == RotationOf(b)
    ensures a == b
  {
  }

  /** A fresh transform has every bit set, so it reads as position (7,7) facing WEST. */
  lemma FreshTransform()
    ensures PositionOf(ALL_ONES) == Position(7, 7)
    ensures RotationOf(ALL_ONES) == West
  {
  }

  /** T_Transform<uint8_t>: one byte holding the robot's position and heading, updated in place. */
  class Transform {
    var data: bv8

    constructor ()
      ensures data == ALL_ONES
    {
      data := ALL_ONES;
    }

    /** Clear the x and y bits, then set them from the position; the heading bits stay. */
    method SetPosition(pos: Position)
      modifies this
      ensures data == WithPosition(old(data), pos)
    {
      data := data & ROTATION;
      data := data | (AXIS_X & pos.x as bv8);
      data := data | ((AXIS_X & pos.y as bv8) << 3);
    }

    /** Clear the heading bits, then set them from the heading's enum value; the position bits stay. */
    method SetRotation(h: Heading)
      modifies this
      ensures data == WithRotation(old(data), h)
    {
      data := data & (AXIS_Y | AXIS_X);
      data := data | ((Code(h) as bv8) << 6);
    }
  }
}
