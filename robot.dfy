/**
 * The toy robot (codeChallenge/Objects.h, codeChallenge/Objects.cpp): a
 * robot on a 5x5 table top that interprets text commands one line at a time.
 *
 * The first half gives the robot's behaviour on an abstract state
 * (placed flag, position, heading); the second half is the robot itself, a
 * class whose methods update a transform byte and a placed flag in place and
 * are proved against that abstract behaviour.
 */
module Robot {
  import opened Wrappers
  import opened Types
  import opened Text

  /** The largest coordinate on each axis of the table top. */
  const TABLE_TOP_X: nat := 4
  const TABLE_TOP_Y: nat := 4

  // ---------------------------------------------------------------------
  // Input validation (InputHandler)
  // ---------------------------------------------------------------------

  /**
   * validateAxisX: unsigned, so only the upper bound can fail. A value it
   * accepts fits the transform's 3-bit coordinate field.
   */
  predicate ValidateAxisX(x: nat)
    ensures ValidateAxisX(x) ==> x < 8
  {
    x <= TABLE_TOP_X
  }

  /**
   * validateAxisY: compares against the X extent, which accepts exactly the
   * values the Y extent would, since both are 4.
   */
  predicate ValidateAxisY(y: nat)
    ensures ValidateAxisY(y) <==> y <= TABLE_TOP_Y
    ensures ValidateAxisY(y) ==> y < 8
  {
    y <= TABLE_TOP_X
  }

  /** validateRotation: accepts exactly the four compass headings. */
  predicate ValidateRotation(h: Heading)
    ensures ValidateRotation(h) <==> h in Compass
  {
    h != Undefined
  }

  predicate OnTable(p: Position) { p.x <= TABLE_TOP_X && p.y <= TABLE_TOP_Y }

  // ---------------------------------------------------------------------
  // Abstract robot state and the effect of each command on it
  // ---------------------------------------------------------------------

  datatype RobotState = RobotState(placed: bool, pos: Position, heading: Heading)

  /** A new robot: not placed, with a transform whose bits are all set. */
  const Initial := RobotState(false, Position(7, 7), West)

  /**
   * What the robot keeps true: the heading read from two bits is a compass
   * heading, and a placed robot is on the table.
   */
  ghost predicate Invariant(s: RobotState)
  {
    s.heading != Undefined && (s.placed ==> OnTable(s.pos))
  }

  /** placeHere: all or nothing. */
  function AfterPlace(s: RobotState, x: nat, y: nat, h: Heading): RobotState
  {
    if ValidateAxisX(x) && ValidateAxisY(y) && ValidateRotation(h)
    then RobotState(true, Position(x, y), h)
    else s
  }

  /** One step in a compass direction on an unbounded grid. */
  function Delta(h: Heading): (int, int)
  {
    match h
    case North => (0, 1)
    case East => (1, 0)
    case South => (0, -1)
    case West => (-1, 0)
    case Undefined => (0, 0)
  }

  /** move: one cell in the heading's direction when the target is on the table. */
  function AfterMove(s: RobotState): RobotState
  {
    if !s.placed then s
    else
      var nx, ny := s.pos.x + Delta(s.heading).0, s.pos.y + Delta(s.heading).1;
      if 0 <= nx <= TABLE_TOP_X && 0 <= ny <= TABLE_TOP_Y
      then s.(pos := Position(nx, ny))
      else s
  }

  /** The compass headings in clockwise order. */
  const Compass: seq<Heading> := [North, East, South, West]

  /** A quarter turn clockwise, by index arithmetic modulo 4 on the compass. */
  function TurnRight(h: Heading): Heading
  {
    if h == Undefined then h else Compass[(Code(h) + 1) % 4]
  }

  /** A quarter turn anticlockwise, by index arithmetic modulo 4 on the compass. */
  function TurnLeft(h: Heading): Heading
  {
    if h == Undefined then h else Compass[(Code(h) + 3) % 4]
  }

  /** The robot's move as the source computes it: the stepped 3-bit coordinate, checked against 4. */
  lemma {:induction false} MoveByWrappedStep(s: RobotState)
    requires Invariant(s) && s.placed
    ensures s.heading == North ==>
      AfterMove(s) == if ValidateAxisX(Inc3(s.pos.y)) then s.(pos := s.pos.(y := Inc3(s.pos.y))) else s
    ensures s.heading == South ==>
      AfterMove(s) == if ValidateAxisX(Dec3(s.pos.y)) then s.(pos := s.pos.(y := Dec3(s.pos.y))) else s
    ensures s.heading == East ==>
      AfterMove(s) == if ValidateAxisX(Inc3(s.pos.x)) then s.(pos := s.pos.(x := Inc3(s.pos.x))) else s
    ensures s.heading == West ==>
      AfterMove(s) == if ValidateAxisX(Dec3(s.pos.x)) then s.(pos := s.pos.(x := Dec3(s.pos.x))) else s
  {
  }

  /** rotateRight / rotateLeft: a quarter turn once the robot is placed. */
  function AfterRotate(s: RobotState, clockwise: bool): RobotState
  {
    if !s.placed then s
    else s.(heading := if clockwise then TurnRight(s.heading) else TurnLeft(s.heading))
  }

  /** getReport: decimal x, a comma, decimal y, a comma, the heading's name. */
  function ReportOf(pos: Position, h: Heading): string
  {
    ToString(pos.x) + "," + ToString(pos.y) + "," + HeadingName(h)
  }

  // ---------------------------------------------------------------------
  // The PLACE payload
  // ---------------------------------------------------------------------

  /**
   * What the PLACE handler makes of its payload: a field that is not a
   * number stops it; a payload that ends before the heading field leaves
   * the heading unset; otherwise it has x, y and a heading.
   */
  datatype PlaceParse = NotNumber | Truncated | Fields(x: nat, y: nat, heading: Heading)

  /** The text before the first comma (all of it when there is none). */
  function Token(s: string): string
  {
    Substr(s, Find(s, ','))
  }

  /**
   * The text after the first comma. With no comma, find answers npos and
   * npos + 1 wraps to 0, so nothing is erased and the same text is read again.
   */
  function Rest(s: string): string
  {
    Erase(s, SizeAdd(Find(s, ','), 1))
  }

  /** The payload read as three comma-separated fields x, y and heading. */
  function ParsePayload(p: string): PlaceParse
  {
    if p == [] then Truncated
    else if !AllDigits(Token(p)) then NotNumber
    else if Rest(p) == [] then Truncated
    else if !AllDigits(Token(Rest(p))) then NotNumber
    else if Rest(Rest(p)) == [] then Truncated
    else Fields(Atoi(Token(p)), Atoi(Token(Rest(p))), GetHeadingEnum(Token(Rest(Rest(p)))))
  }

  /** The payload is what follows the first six characters, "PLACE ". */
  function PlaceCommand(line: StdString): PlaceParse
  {
    ParsePayload(Erase(line, 6))
  }

  /** The PLACE handler: parse, validate, place. */
  function AfterPlaceLine(s: RobotState, line: StdString): RobotState
  {
    match PlaceCommand(line)
    case Fields(x, y, h) => AfterPlace(s, x, y, h)
    case _ => s
  }

  // ---------------------------------------------------------------------
  // Dispatch
  // ---------------------------------------------------------------------

  /** The action keyword: the line up to its first space, or all of it. */
  function Keyword(line: StdString): (k: string)
    ensures k <= line && ' ' !in k
    ensures |k| < |line| ==> line[|k|] == ' '
  {
    Substr(line, Find(line, ' '))
  }

  /** The result of one input line: the new state and what REPORT prints, if anything. */
  datatype Outcome = Outcome(state: RobotState, output: Option<string>)

  /** proccessInput: look the keyword up and run that action's handler on the whole line. */
  function Interpret(s: RobotState, line: StdString): Outcome
  {
    match ActionOf(Keyword(line))
    case None => Outcome(s, None)
    case Some(Place) => Outcome(AfterPlaceLine(s, line), None)
    case Some(Move) => Outcome(AfterMove(s), None)
    case Some(Left) => Outcome(AfterRotate(s, false), None)
    case Some(Right) => Outcome(AfterRotate(s, true), None)
    case Some(Report) => Outcome(s, if s.placed then Some(ReportOf(s.pos, s.heading)) else None)
  }

  /** The state after a sequence of lines, and everything REPORT printed on the way. */
  datatype Trace = Trace(state: RobotState, outputs: seq<string>)

  function Run(s: RobotState, lines: seq<StdString>): Trace
    decreases |lines|
  {
    if lines == [] then Trace(s, [])
    else
      var o := Interpret(s, lines[0]);
      var t := Run(o.state, lines[1..]);
      Trace(t.state, (if o.output.Some? then [o.output.value] else []) + t.outputs)
  }

  // ---------------------------------------------------------------------
  // The PLACE handler's loop
  // ---------------------------------------------------------------------

  /**
   * The field-splitting loop of the PLACE handler. It walks the payload with
   * a field counter; field 2 clears the input, so the "too many tokens"
   * branch is never taken and any text after the heading field is dropped.
   */
  method ParsePlace(line: StdString) returns (r: PlaceParse, tooManyTokens: bool)
    ensures r == PlaceCommand(line)
    ensures !tooManyTokens
  {
    var input := Erase(line, 6);
    ghost var payload := input;
    var pos: nat := 0;
    var loopCounter: nat := 0;
    var x: nat, y: nat := 0, 0;
    // None while the heading variable is still uninitialised
    var heading: Option<Heading> := None;
    tooManyTokens := false;
    while |input| > 0
      invariant loopCounter <= 3
      invariant loopCounter == 0 ==> input == payload && heading == None
      invariant loopCounter >= 1 ==> payload != [] && AllDigits(Token(payload)) && x == Atoi(Token(payload))
      invariant loopCounter == 1 ==> input == Rest(payload) && heading == None
      invariant loopCounter >= 2 ==> Rest(payload) != [] && AllDigits(Token(Rest(payload)))
                                     && y == Atoi(Token(Rest(payload)))
      invariant loopCounter == 2 ==> input == Rest(Rest(payload)) && heading == None
      invariant loopCounter == 3 ==> input == [] && Rest(Rest(payload)) != []
                                     && heading == Some(GetHeadingEnum(Token(Rest(Rest(payload)))))
      invariant !tooManyTokens
      decreases 3 - loopCounter
    {
      pos := Find(input, ',');
      var token := Substr(input, pos);
      match loopCounter {
      case 0 =>
        var isNumber := IsNumber(token);
        if !isNumber {
          return NotNumber, tooManyTokens;
        }
        x := Atoi(token);
      case 1 =>
        var isNumber := IsNumber(token);
        if !isNumber {
          return NotNumber, tooManyTokens;
        }
        y := Atoi(token);
      case 2 =>
        heading := Some(GetHeadingEnum(token));
        input := [];
      case _ =>
        pos := NPOS;
        tooManyTokens := true;
      }
      input := Erase(input, SizeAdd(pos, 1));
      loopCounter := loopCounter + 1;
    }
    r := if heading.Some? then Fields(x, y, heading.value) else Truncated;
  }

  // ---------------------------------------------------------------------
  // ToyRobot
  // ---------------------------------------------------------------------

  /**
   * The robot: a transform byte it owns and a flag saying whether it has
   * been placed. Every command goes through ProcessInput.
   */
  class ToyRobot {
    const transform: Transform
    var placed: bool

    /** The robot's state as position, heading and placed flag. */
    function State(): RobotState
      reads this, transform
    {
      RobotState(placed, PositionOf(transform.data), RotationOf(transform.data))
    }

    ghost predicate Valid()
      reads this, transform
    {
      Invariant(State())
    }

    constructor ()
      ensures fresh(transform)
      ensures Valid() && State() == Initial
    {
      transform := new Transform();
      placed := false;
      FreshTransform();
    }

    /** getPosition: the position bits of the transform, on the table once placed. */
    function GetPosition(): (p: Position)
      reads this, transform
      requires Valid()
      ensures placed ==> OnTable(p)
    {
      PositionOf(transform.data)
    }

    /** getRotation: the heading bits of the transform, never UNDEFINED. */
    function GetRotation(): (h: Heading)
      reads transform
      ensures h != Undefined
    {
      RotationOf(transform.data)
    }

    /**
     * placeHere: when both coordinates are on the table and the heading is
     * a compass heading, set the placed flag, the heading and the position;
     * otherwise write nothing.
     */
    method PlaceHere(x: nat, y: nat, h: Heading)
      requires x < 256 && y < 256
      requires Valid()
      modifies this, transform
      ensures Valid()
      ensures State() == AfterPlace(old(State()), x, y, h)
      ensures !(ValidateAxisX(x) && ValidateAxisY(y) && ValidateRotation(h)) ==>
                placed == old(placed) && transform.data == old(transform.data)
    {
      if ValidateAxisX(x) && ValidateAxisY(y) && ValidateRotation(h) {
        placed := true;
        transform.SetRotation(h);
        var position := Position(x, y);
        transform.SetPosition(position);
      }
    }

    /**
     * move: step the 3-bit coordinate the heading points along, with
     * wrap-around (0 - 1 is 7), and keep the step only when the new value
     * passes the bound check.
     */
    method Move()
      requires Valid()
      modifies transform
      ensures Valid()
      ensures State() == AfterMove(old(State()))
    {
      if !placed {
        return;
      }
      MoveByWrappedStep(State());
      var currentPos := GetPosition();
      // the coordinate the heading steps; the source checks it with validateAxisX on every branch
      var stepped: Coord;
      match GetRotation() {
        case North =>
          currentPos := currentPos.(y := Inc3(currentPos.y));
          stepped := currentPos.y;
        case South =>
          currentPos := currentPos.(y := Dec3(currentPos.y));
          stepped := currentPos.y;
        case East =>
          currentPos := currentPos.(x := Inc3(currentPos.x));
          stepped := currentPos.x;
        case West =>
          currentPos := currentPos.(x := Dec3(currentPos.x));
          stepped := currentPos.x;
        case Undefined =>
          return;
      }
      if ValidateAxisX(stepped) {
        transform.SetPosition(currentPos);
      }
    }

    /**
     * _rotate: find the heading in the heading name table and step the
     * iterator. Clockwise, stepping onto UNDEFINED (the last entry) goes back
     * to the first. Anticlockwise from the first entry goes to the last,
     * which is UNDEFINED and is stored as WEST by the 2-bit truncation.
     */
    method Rotate(clockWise: bool)
      requires Valid()
      modifies transform
      ensures Valid()
      ensures State() == AfterRotate(old(State()), clockWise)
    {
      if !placed {
        return;
      }
      var direction := GetRotation();
      var itr := HeadingIndex(direction);
      if itr != |HeadingOrder| {
        if clockWise {
          itr := itr + 1;
          if HeadingOrder[itr] == Undefined {
            itr := 0;
          }
        } else {
          if itr == 0 {
            itr := |HeadingOrder|;
            itr := itr - 1;
          } else {
            itr := itr - 1;
          }
        }
        transform.SetRotation(HeadingOrder[itr]);
      }
    }

    method RotateLeft()
      requires Valid()
      modifies transform
      ensures Valid()
      ensures State() == AfterRotate(old(State()), false)
    {
      Rotate(false);
    }

    method RotateRight()
      requires Valid()
      modifies transform
      ensures Valid()
      ensures State() == AfterRotate(old(State()), true)
    {
      Rotate(true);
    }

    /** getReport: build the report string piece by piece. */
    method GetReport() returns (result: string)
      ensures result == ReportOf(State().pos, State().heading)
    {
      var position := PositionOf(transform.data);
      var rotationStr := HeadingName(GetRotation());
      result := "";
      result := result + ToString(position.x) + ",";
      result := result + ToString(position.y) + ",";
      result := result + rotationStr;
    }

    /** The PLACE handler: split the payload, check every field, then place. */
    method PlaceAction(line: StdString)
      requires Valid()
      modifies this, transform
      ensures Valid()
      ensures State() == AfterPlaceLine(old(State()), line)
    {
      var parsed, tooManyTokens := ParsePlace(line);
      // A payload that ends before its heading field leaves the source's heading
      // uninitialised; it is rejected here.
      if parsed.Fields? {
        var hasPassed := ValidateAxisX(parsed.x) && ValidateAxisY(parsed.y) && ValidateRotation(parsed.heading);
        if hasPassed && !tooManyTokens {
          PlaceHere(parsed.x, parsed.y, parsed.heading);
        }
      }
    }

    /**
     * proccessInput: take the keyword before the first space, look it up
     * and hand the whole line to that action's handler. The handlers for
     * MOVE, LEFT, RIGHT and REPORT do nothing until the robot is placed;
     * REPORT returns what the source prints.
     */
    method ProcessInput(line: StdString) returns (output: Option<string>)
      requires Valid()
      modifies this, transform
      ensures Valid()
      ensures State() == Interpret(old(State()), line).state
      ensures output == Interpret(old(State()), line).output
    {
      output := None;
      var actionStr := Substr(line, Find(line, ' '));
      var action := ActionOf(actionStr);
      if action.None? {
        return;
      }
      match action.value {
        case Place =>
          PlaceAction(line);
        case Move =>
          if !placed {
            return;
          }
          Move();
        case Left =>
          if !placed {
            return;
          }
          RotateLeft();
        case Right =>
          if !placed {
            return;
          }
          RotateRight();
        case Report =>
          if !placed {
            return;
          }
          var report := GetReport();
          output := Some(report);
      }
    }
  }

  // ---------------------------------------------------------------------
  // TableTop
  // ---------------------------------------------------------------------

  /** The table top: its extents, kept but never consulted, and the one robot it owns. */
  class TableTop {
    const axisX: nat
    const axisY: nat
    const player: ToyRobot

    constructor (x: nat, y: nat)
      ensures axisX == x && axisY == y
      ensures fresh(player) && fresh(player.transform)
      ensures player.Valid() && player.State() == Initial
    {
      axisX := x;
      axisY := y;
      player := new ToyRobot();
    }

    /** getPlayer: the robot is a constant of the table, so every call gives the same one. */
    function GetPlayer(): (r: ToyRobot)
      ensures r == player
    {
      player
    }
  }
}
