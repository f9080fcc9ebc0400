/**
 * Properties of the toy robot's command interpreter: how a PLACE payload is
 * read, what each command does to the state, what no command can undo, and
 * the command sequences the project's own tests walk through.
 */
module RobotProperties {
  import opened Wrappers
  import opened Types
  import opened Text
  import opened Robot

  // ---------------------------------------------------------------------
  // Reading the PLACE payload
  // ---------------------------------------------------------------------

  /** A field followed by a comma: the token is the field and the rest is what follows the comma. */
  lemma TokenBeforeComma(a: string, b: string)
    requires ',' !in a && |a| < NPOS
    ensures Token(a + "," + b) == a
    ensures Rest(a + "," + b) == b
  {
    FindAfterPrefix(a, ',', b);
  }

  /**
   * A last field with no comma: the token is all of it and, because
   * npos + 1 wraps to 0, the rest is the same field again.
   */
  lemma TokenWithoutComma(a: string)
    requires ',' !in a && |a| <= NPOS
    ensures Token(a) == a
    ensures Rest(a) == a
  {
  }

  /** The payload of a line that starts with "PLACE " is everything after those six characters. */
  lemma PayloadAfterKeyword(rest: string)
    ensures Erase("PLACE " + rest, 6) == rest
  {
  }

  /** How the three fields of a payload "a,b,c" are cut out of it. */
  lemma {:induction false} PayloadFields(a: string, b: string, c: string)
    requires ',' !in a && ',' !in b && ',' !in c
    requires |a| + |b| + |c| + 8 < NPOS
    ensures Erase("PLACE " + a + "," + b + "," + c, 6) == a + "," + (b + "," + c)
    ensures Token(a + "," + (b + "," + c)) == a
    ensures Rest(a + "," + (b + "," + c)) == b + "," + c
    ensures Token(b + "," + c) == b && Rest(b + "," + c) == c
    ensures Token(c) == c
  {
    var p := a + "," + (b + "," + c);
    assert "PLACE " + a + "," + b + "," + c == "PLACE " + p;
    PayloadAfterKeyword(p);
    TokenBeforeComma(a, b + "," + c);
    TokenBeforeComma(b, c);
    TokenWithoutComma(c);
  }

  /** Three comma-free fields give x, y and the converted heading. */
  lemma {:induction false} PlaceFieldsRead(a: string, b: string, c: string)
    requires ',' !in a && ',' !in b && ',' !in c && c != []
    requires AllDigits(a) && AllDigits(b)
    requires |a| + |b| + |c| + 8 < NPOS
    ensures PlaceCommand("PLACE " + a + "," + b + "," + c) == Fields(Atoi(a), Atoi(b), GetHeadingEnum(c))
  {
    PayloadFields(a, b, c);
  }

  /** placeHere on read fields: the robot moves exactly when both are at most 4 and the heading is a compass name. */
  lemma PlaceDecision(s: RobotState, x: nat, y: nat, c: string)
    ensures AfterPlace(s, x, y, GetHeadingEnum(c)) ==
      if x <= 4 && y <= 4 && c in {"NORTH", "EAST", "SOUTH", "WEST"}
      then RobotState(true, Position(x, y), GetHeadingEnum(c))
      else s
  {
  }

  /**
   * A PLACE line made of three comma-free fields moves the robot exactly
   * when x and y are digit strings whose values are at most 4 and the third
   * field is one of the four compass names; otherwise nothing changes.
   */
  lemma {:induction false} PlaceLineExactly(s: RobotState, a: string, b: string, c: string)
    requires ',' !in a && ',' !in b && ',' !in c
    requires |a| + |b| + |c| + 8 < NPOS
    ensures AfterPlaceLine(s, "PLACE " + a + "," + b + "," + c) ==
      if AllDigits(a) && AllDigits(b) && Atoi(a) <= 4 && Atoi(b) <= 4
         && c in {"NORTH", "EAST", "SOUTH", "WEST"}
      then RobotState(true, Position(Atoi(a), Atoi(b)), GetHeadingEnum(c))
      else s
  {
    var line: StdString := "PLACE " + a + "," + b + "," + c;
    var p := a + "," + (b + "," + c);
    assert PlaceCommand(line) == ParsePayload(p) by {
      PayloadFields(a, b, c);
    }
    if !AllDigits(a) || !AllDigits(b) {
      assert ParsePayload(p) == NotNumber by {
        PayloadFields(a, b, c);
      }
    } else if c == [] {
      assert ParsePayload(p) == Truncated by {
        PayloadFields(a, b, c);
      }
    } else {
      assert PlaceCommand(line) == Fields(Atoi(a), Atoi(b), GetHeadingEnum(c)) by {
        PlaceFieldsRead(a, b, c);
      }
      PlaceDecision(s, Atoi(a), Atoi(b), c);
    }
  }

  /** A payload "a,b,c,tail": the heading field ends at the third comma and the tail is never read. */
  lemma {:induction false} PayloadWithTail(a: string, b: string, c: string, tail: string)
    requires ',' !in a && ',' !in b && ',' !in c
    requires |a| + |b| + |c| + |tail| + 3 < NPOS
    ensures ParsePayload(a + "," + (b + "," + (c + "," + tail))) ==
      if AllDigits(a) && AllDigits(b) then Fields(Atoi(a), Atoi(b), GetHeadingEnum(c)) else NotNumber
  {
    TokenBeforeComma(a, b + "," + (c + "," + tail));
    TokenBeforeComma(b, c + "," + tail);
    TokenBeforeComma(c, tail);
  }

  /** Anything after a fourth comma is never read: the heading field clears the input. */
  lemma {:induction false} TrailingFieldsIgnored(s: RobotState, a: string, b: string, c: string, tail: string)
    requires ',' !in a && ',' !in b && ',' !in c
    requires |a| + |b| + |c| + |tail| + 9 < NPOS
    ensures AfterPlaceLine(s, "PLACE " + a + "," + b + "," + c + "," + tail)
         == AfterPlaceLine(s, "PLACE " + a + "," + b + "," + c)
  {
    var long: StdString := "PLACE " + a + "," + b + "," + c + "," + tail;
    var p := a + "," + (b + "," + (c + "," + tail));
    assert long == "PLACE " + p;
    PayloadAfterKeyword(p);
    PayloadWithTail(a, b, c, tail);
    PlaceLineExactly(s, a, b, c);
  }

  /** An empty coordinate passes the digit check and reads as 0. */
  lemma EmptyCoordinatesReadAsZero(s: RobotState)
    ensures AfterPlaceLine(s, "PLACE ,,NORTH") == RobotState(true, Position(0, 0), North)
  {
    assert "PLACE ,,NORTH" == "PLACE " + "" + "," + "" + "," + "NORTH";
    PlaceLineExactly(s, "", "", "NORTH");
    assert Atoi("") == 0;
  }

  /**
   * With only two fields, the second has no comma after it and is read
   * again as the heading; a digit string is no heading, so nothing is placed.
   */
  lemma {:induction false} MissingHeadingRereadsLastField(s: RobotState, a: string, b: string)
    requires ',' !in a && ',' !in b && b != []
    requires AllDigits(a) && AllDigits(b)
    requires |a| + |b| + 7 < NPOS
    ensures PlaceCommand("PLACE " + a + "," + b) == Fields(Atoi(a), Atoi(b), Undefined)
    ensures AfterPlaceLine(s, "PLACE " + a + "," + b) == s
  {
    var line: StdString := "PLACE " + a + "," + b;
    var p := a + "," + b;
    assert PlaceCommand(line) == ParsePayload(p) by {
      assert line == "PLACE " + p;
      PayloadAfterKeyword(p);
    }
    assert ParsePayload(p) == Fields(Atoi(a), Atoi(b), GetHeadingEnum(b)) by {
      TokenBeforeComma(a, b);
      TokenWithoutComma(b);
    }
    assert GetHeadingEnum(b) == Undefined by {
      assert '0' <= b[0] <= '9';
    }
  }

  /**
   * A payload that stops before its heading field leaves the heading unset
   * and the line is rejected: "PLACE", "PLACE 1," and "PLACE 1,2," alike.
   */
  lemma {:induction false} TruncatedPayloads(a: string, b: string)
    requires ',' !in a && ',' !in b && AllDigits(a) && AllDigits(b)
    requires |a| + |b| + 8 < NPOS
    ensures PlaceCommand("PLACE") == Truncated
    ensures PlaceCommand("PLACE " + a + ",") == Truncated
    ensures PlaceCommand("PLACE " + a + "," + b + ",") == Truncated
  {
    assert Erase("PLACE", 6) == [];
    var one: StdString := "PLACE " + a + ",";
    assert one == "PLACE " + (a + "," + "");
    PayloadAfterKeyword(a + "," + "");
    TokenBeforeComma(a, "");
    var two: StdString := "PLACE " + a + "," + b + ",";
    assert two == "PLACE " + (a + "," + (b + "," + ""));
    PayloadAfterKeyword(a + "," + (b + "," + ""));
    TokenBeforeComma(a, b + "," + "");
    TokenBeforeComma(b, "");
  }

  // ---------------------------------------------------------------------
  // Dispatch
  // ---------------------------------------------------------------------

  /** The keyword of a line with a space is the text before the first space. */
  lemma KeywordBeforeSpace(k: string, rest: string)
    requires ' ' !in k && |k| + |rest| + 1 < NPOS
    ensures Keyword(k + " " + rest) == k
  {
    FindAfterPrefix(k, ' ', rest);
  }

  /**
   * MOVE, LEFT, RIGHT and REPORT get the whole line but never look past the
   * keyword: anything after the first space makes no difference.
   */
  lemma HandlersIgnoreArguments(s: RobotState, k: string, rest: string)
    requires k in {"MOVE", "LEFT", "RIGHT", "REPORT"}
    requires |k| + |rest| + 1 < NPOS
    ensures Interpret(s, k + " " + rest) == Interpret(s, k)
  {
    KeywordBeforeSpace(k, rest);
  }

  /** A line whose keyword is PLACE goes, whole, to the PLACE handler. */
  lemma PlaceLineInterpreted(s: RobotState, line: StdString)
    requires Keyword(line) == "PLACE"
    ensures Interpret(s, line) == Outcome(AfterPlaceLine(s, line), None)
  {
  }

  /** Joining the three fields of a report and then prefixing it is the same as appending field by field. */
  lemma JoinFields(prefix: string, a: string, b: string, c: string)
    ensures prefix + (a + "," + b + "," + c) == prefix + a + "," + b + "," + c
  {
  }

  /** "PLACE x,y,NAME" with digit fields at most 4 and a compass name places the robot there. */
  lemma {:induction false} PlaceLineAt(s: RobotState, a: string, b: string, h: Heading)
    requires AllDigits(a) && AllDigits(b) && Atoi(a) <= 4 && Atoi(b) <= 4 && h != Undefined
    requires |a| + |b| + 20 < NPOS
    ensures Interpret(s, "PLACE " + a + "," + b + "," + HeadingName(h)) ==
      Outcome(RobotState(true, Position(Atoi(a), Atoi(b)), h), None)
  {
    var c := HeadingName(h);
    var line: StdString := "PLACE " + a + "," + b + "," + c;
    assert ',' !in a && ',' !in b by {
      assert !IsDigit(',');
    }
    assert Keyword(line) == "PLACE" by {
      assert line == "PLACE" + " " + (a + "," + b + "," + c) by {
        JoinFields("PLACE" + " ", a, b, c);
      }
      KeywordBeforeSpace("PLACE", a + "," + b + "," + c);
    }
    assert AfterPlaceLine(s, line) == RobotState(true, Position(Atoi(a), Atoi(b)), h) by {
      PlaceLineExactly(s, a, b, c);
      HeadingNameRoundTrip(h);
    }
    PlaceLineInterpreted(s, line);
  }

  /** A line whose keyword is not one of the five exactly, with nothing else to it, is ignored. */
  lemma UnknownKeywordIgnored(s: RobotState, line: StdString)
    requires Keyword(line) !in {"MOVE", "LEFT", "RIGHT", "PLACE", "REPORT"}
    ensures Interpret(s, line) == Outcome(s, None)
  {
  }

  /** The keyword of a line without a space is the whole line. */
  lemma KeywordWithoutSpace(line: StdString)
    requires ' ' !in line
    ensures Keyword(line) == line
  {
  }

  /** The keyword of a line is its first word, whether or not a space and more follow. */
  lemma KeywordOfFirstWord(k: string, rest: string)
    requires ' ' !in k && (rest == [] || rest[0] == ' ')
    requires |k| + |rest| < NPOS
    ensures Keyword(k + rest) == k
  {
    if rest == [] {
      assert k + rest == k;
      KeywordWithoutSpace(k);
    } else {
      assert k + rest == k + " " + rest[1..];
      KeywordBeforeSpace(k, rest[1..]);
    }
  }

  /** None of the five keywords begins with another. */
  lemma KeywordsPrefixFree(k: string, w: string)
    requires k in {"MOVE", "LEFT", "RIGHT", "PLACE", "REPORT"}
    requires w in {"MOVE", "LEFT", "RIGHT", "PLACE", "REPORT"}
    requires k <= w
    ensures k == w
  {
    // The first two letters already tell the five apart.
    assert k[0] == w[0] && k[1] == w[1];
  }

  /**
   * No keyword is a proper prefix of another, so a keyword with more
   * letters glued to it ("MOVEa", "PLACEs 1,1,NORTH") is unknown and the
   * line is ignored.
   */
  lemma ExtendedKeywordIgnored(s: RobotState, k: string, extra: string, rest: string)
    requires k in {"MOVE", "LEFT", "RIGHT", "PLACE", "REPORT"}
    requires extra != [] && ' ' !in extra
    requires rest == [] || rest[0] == ' '
    requires |k| + |extra| + |rest| < NPOS
    ensures Interpret(s, k + extra + rest) == Outcome(s, None)
  {
    var w := k + extra;
    KeywordOfFirstWord(w, rest);
    if w in {"MOVE", "LEFT", "RIGHT", "PLACE", "REPORT"} {
      assert k <= w;
      KeywordsPrefixFree(k, w);
      assert false;
    }
    UnknownKeywordIgnored(s, w + rest);
  }

  /** Keywords are case-sensitive. */
  lemma LowerCaseKeywordIgnored(s: RobotState)
    ensures Interpret(s, "move") == Outcome(s, None)
  {
    KeywordWithoutSpace("move");
  }
}

module StateMachineProperties {
  import opened Wrappers
  import opened Types
  import opened Text
  import opened Robot
  import opened RobotProperties

  // ---------------------------------------------------------------------
  // placeHere
  // ---------------------------------------------------------------------

  /** placeHere moves the robot onto the table or leaves it exactly where it was. */
  lemma PlaceAllOrNothing(s: RobotState, x: nat, y: nat, h: Heading)
    ensures var t := AfterPlace(s, x, y, h);
      t == s || (t.placed && t.pos.x == x && t.pos.y == y && t.heading == h)
    ensures AfterPlace(s, x, y, h).placed <==> s.placed || (x <= 4 && y <= 4 && h != Undefined)
  {
  }

  // ---------------------------------------------------------------------
  // move
  // ---------------------------------------------------------------------

  /**
   * move keeps the heading and the placed flag, changes only the axis it
   * travels along, and by exactly one cell.
   */
  lemma MoveKeepsHeadingAndOtherAxis(s: RobotState)
    requires Invariant(s)
    ensures AfterMove(s).heading == s.heading && AfterMove(s).placed == s.placed
    ensures s.heading == North || s.heading == South ==> AfterMove(s).pos.x == s.pos.x
    ensures s.heading == East || s.heading == West ==> AfterMove(s).pos.y == s.pos.y
    ensures AfterMove(s) != s ==>
      AfterMove(s).pos.x == s.pos.x + Delta(s.heading).0 && AfterMove(s).pos.y == s.pos.y + Delta(s.heading).1
  {
  }

  /** A placed robot stays put exactly when it faces the edge it stands on. */
  lemma {:induction false} MoveBlockedExactlyAtEdge(s: RobotState)
    requires Invariant(s) && s.placed
    ensures AfterMove(s) == s <==>
      (s.heading == North && s.pos.y == 4) || (s.heading == South && s.pos.y == 0) ||
      (s.heading == East && s.pos.x == 4) || (s.heading == West && s.pos.x == 0)
  {
    MoveByWrappedStep(s);
  }

  /** move never takes a robot off the table. */
  lemma MoveStaysOnTable(s: RobotState)
    requires Invariant(s)
    ensures Invariant(AfterMove(s))
  {
  }

  // ---------------------------------------------------------------------
  // rotateLeft / rotateRight
  // ---------------------------------------------------------------------

  /** Right turns run NORTH, EAST, SOUTH, WEST; left turns the other way round. */
  lemma TurnOrder()
    ensures TurnRight(North) == East && TurnRight(East) == South
    ensures TurnRight(South) == West && TurnRight(West) == North
    ensures TurnLeft(North) == West && TurnLeft(West) == South
    ensures TurnLeft(South) == East && TurnLeft(East) == North
  {
  }

  /** A left turn undoes a right turn and the other way round. */
  lemma TurnsCancel(h: Heading)
    requires h != Undefined
    ensures TurnLeft(TurnRight(h)) == h && TurnRight(TurnLeft(h)) == h
    ensures TurnRight(h) != Undefined && TurnLeft(h) != Undefined
  {
    TurnOrder();
  }

  /** Four turns in one direction bring the robot back to its heading, and turning never moves it. */
  lemma {:induction false} FourTurnsRestore(s: RobotState, clockwise: bool)
    requires Invariant(s)
    ensures AfterRotate(AfterRotate(AfterRotate(AfterRotate(s, clockwise), clockwise), clockwise), clockwise) == s
    ensures AfterRotate(s, clockwise).pos == s.pos && AfterRotate(s, clockwise).placed == s.placed
  {
    if s.placed {
      TurnOrder();
      var s1 := AfterRotate(s, clockwise);
      var s2 := AfterRotate(s1, clockwise);
      var s3 := AfterRotate(s2, clockwise);
      assert s1.placed && s2.placed && s3.placed;
    }
  }

  // ---------------------------------------------------------------------
  // Reports
  // ---------------------------------------------------------------------

  /** An on-table report has one-digit coordinates that atoi reads back, and a compass name. */
  lemma {:induction false} ReportShape(pos: Position, h: Heading)
    requires h != Undefined && OnTable(pos)
    ensures ReportOf(pos, h) == ToString(pos.x) + "," + ToString(pos.y) + "," + HeadingName(h)
    ensures |ToString(pos.x)| == 1 && |ToString(pos.y)| == 1
    ensures Atoi(ToString(pos.x)) == pos.x && Atoi(ToString(pos.y)) == pos.y
    ensures HeadingName(h) in {"NORTH", "EAST", "SOUTH", "WEST"}
  {
    AtoiToString(pos.x);
    AtoiToString(pos.y);
  }

  /**
   * Whatever the robot reports, fed back as a PLACE line, puts any robot
   * exactly where the reporting robot is.
   */
  lemma {:induction false} ReportReplaysAsPlace(s: RobotState, t: RobotState)
    requires Invariant(s) && s.placed
    ensures |"PLACE " + ReportOf(s.pos, s.heading)| < NPOS
    ensures Interpret(t, "PLACE " + ReportOf(s.pos, s.heading)) == Outcome(s, None)
  {
    ReportShape(s.pos, s.heading);
    var a, b, c := ToString(s.pos.x), ToString(s.pos.y), HeadingName(s.heading);
    assert "PLACE " + ReportOf(s.pos, s.heading) == "PLACE " + a + "," + b + "," + c by {
      JoinFields("PLACE ", a, b, c);
    }
    PlaceLineAt(t, a, b, s.heading);
  }

  // ---------------------------------------------------------------------
  // Whole lines and runs of lines
  // ---------------------------------------------------------------------

  /** Every line keeps the heading a compass heading and a placed robot on the table. */
  lemma InterpretKeepsInvariant(s: RobotState, line: StdString)
    requires Invariant(s)
    ensures Invariant(Interpret(s, line).state)
  {
    MoveStaysOnTable(s);
  }

  /** Only REPORT prints, and only once the robot is placed; it prints the report of the current state. */
  lemma ReportOnlyWhenPlaced(s: RobotState, line: StdString)
    ensures Interpret(s, line).output.Some? <==> s.placed && ActionOf(Keyword(line)) == Some(Report)
    ensures Interpret(s, line).output.Some? ==> Interpret(s, line).output.value == ReportOf(s.pos, s.heading)
  {
  }

  /** Before the robot is placed, every line but PLACE is ignored. */
  lemma UnplacedIgnoresAllButPlace(s: RobotState, line: StdString)
    requires !s.placed && ActionOf(Keyword(line)) != Some(Place)
    ensures Interpret(s, line) == Outcome(s, None)
  {
  }

  /** No line unplaces the robot. */
  lemma PlacedStaysPlacedByLine(s: RobotState, line: StdString)
    requires s.placed
    ensures Interpret(s, line).state.placed
  {
  }

  /** The invariant holds after any sequence of lines. */
  lemma {:induction false} RunKeepsInvariant(s: RobotState, lines: seq<StdString>)
    requires Invariant(s)
    ensures Invariant(Run(s, lines).state)
    decreases |lines|
  {
    if lines != [] {
      InterpretKeepsInvariant(s, lines[0]);
      RunKeepsInvariant(Interpret(s, lines[0]).state, lines[1..]);
    }
  }

  /** Once placed, the robot stays placed whatever follows. */
  lemma {:induction false} PlacedStaysPlaced(s: RobotState, lines: seq<StdString>)
    requires s.placed
    ensures Run(s, lines).state.placed
    decreases |lines|
  {
    if lines != [] {
      PlacedStaysPlacedByLine(s, lines[0]);
      PlacedStaysPlaced(Interpret(s, lines[0]).state, lines[1..]);
    }
  }

  /** Lines that are all ignored leave the state alone and print nothing. */
  lemma {:induction false} UnplacedRunWithoutPlace(s: RobotState, lines: seq<StdString>)
    requires !s.placed
    requires forall i :: 0 <= i < |lines| ==> ActionOf(Keyword(lines[i])) != Some(Place)
    ensures Run(s, lines) == Trace(s, [])
    decreases |lines|
  {
    if lines != [] {
      UnplacedIgnoresAllButPlace(s, lines[0]);
      UnplacedRunWithoutPlace(s, lines[1..]);
    }
  }
}
