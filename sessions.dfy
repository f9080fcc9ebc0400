/**
 * Whole sessions with the robot: lines are fed to a table top's robot one
 * by one, as the project's own tests do (codeChallenge/UnitTests.h). The
 * tests share one table whose robot earlier tests have already placed, and
 * read the report with getReport; here each session starts from a new
 * table and reads the report through a REPORT line. The results agree,
 * because the opening PLACE line (PlaceOriginNorth, PlaceOneTwoEast) has the
 * same effect on every valid robot, and a REPORT line of a placed robot
 * returns what getReport builds.
 */
module Sessions {
  import opened Wrappers
  import opened Types
  import opened Text
  import opened Robot
  import opened RobotProperties

  /** The bare MOVE, LEFT and RIGHT lines turn into the corresponding motions. */
  lemma BareMotionLines(s: RobotState)
    ensures Interpret(s, "MOVE") == Outcome(AfterMove(s), None)
    ensures Interpret(s, "LEFT") == Outcome(AfterRotate(s, false), None)
    ensures Interpret(s, "RIGHT") == Outcome(AfterRotate(s, true), None)
  {
    KeywordWithoutSpace("MOVE");
    KeywordWithoutSpace("LEFT");
    KeywordWithoutSpace("RIGHT");
  }

  /** A bare REPORT line prints the report of a placed robot and changes nothing. */
  lemma BareReportLine(s: RobotState)
    ensures Interpret(s, "REPORT") ==
      Outcome(s, if s.placed then Some(ReportOf(s.pos, s.heading)) else None)
  {
    KeywordWithoutSpace("REPORT");
  }

  /** The reports the sessions below print. */
  lemma SessionReports()
    ensures ReportOf(Position(1, 2), East) == "1,2,EAST"
    ensures ReportOf(Position(3, 3), North) == "3,3,NORTH"
    ensures ReportOf(Position(0, 1), North) == "0,1,NORTH"
    ensures ReportOf(Position(0, 0), West) == "0,0,WEST"
  {
  }

  /** PLACE 1,2,EAST, then REPORT: the robot is at 1,2 facing east and says so. */
  method PlaceOneTwoEast(robot: ToyRobot) returns (report: Option<string>)
    requires robot.Valid()
    modifies robot, robot.transform
    ensures robot.Valid() && robot.State() == RobotState(true, Position(1, 2), East)
    ensures report == Some("1,2,EAST")
  {
    SessionReports();
    var place: StdString := "PLACE " + "1,2,EAST";
    assert place == "PLACE " + "1" + "," + "2" + "," + HeadingName(East);
    PlaceLineAt(robot.State(), "1", "2", East);
    var ignored := robot.ProcessInput(place);
    BareReportLine(robot.State());
    report := robot.ProcessInput("REPORT");
  }

  /** From 1,2 facing east, MOVE and MOVE reach 3,2. */
  method EastTwice(robot: ToyRobot)
    requires robot.Valid() && robot.State() == RobotState(true, Position(1, 2), East)
    modifies robot, robot.transform
    ensures robot.Valid() && robot.State() == RobotState(true, Position(3, 2), East)
  {
    BareMotionLines(robot.State());
    var ignored := robot.ProcessInput("MOVE");
    assert robot.State() == RobotState(true, Position(2, 2), East);
    BareMotionLines(robot.State());
    ignored := robot.ProcessInput("MOVE");
  }

  /** From 3,2 facing east, LEFT, MOVE and REPORT end at 3,3 facing north. */
  method LeftThenNorth(robot: ToyRobot) returns (report: Option<string>)
    requires robot.Valid() && robot.State() == RobotState(true, Position(3, 2), East)
    modifies robot, robot.transform
    ensures robot.Valid() && robot.State() == RobotState(true, Position(3, 3), North)
    ensures report == Some("3,3,NORTH")
  {
    SessionReports();
    BareMotionLines(robot.State());
    var ignored := robot.ProcessInput("LEFT");
    assert robot.State() == RobotState(true, Position(3, 2), North);
    BareMotionLines(robot.State());
    ignored := robot.ProcessInput("MOVE");
    BareReportLine(robot.State());
    report := robot.ProcessInput("REPORT");
  }

  /**
   * PLACE 1,2,EAST, REPORT, MOVE, MOVE, LEFT, MOVE, REPORT, starting from a new table:
   * the first report is 1,2,EAST and the second 3,3,NORTH. (The PLACE line
   * is spelled as keyword plus payload.)
   */
  method EastThenNorth() returns (first: Option<string>, last: Option<string>)
    ensures first == Some("1,2,EAST")
    ensures last == Some("3,3,NORTH")
  {
    var table := new TableTop(TABLE_TOP_X, TABLE_TOP_Y);
    var robot := table.GetPlayer();
    first := PlaceOneTwoEast(robot);
    EastTwice(robot);
    last := LeftThenNorth(robot);
  }

  /** PLACE 0,0,NORTH: the robot is at the origin facing north. */
  method PlaceOriginNorth(robot: ToyRobot)
    requires robot.Valid()
    modifies robot, robot.transform
    ensures robot.Valid() && robot.State() == RobotState(true, Position(0, 0), North)
  {
    var place: StdString := "PLACE " + "0,0,NORTH";
    assert place == "PLACE " + "0" + "," + "0" + "," + HeadingName(North);
    PlaceLineAt(robot.State(), "0", "0", North);
    var ignored := robot.ProcessInput(place);
  }

  /** PLACE 0,0,NORTH, MOVE, REPORT, starting from a new table, reports 0,1,NORTH. */
  method OriginThenMove() returns (report: Option<string>)
    ensures report == Some("0,1,NORTH")
  {
    var table := new TableTop(TABLE_TOP_X, TABLE_TOP_Y);
    var robot := table.GetPlayer();
    PlaceOriginNorth(robot);
    BareMotionLines(robot.State());
    var ignored := robot.ProcessInput("MOVE");
    assert robot.State() == RobotState(true, Position(0, 1), North);
    BareReportLine(robot.State());
    SessionReports();
    report := robot.ProcessInput("REPORT");
  }

  /** PLACE 0,0,NORTH, LEFT, REPORT, starting from a new table, reports 0,0,WEST. */
  method OriginThenLeft() returns (report: Option<string>)
    ensures report == Some("0,0,WEST")
  {
    var table := new TableTop(TABLE_TOP_X, TABLE_TOP_Y);
    var robot := table.GetPlayer();
    PlaceOriginNorth(robot);
    BareMotionLines(robot.State());
    var ignored := robot.ProcessInput("LEFT");
    assert robot.State() == RobotState(true, Position(0, 0), West);
    BareReportLine(robot.State());
    SessionReports();
    report := robot.ProcessInput("REPORT");
  }

  /**
   * getPlayer gives the same robot on every call, also after that robot has
   * been driven: a command given through one result is seen through the next.
   */
  method SamePlayerAcrossCommands(table: TableTop, line: StdString) returns (first: ToyRobot, second: ToyRobot)
    requires table.player.Valid()
    modifies table.player, table.player.transform
    ensures first == second
    ensures second.Valid() && second.State() == Interpret(old(table.player.State()), line).state
  {
    first := table.GetPlayer();
    var ignored := first.ProcessInput(line);
    second := table.GetPlayer();
  }
}
