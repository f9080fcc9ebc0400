# Toy robot command interpreter, in Dafny

A model of the toy-robot code challenge (codeChallenge). A robot stands
on a 5x5 table top, with coordinates 0 to 4 on each axis. It reads text
commands one line at a time: `PLACE x,y,F`, `MOVE`, `LEFT`, `RIGHT` and
`REPORT`. It ignores every command until a valid `PLACE` has put it on the
table, and it never steps off the table.

The model follows the C++ code's own structure:

- **Types** (`types.dfy`, from `Types.h`):
  - the action keyword table and the heading enumeration with its name table;
  - `getHeadingEnum`;
  - `T_Transform<uint8_t>`, one byte that packs the heading into bits 7–6, y into bits 5–3 and x into bits 2–0. It is a class whose `data: bv8` is updated in place through the source's masks. Its getters are functions of the byte.
- **Text** (`text.dfy`): the parts of `std::string` and `<cstdlib>` the parser relies on.
  - `find` answers `npos` when the character is absent. Adding to `npos` wraps modulo 2^64, as `size_t` does.
  - `substr` and `erase` clamp to the length.
  - It also holds `isdigit`, `InputHandler::isNumber` (a loop), `atoi` on digit strings and `std::to_string`.
- **Robot** (`robot.dfy`, from `Objects.h` and `Objects.cpp`): two halves.
  - First, the robot's behaviour on an abstract state `RobotState(placed, pos, heading)`:
    - one function per command handler;
    - the PLACE payload reader;
    - the keyword dispatch `Interpret`;
    - `Run` over a sequence of lines, which collects what `REPORT` prints.
  - Second, the objects themselves:
    - `ToyRobot`, a class holding a `Transform` and the placed flag, whose methods (`PlaceHere`, `Move`, `Rotate`, `GetReport`, `PlaceAction`, `ProcessInput`, …) are proved to change the state exactly as the abstract functions say;
    - `ParsePlace`, the PLACE handler's field-splitting loop, proved equal to the payload reader;
    - `TableTop`, which owns the robot.
- **RobotProperties** and **StateMachineProperties** (`properties.dfy`): lemmas about parsing, dispatch and the state machine. These cover:
  - exactly when a PLACE line moves the robot;
  - the effect of malformed payloads;
  - that move never leaves the table and stops exactly at an edge;
  - that turns cycle and cancel;
  - that a report fed back as a PLACE line reproduces the state;
  - that the invariant (a compass heading, and on the table once placed) holds after any sequence of lines.
- **Sessions** (`sessions.dfy`): the command sequences of the project's unit tests, run as methods on a table top's robot. The reports they must print are proved. The tests run every sequence on one shared table whose robot earlier tests have already placed, and read the report with `getReport()`. The sessions instead start from a new table and read the report through a `REPORT` line. The results agree, because the opening PLACE line (`PlaceOriginNorth`, `PlaceOneTwoEast`) has the same effect on any valid robot, and a placed robot's `REPORT` line returns what `getReport()` builds.

The code has these quirks, and the model reproduces them:

- A PLACE payload with more than three fields is not rejected. The heading field clears the input, so the "too many tokens" branch can never run and any text after the third field is ignored (`TrailingFieldsIgnored`, `ParsePlace`).
- An empty coordinate field passes `isNumber` and `atoi` reads it as 0, so `PLACE ,,NORTH` places the robot at 0,0 (`EmptyCoordinatesReadAsZero`).
- With two fields the last one is read again as the heading, because `npos + 1` wraps to 0 and nothing is erased. A digit string is no heading, so the line is rejected (`MissingHeadingRereadsLastField`).
- `validateAxisY` compares y with `TABLE_TOP_X`. Both extents are 4, so this has no visible effect.
- The keyword ends at the first space character only. A tab does not end it.
- `move` steps a 3-bit coordinate that wraps (0 − 1 is 7) and then checks the result against 4. This is equivalent to refusing a step off the table (`MoveByWrappedStep`, `MoveBlockedExactlyAtEdge`).

## Model

| member | source | states |
|---|---|---|
| Types.ActionOf | codeChallenge/Types.h:24-31 | a keyword is found exactly when it is one of the five upper-case keywords, and the action found is the one that keyword names |
| Types.HeadingIndex | codeChallenge/Types.h:44-51 | every heading, UNDEFINED included, has an entry in the heading name table, at the returned index |
| Types.HeadingOrderByCode | codeChallenge/Types.h:36-51 | the heading name table iterates its keys in increasing enum value, holds every heading, and has UNDEFINED as its last entry |
| Types.GetHeadingEnum | codeChallenge/Types.h:57-73 | the result is a compass heading exactly when the string is one of NORTH, EAST, SOUTH, WEST, and then the heading's name is that string; every other string gives UNDEFINED |
| Types.HeadingNameRoundTrip | codeChallenge/Types.h:44-73 | converting a heading's name back gives the same heading |
| Types.Inc3 | codeChallenge/Objects.cpp:68-82 | ++ on a 3-bit coordinate field, where 7 wraps to 0; MoveByWrappedStep proves that the step followed by the bound check is the on-table move |
| Types.Dec3 | codeChallenge/Objects.cpp:75-89 | -- on a 3-bit coordinate field, where 0 wraps to 7; MoveByWrappedStep proves that the step followed by the bound check refuses a step off the table |
| Types.MaskLayout | codeChallenge/Types.h:124-132 | for an 8-bit transform the masks are 0xC0, 0x38 and 0x07, pairwise disjoint and together covering the byte |
| Types.HeadingName | codeChallenge/Types.h:44-51 | the heading name table; GetHeadingEnum and HeadingNameRoundTrip prove that every name converts back to its heading and that no other string names a compass heading |
| Types.PositionOf | codeChallenge/Types.h:154-162 | the x and y fields of the byte; WithPosition proves that it reads back what setPosition wrote, and FreshTransform that an all-ones byte reads as 7,7 |
| Types.RotationOf | codeChallenge/Types.h:168-172 | the heading read from a byte is its top two bits and is never UNDEFINED |
| Types.WithPosition | codeChallenge/Types.h:140-162 | after setting a position, reading it back gives that position, and the heading bits and heading are unchanged |
| Types.WithRotation | codeChallenge/Types.h:178-184 | after setting a heading the position bits are unchanged, and the heading read back is the one set, except that UNDEFINED (0b111) is truncated and reads as WEST |
| Types.TransformDeterminedByFields | codeChallenge/Types.h:105-132 | the byte holds only the position and the heading: two bytes with equal fields are equal |
| Types.FreshTransform | codeChallenge/Types.h:119 | a transform with all bits set reads as position 7,7 facing WEST |
| Types.Transform.constructor | codeChallenge/Types.h:119 | a new transform has every bit set |
| Types.Transform.SetPosition | codeChallenge/Types.h:140-148 | the three mask steps leave the byte equal to WithPosition of the old byte |
| Types.Transform.SetRotation | codeChallenge/Types.h:178-184 | the two mask steps leave the byte equal to WithRotation of the old byte |
| Text.Find | codeChallenge/Objects.cpp:168 | find answers npos when the character is absent; otherwise it answers the index of the character's first occurrence |
| Text.FindAfterPrefix | codeChallenge/Objects.cpp:168 | when the first occurrence of a character follows a prefix, find answers the prefix's length |
| Text.Substr | codeChallenge/Objects.cpp:169 | substr(0, n) keeps at most the first n characters; TokenBeforeComma and TokenWithoutComma describe the token it cuts |
| Text.Erase | codeChallenge/Objects.cpp:195 | erase(0, n) drops at most the first n characters; PayloadAfterKeyword, TokenBeforeComma and TokenWithoutComma describe what it leaves |
| Text.IsNumber | codeChallenge/Objects.cpp:239-244 | true exactly when every character is a decimal digit, so the empty string counts as a number |
| Text.ToString | codeChallenge/Objects.cpp:141-142 | to_string writes decimal digits without leading zeros: one digit exactly for values below 10 |
| Text.Atoi | codeChallenge/Objects.cpp:176-181 | atoi on a digit string; AtoiToString proves that it reads back what to_string writes, and EmptyCoordinatesReadAsZero that the empty string reads as 0 |
| Text.AtoiToString | codeChallenge/Objects.cpp:176-181 | atoi reads back the value that to_string writes |
| Robot.ValidateAxisX | codeChallenge/Objects.cpp:246-250 | a value it accepts fits the transform's 3-bit coordinate field |
| Robot.ValidateAxisY | codeChallenge/Objects.cpp:252-256 | although it compares with the X extent, it accepts exactly the values up to the Y extent, and each fits the 3-bit field |
| Robot.ValidateRotation | codeChallenge/Objects.cpp:258-262 | it accepts exactly the four compass headings |
| Robot.AfterPlace | codeChallenge/Objects.cpp:110-121 | placeHere on the state; PlaceAllOrNothing proves that it either changes nothing or sets exactly the given position and heading, and places the robot exactly when the arguments are valid or it was placed already |
| Robot.AfterMove | codeChallenge/Objects.cpp:57-98 | move on the state; MoveByWrappedStep proves it equal to the source's wrapped 3-bit step, and MoveKeepsHeadingAndOtherAxis, MoveBlockedExactlyAtEdge and MoveStaysOnTable that it moves one cell along the heading, is blocked exactly at an edge and never leaves the table |
| Robot.AfterRotate | codeChallenge/Objects.cpp:13-55 | _rotate on the state; TurnOrder, TurnsCancel and FourTurnsRestore prove the clockwise N, E, S, W cycle, that left and right turns cancel, and that four turns restore the state |
| Robot.ReportOf | codeChallenge/Objects.cpp:133-145 | the report text; ReportShape proves one-digit coordinates that atoi reads back and a compass name, and ReportReplaysAsPlace that the report fed back as a PLACE line restores the state |
| Robot.Token | codeChallenge/Objects.cpp:168-169 | the field before the first comma; TokenBeforeComma and TokenWithoutComma prove it is the text up to the comma, or all of it without one |
| Robot.Rest | codeChallenge/Objects.cpp:195 | what erase(0, pos + 1) leaves; TokenBeforeComma proves it is the text after the first comma, and TokenWithoutComma that without a comma npos + 1 wraps to 0 and the input is left whole |
| Robot.ParsePayload | codeChallenge/Objects.cpp:155-198 | the payload reader; PayloadFields, PlaceFieldsRead, PayloadWithTail and TruncatedPayloads prove how three fields, extra fields and missing fields are read |
| Robot.PlaceCommand | codeChallenge/Objects.cpp:150-198 | the payload reader on a whole line; ParsePlace proves the source's loop equal to it, and MissingHeadingRereadsLastField and TruncatedPayloads describe short lines |
| Robot.AfterPlaceLine | codeChallenge/Objects.cpp:150-203 | the PLACE handler on the state; PlaceLineExactly proves when a line of three fields places the robot, and TrailingFieldsIgnored and EmptyCoordinatesReadAsZero the quirks |
| Robot.Interpret | codeChallenge/Objects.h:66-81 | proccessInput on the state; ProcessInput proves the robot's method equal to it, and InterpretKeepsInvariant, ReportOnlyWhenPlaced, UnknownKeywordIgnored and HandlersIgnoreArguments describe it |
| Robot.MoveByWrappedStep | codeChallenge/Objects.cpp:62-97 | for each heading, stepping the 3-bit coordinate with wrap-around and keeping the step only if validateAxisX accepts it gives the same result as the on-table move |
| Robot.Keyword | codeChallenge/Objects.h:69 | the keyword is a prefix of the line without a space, and when it is shorter than the line a space follows it |
| Robot.ParsePlace | codeChallenge/Objects.cpp:150-198 | the field-splitting loop ends with the payload reader's verdict (not a number, truncated, or x, y and heading), and the too-many-tokens flag is never set |
| Robot.ToyRobot.constructor | codeChallenge/Objects.h:96-98 | a new robot is not placed, its transform has all bits set (7,7 facing WEST), and the invariant holds |
| Robot.ToyRobot.GetPosition | codeChallenge/Objects.cpp:123-126 | a placed robot's position is on the table |
| Robot.ToyRobot.GetRotation | codeChallenge/Objects.cpp:128-131 | the robot's heading is never UNDEFINED |
| Robot.ToyRobot.PlaceHere | codeChallenge/Objects.cpp:110-121 | when x and y are at most 4 and the heading is a compass heading, the robot is placed there facing that way; otherwise neither the flag nor the transform byte changes; the invariant is kept |
| Robot.ToyRobot.Move | codeChallenge/Objects.cpp:57-98 | the bit-level move gives the abstract move (one cell along the heading when it stays on the table) and keeps the invariant |
| Robot.ToyRobot.Rotate | codeChallenge/Objects.cpp:13-55 | stepping the heading name table's iterator, with the wrap at either end, is a quarter turn of a placed robot and keeps the invariant |
| Robot.ToyRobot.RotateLeft | codeChallenge/Objects.cpp:100-103 | an anticlockwise quarter turn of a placed robot |
| Robot.ToyRobot.RotateRight | codeChallenge/Objects.cpp:105-108 | a clockwise quarter turn of a placed robot |
| Robot.ToyRobot.GetReport | codeChallenge/Objects.cpp:133-145 | the report is x, a comma, y, a comma and the heading's name, for the current state |
| Robot.ToyRobot.PlaceAction | codeChallenge/Objects.cpp:150-203 | the PLACE handler changes the state exactly as AfterPlaceLine says and keeps the invariant |
| Robot.ToyRobot.ProcessInput | codeChallenge/Objects.h:66-81 | the new state and the printed output are those of Interpret on the old state, and the invariant is kept |
| Robot.TableTop.constructor | codeChallenge/Objects.h:174-178 | the table stores its extents and owns a fresh, unplaced robot |
| Robot.TableTop.GetPlayer | codeChallenge/Objects.h:191-194 | getPlayer answers the robot the table owns; SamePlayerAcrossCommands proves that two calls, with a command in between, give the same robot |
| RobotProperties.TokenBeforeComma | codeChallenge/Objects.cpp:167-195 | for a comma-free field followed by a comma, the token is the field and the erase leaves what follows the comma |
| RobotProperties.TokenWithoutComma | codeChallenge/Objects.cpp:195 | for a last field without a comma, the token is the whole field and, since npos + 1 wraps to 0, the same field remains |
| RobotProperties.PayloadAfterKeyword | codeChallenge/Objects.cpp:155 | the payload is everything after the six characters "PLACE " |
| RobotProperties.PayloadFields | codeChallenge/Objects.cpp:155-195 | how the three comma-separated fields of "PLACE a,b,c" are cut, one erase at a time |
| RobotProperties.PlaceFieldsRead | codeChallenge/Objects.cpp:165-198 | three comma-free fields, the first two of digits, read as atoi of each and the converted heading |
| RobotProperties.PlaceDecision | codeChallenge/Objects.cpp:200-202 | a read line places the robot exactly when x and y are at most 4 and the heading name is one of the four compass names |
| RobotProperties.PlaceLineExactly | codeChallenge/Objects.cpp:150-203 | a PLACE line of three comma-free fields moves the robot exactly when both coordinates are digit strings with values at most 4 and the heading is a compass name; otherwise nothing changes |
| RobotProperties.PayloadWithTail | codeChallenge/Objects.cpp:184-192 | with four or more fields the first three are read and the rest never is |
| RobotProperties.TrailingFieldsIgnored | codeChallenge/Objects.cpp:184-192 | a PLACE line with extra fields behaves as the same line cut after its third field |
| RobotProperties.EmptyCoordinatesReadAsZero | codeChallenge/Objects.cpp:239-244 | "PLACE ,,NORTH" places the robot at 0,0 facing NORTH |
| RobotProperties.MissingHeadingRereadsLastField | codeChallenge/Objects.cpp:195 | with only two fields the second is read again as the heading, gives UNDEFINED, and nothing is placed |
| RobotProperties.TruncatedPayloads | codeChallenge/Objects.cpp:161-200 | "PLACE", "PLACE a," and "PLACE a,b," end before the heading field, so the heading is never set and the line is rejected |
| RobotProperties.KeywordBeforeSpace | codeChallenge/Objects.h:69 | the keyword of a line with a space is the text before the first space |
| RobotProperties.HandlersIgnoreArguments | codeChallenge/Objects.cpp:205-231 | MOVE, LEFT, RIGHT and REPORT ignore everything after the first space |
| RobotProperties.PlaceLineInterpreted | codeChallenge/Objects.h:76-80 | a line whose keyword is PLACE goes whole to the PLACE handler and prints nothing |
| RobotProperties.PlaceLineAt | codeChallenge/Objects.h:66-81 | "PLACE a,b,NAME" with digit coordinates at most 4 and a compass name places the robot there, from any state |
| RobotProperties.UnknownKeywordIgnored | codeChallenge/Objects.h:71-74 | a line whose keyword is not in the action table changes nothing and prints nothing |
| RobotProperties.KeywordWithoutSpace | codeChallenge/Objects.h:69 | the keyword of a line without a space is the whole line |
| RobotProperties.KeywordOfFirstWord | codeChallenge/Objects.h:69 | the keyword is the first word, whether or not a space and more follow it |
| RobotProperties.KeywordsPrefixFree | codeChallenge/Types.h:24-31 | no keyword of the action table is a prefix of another |
| RobotProperties.ExtendedKeywordIgnored | codeChallenge/Objects.h:69-74 | a keyword with more letters attached ("MOVEa", "PLACEs 1,1,NORTH") is not found, and the line is ignored |
| RobotProperties.LowerCaseKeywordIgnored | codeChallenge/Objects.h:71-74 | keywords are case-sensitive: "move" is ignored |
| StateMachineProperties.PlaceAllOrNothing | codeChallenge/Objects.cpp:110-121 | placeHere either leaves the state unchanged or sets the position and heading given; afterwards the robot is placed exactly when it was before or the arguments were valid |
| StateMachineProperties.MoveKeepsHeadingAndOtherAxis | codeChallenge/Objects.cpp:62-97 | move keeps the heading and the placed flag, leaves the other axis alone, and changes the position only by one step in the heading's direction |
| StateMachineProperties.MoveBlockedExactlyAtEdge | codeChallenge/Objects.cpp:64-93 | a placed robot stays put exactly when it faces the edge it stands on |
| StateMachineProperties.MoveStaysOnTable | codeChallenge/Objects.cpp:57-98 | move keeps the invariant, so the robot never leaves the table |
| StateMachineProperties.TurnOrder | codeChallenge/Objects.cpp:13-55 | right turns run NORTH, EAST, SOUTH, WEST and back; left turns run the reverse way |
| StateMachineProperties.TurnsCancel | codeChallenge/Objects.cpp:26-50 | a left turn undoes a right turn and the other way round, and no turn gives UNDEFINED |
| StateMachineProperties.FourTurnsRestore | codeChallenge/Objects.cpp:13-55 | four turns in one direction restore the state, and a turn never moves the robot or changes its placed flag |
| StateMachineProperties.ReportShape | codeChallenge/Objects.cpp:133-145 | an on-table report has one-digit coordinates that atoi reads back, and a compass name |
| StateMachineProperties.ReportReplaysAsPlace | codeChallenge/Objects.cpp:133-203 | "PLACE " followed by a placed robot's report puts any robot into exactly that state |
| StateMachineProperties.InterpretKeepsInvariant | codeChallenge/Objects.h:66-81 | every input line keeps the heading a compass heading and a placed robot on the table |
| StateMachineProperties.ReportOnlyWhenPlaced | codeChallenge/Objects.cpp:226-231 | a line prints exactly when it is REPORT and the robot is placed, and what it prints is the current report |
| StateMachineProperties.UnplacedIgnoresAllButPlace | codeChallenge/Objects.cpp:204-231 | before placement, every line but PLACE changes nothing and prints nothing |
| StateMachineProperties.PlacedStaysPlacedByLine | codeChallenge/Objects.cpp:116 | no line clears the placed flag |
| StateMachineProperties.RunKeepsInvariant | codeChallenge/Objects.h:66-81 | the invariant holds after any sequence of lines |
| StateMachineProperties.PlacedStaysPlaced | codeChallenge/Objects.cpp:116 | once placed, the robot stays placed whatever lines follow |
| StateMachineProperties.UnplacedRunWithoutPlace | codeChallenge/UnitTests.h:119-151 | lines without PLACE, given to an unplaced robot, change nothing and print nothing |
| Sessions.BareMotionLines | codeChallenge/Objects.cpp:205-224 | the lines MOVE, LEFT and RIGHT are the move and the two turns |
| Sessions.BareReportLine | codeChallenge/Objects.cpp:226-231 | the line REPORT prints the placed robot's report and changes nothing |
| Sessions.SamePlayerAcrossCommands | codeChallenge/UnitTests.h:103-113 | two calls of getPlayer, with a command given to the first result in between, return the same robot, and that robot shows the command's effect |
| Sessions.SessionReports | codeChallenge/UnitTests.h:417-474 | the reports of the test positions read 1,2,EAST, 3,3,NORTH, 0,1,NORTH and 0,0,WEST |
| Sessions.PlaceOneTwoEast | codeChallenge/UnitTests.h:453-468 | PLACE 1,2,EAST then REPORT prints 1,2,EAST |
| Sessions.EastTwice | codeChallenge/UnitTests.h:469-470 | from 1,2 facing EAST, two MOVEs reach 3,2 |
| Sessions.LeftThenNorth | codeChallenge/UnitTests.h:471-474 | from 3,2 facing EAST, LEFT, MOVE, REPORT print 3,3,NORTH |
| Sessions.EastThenNorth | codeChallenge/UnitTests.h:453-474 | starting from a new table, the whole sequence reports 1,2,EAST and then 3,3,NORTH |
| Sessions.PlaceOriginNorth | codeChallenge/UnitTests.h:428-431 | PLACE 0,0,NORTH puts the robot at the origin facing NORTH |
| Sessions.OriginThenMove | codeChallenge/UnitTests.h:419-435 | starting from a new table, PLACE 0,0,NORTH, MOVE, REPORT print 0,1,NORTH |
| Sessions.OriginThenLeft | codeChallenge/UnitTests.h:437-451 | starting from a new table, PLACE 0,0,NORTH, LEFT, REPORT print 0,0,WEST |

## Left out

- The program loop in `main.cpp`, which reads lines from standard input, is not part of this model. A sequence of lines is a parameter of `Run`.
- `printf` in the REPORT handler: the report is returned as the output of `Interpret` and `ProcessInput` instead of being printed.
- The `std::map` of `std::function` handlers and the `InputHandler` base class: the handlers are a match on the action. Every action has a handler, so the second failed lookup in `proccessInput` cannot happen.
- `atoi` overflow: coordinates are unbounded naturals, so digit strings beyond `int` range are read exactly. Any value above 4 is rejected either way, except one that wraps into 0–4.
- Robot.ToyRobot.PlaceAction: a payload that ends before its heading field leaves the source's `heading` variable uninitialised, which is undefined behaviour in C++. The model rejects such a line (`Truncated`).
- Robot.ToyRobot.PlaceHere: requires x and y below 256, the range of its `uint8_t` parameters. The PLACE handler passes `uint32_t` values, but only after checking that they are at most 4, so the narrowing never changes a value.
- The unused locals `x` and `y` of `getReport`, `TableTop::getExtentX` and `getExtentY`, and the copy-deletion declarations of `ToyRobot`: they affect no behaviour.
- The test harness in `UnitTests.h` (output formatting, the data-set runner reading files): only the command sequences of its robot tests and its same-robot check are modelled, as the Sessions methods. The same-robot check compares printed addresses; the model compares the references directly.
- Robot.ToyRobot.Move: the `default` branch for an UNDEFINED heading is unreachable, because two bits cannot hold UNDEFINED. The model keeps it as a return.
- Input text is taken to be ASCII. `std::string` holds bytes and the model holds Unicode characters; `isdigit` is modelled as the range `0`–`9`, while in C++ a byte of 0x80 or more passed to `std::isdigit` as a negative `char` is undefined behaviour.
