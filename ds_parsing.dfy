/**
 * What the comms layer reports when it refuses a message: a log record, or
 * the record `get_wrong_arg_count_log` builds. The text of the latter comes
 * from a function that is not part of this model, so it is kept as the
 * subject it describes, the field count it expected and the count it got.
 */
module CommsReport {
  import opened Logging

  datatype Report =
    | Log(data: LogData)
    | WrongArgCount(subject: seq<string>, expected: nat, actual: nat)
}

/**
 * The driver-station message parser of src/comms/driver_station/parsing.rs:
 * a newline-terminated text line becomes one `ReceivableMessage`. Number
 * parsing (`str::parse::<f32>`) is a parameter: a function that gives the
 * value of a field, or nothing when the field is not a number.
 */
module DsParsing {
  import opened Shared
  import opened Logging
  import opened Text
  import opened CommsReport

  datatype Subsystem = DriveTrain

  datatype ReceivableMessage =
    | Kill
    | Revive
    | Enable(subsystem: Subsystem)
    | Disable(subsystem: Subsystem)
    | Drive(leftSpeed: real, rightSpeed: real)
    | Brake

  type FloatParser = string -> Option<real>

  const EMPTY_MESSAGE: string := "Empty message in DS Comms!"
  const UNPARSEABLE_SPEED: string := "Received unparseable speed in drive message"
  const SPEED_TOO_HIGH: string := "Received speed > 1 in drive train message"
  const UNKNOWN_SUBSYSTEM: string := "Unrecognized subsystem in message!"

  function Nonexistent(message: string): string
  {
    "Received nonexistent command, message is '" + message + "'"
  }

  predicate IsKnownCommand(id: string)
  {
    id == "drive" || id == "enable" || id == "disable" || id == "kill" || id == "revive" || id == "brake"
  }

  /** `parse_message`: trim the end, split, and dispatch on the first field. */
  function ParseMessage(message: string, parse: FloatParser): Result<ReceivableMessage, Report>
  {
    var message := TrimEnd(message);
    Dispatch(message, SplitWhitespace(message), parse)
  }

  /** The `match` of `parse_message` on the first of the fields `elements` of `message`. */
  function Dispatch(message: string, elements: seq<string>, parse: FloatParser): Result<ReceivableMessage, Report>
  {
    if elements == [] then Err(Log(LogData(Warning, EMPTY_MESSAGE)))
    else if elements[0] == "drive" then ParseDriveCommand(message, elements, parse)
    else if elements[0] == "enable" then ParseEnableCommand(message, elements)
    else if elements[0] == "disable" then ParseDisableCommand(message, elements)
    else if elements[0] == "kill" then ParseKillCommand(message, elements)
    else if elements[0] == "revive" then ParseReviveCommand(message, elements)
    else if elements[0] == "brake" then ParseBrakeCommand(message, elements)
    else Err(Log(LogData(Warning, Nonexistent(message))))
  }

  /** Exactly three fields and two numbers, neither above 1; nothing bounds them below. */
  function ParseDriveCommand(originalMessage: string, args: seq<string>, parse: FloatParser): (r: Result<ReceivableMessage, Report>)
    ensures r.Ok? <==> (|args| == 3 && parse(args[1]).Some? && parse(args[2]).Some?
                       && parse(args[1]).value <= 1.0 && parse(args[2]).value <= 1.0)
    ensures r.Ok? ==> r.value == Drive(parse(args[1]).value, parse(args[2]).value)
    ensures |args| != 3 ==> r == Err(WrongArgCount([originalMessage], 2, |args|))
    ensures |args| == 3 && (parse(args[1]).None? || parse(args[2]).None?) ==> r == Err(Log(LogData(Warning, UNPARSEABLE_SPEED)))
  {
    if |args| != 3 then Err(WrongArgCount([originalMessage], 2, |args|))
    else
      var leftSpeedString, rightSpeedString := args[1], args[2];
      match parse(leftSpeedString)
      case None => Err(Log(LogData(Warning, UNPARSEABLE_SPEED)))
      case Some(leftSpeed) =>
        match parse(rightSpeedString)
        case None => Err(Log(LogData(Warning, UNPARSEABLE_SPEED)))
        case Some(rightSpeed) =>
          if leftSpeed > 1.0 || rightSpeed > 1.0 then Err(Log(LogData(Warning, SPEED_TOO_HIGH)))
          else Ok(Drive(leftSpeed, rightSpeed))
  }

  function ParseEnableCommand(originalMessage: string, args: seq<string>): (r: Result<ReceivableMessage, Report>)
    ensures r.Ok? <==> |args| == 2 && args[1] == "drive_train"
    ensures r.Ok? ==> r.value == Enable(DriveTrain)
    ensures |args| != 2 ==> r == Err(WrongArgCount([originalMessage], 1, |args|))
  {
    if |args| != 2 then Err(WrongArgCount([originalMessage], 1, |args|))
    else
      match ParseSubsystem(args[1])
      case Err(e) => Err(e)
      case Ok(parsedSubsystem) => Ok(Enable(parsedSubsystem))
  }

  function ParseDisableCommand(originalMessage: string, args: seq<string>): (r: Result<ReceivableMessage, Report>)
    ensures r.Ok? <==> |args| == 2 && args[1] == "drive_train"
    ensures r.Ok? ==> r.value == Disable(DriveTrain)
    ensures |args| != 2 ==> r == Err(WrongArgCount([originalMessage], 1, |args|))
  {
    if |args| != 2 then Err(WrongArgCount([originalMessage], 1, |args|))
    else
      match ParseSubsystem(args[1])
      case Err(e) => Err(e)
      case Ok(parsedSubsystem) => Ok(Disable(parsedSubsystem))
  }

  /** Only "drive_train" names a subsystem. */
  function ParseSubsystem(field: string): (r: Result<Subsystem, Report>)
    ensures r.Ok? <==> field == "drive_train"
    ensures r.Err? ==> r.error == Log(LogData(Warning, UNKNOWN_SUBSYSTEM))
  {
    if field == "drive_train" then Ok(DriveTrain) else Err(Log(LogData(Warning, UNKNOWN_SUBSYSTEM)))
  }

  function ParseReviveCommand(originalMessage: string, args: seq<string>): (r: Result<ReceivableMessage, Report>)
    ensures r.Ok? <==> |args| == 1
    ensures r.Ok? ==> r.value == Revive
    ensures r.Err? ==> r.error == WrongArgCount([originalMessage], 0, |args|)
  {
    if |args| != 1 then Err(WrongArgCount([originalMessage], 0, |args|)) else Ok(Revive)
  }

  function ParseKillCommand(originalMessage: string, args: seq<string>): (r: Result<ReceivableMessage, Report>)
    ensures r.Ok? <==> |args| == 1
    ensures r.Ok? ==> r.value == Kill
    ensures r.Err? ==> r.error == WrongArgCount([originalMessage], 0, |args|)
  {
    if |args| != 1 then Err(WrongArgCount([originalMessage], 0, |args|)) else Ok(Kill)
  }

  function ParseBrakeCommand(originalMessage: string, args: seq<string>): (r: Result<ReceivableMessage, Report>)
    ensures r.Ok? <==> |args| == 1
    ensures r.Ok? ==> r.value == Brake
    ensures r.Err? ==> r.error == WrongArgCount([originalMessage], 0, |args|)
  {
    if |args| != 1 then Err(WrongArgCount([originalMessage], 0, |args|)) else Ok(Brake)
  }

  /** A blank message is refused with the empty-message warning, and only a blank message is. */
  lemma EmptyMessage(message: string, parse: FloatParser)
    ensures ParseMessage(message, parse) == Err(Log(LogData(Warning, EMPTY_MESSAGE)))
      <==> forall i :: 0 <= i < |message| ==> IsWhitespace(message[i])
  {
    SplitAfterTrimEnd(message);
    SplitEmptyIffBlank(message);
    DispatchEmpty(TrimEnd(message), SplitWhitespace(message), parse);
  }

  /** Only an empty field list draws the empty-message warning. */
  lemma DispatchEmpty(message: string, elements: seq<string>, parse: FloatParser)
    ensures Dispatch(message, elements, parse) == Err(Log(LogData(Warning, EMPTY_MESSAGE))) <==> elements == []
  {
    assert EMPTY_MESSAGE[0] == 'E';
    var prefix := "Received nonexistent command, message is '";
    assert Nonexistent(message) == prefix + (message + "'");
    assert Nonexistent(message)[0] == prefix[0] == 'R';
  }

  /** An unknown first field is refused, quoting the message without its trailing whitespace. */
  lemma UnknownCommand(message: string, parse: FloatParser)
    requires SplitWhitespace(message) != [] && !IsKnownCommand(SplitWhitespace(message)[0])
    ensures ParseMessage(message, parse) == Err(Log(LogData(Warning, Nonexistent(TrimEnd(message)))))
  {
    SplitAfterTrimEnd(message);
  }

  /** Which fields each message takes: the exact field lists, and a drive bounded only from above. */
  lemma AcceptedMessages(message: string, parse: FloatParser, l: real, r: real)
    ensures ParseMessage(message, parse) == Ok(Kill) <==> SplitWhitespace(message) == ["kill"]
    ensures ParseMessage(message, parse) == Ok(Revive) <==> SplitWhitespace(message) == ["revive"]
    ensures ParseMessage(message, parse) == Ok(Brake) <==> SplitWhitespace(message) == ["brake"]
    ensures ParseMessage(message, parse) == Ok(Enable(DriveTrain)) <==> SplitWhitespace(message) == ["enable", "drive_train"]
    ensures ParseMessage(message, parse) == Ok(Disable(DriveTrain)) <==> SplitWhitespace(message) == ["disable", "drive_train"]
    ensures ParseMessage(message, parse) == Ok(Drive(l, r)) <==>
      var ts := SplitWhitespace(message);
      |ts| == 3 && ts[0] == "drive" && parse(ts[1]) == Some(l) && parse(ts[2]) == Some(r) && l <= 1.0 && r <= 1.0
  {
    SplitAfterTrimEnd(message);
    DispatchAccepted(TrimEnd(message), SplitWhitespace(message), parse, l, r);
  }

  /** `AcceptedMessages` on the field list itself. */
  lemma DispatchAccepted(message: string, elements: seq<string>, parse: FloatParser, l: real, r: real)
    ensures Dispatch(message, elements, parse) == Ok(Kill) <==> elements == ["kill"]
    ensures Dispatch(message, elements, parse) == Ok(Revive) <==> elements == ["revive"]
    ensures Dispatch(message, elements, parse) == Ok(Brake) <==> elements == ["brake"]
    ensures Dispatch(message, elements, parse) == Ok(Enable(DriveTrain)) <==> elements == ["enable", "drive_train"]
    ensures Dispatch(message, elements, parse) == Ok(Disable(DriveTrain)) <==> elements == ["disable", "drive_train"]
    ensures Dispatch(message, elements, parse) == Ok(Drive(l, r)) <==>
      |elements| == 3 && elements[0] == "drive" && parse(elements[1]) == Some(l) && parse(elements[2]) == Some(r) && l <= 1.0 && r <= 1.0
  {
  }

  /** A single-spaced "drive a b" with two numbers at most 1 parses to their drive message. */
  lemma DriveLine(a: string, b: string, parse: FloatParser, l: real, r: real)
    requires IsToken(a) && IsToken(b) && parse(a) == Some(l) && parse(b) == Some(r) && l <= 1.0 && r <= 1.0
    ensures ParseMessage(Join(["drive", a, b]), parse) == Ok(Drive(l, r))
  {
    var ts := ["drive", a, b];
    assert IsToken("drive");
    SplitsAs(ts);
    AcceptedMessages(Join(ts), parse, l, r);
  }

  /** The lines "drive 1 -1", "drive 1.0 -1.0" and the mixed forms all give Drive(1, -1), for a parser that reads them as written: the source's test cases, as instances of `AcceptedMessages`. */
  lemma DriveSpellings(parse: FloatParser)
    requires parse("1") == Some(1.0) && parse("1.0") == Some(1.0)
    requires parse("-1") == Some(-1.0) && parse("-1.0") == Some(-1.0)
    ensures ParseMessage(Join(["drive", "1", "-1"]), parse) == Ok(Drive(1.0, -1.0))
    ensures ParseMessage(Join(["drive", "1.0", "-1.0"]), parse) == Ok(Drive(1.0, -1.0))
    ensures ParseMessage(Join(["drive", "1", "-1.0"]), parse) == Ok(Drive(1.0, -1.0))
    ensures ParseMessage(Join(["drive", "1.0", "-1"]), parse) == Ok(Drive(1.0, -1.0))
  {
    DriveLine("1", "-1", parse, 1.0, -1.0);
    DriveLine("1.0", "-1.0", parse, 1.0, -1.0);
    DriveLine("1", "-1.0", parse, 1.0, -1.0);
    DriveLine("1.0", "-1", parse, 1.0, -1.0);
  }

  /** Values below -1 pass, since only the upper bound is tested: one instance of `AcceptedMessages` that shows the missing lower bound. */
  lemma DriveBoundOneSided(parse: FloatParser)
    requires parse("-5") == Some(-5.0)
    ensures ParseMessage(Join(["drive", "-5", "-5"]), parse) == Ok(Drive(-5.0, -5.0))
  {
    DriveLine("-5", "-5", parse, -5.0, -5.0);
  }

  /** A single-spaced line of tokens splits back into them. */
  lemma SplitsAs(ts: seq<string>)
    requires AllTokens(ts)
    ensures SplitWhitespace(Join(ts)) == ts
  {
    SplitJoin(ts);
  }
}

/**
 * The later draft of the drive parser in
 * src/comms/driver_station/parsing/mod.rs, a `Command` whose word is
 * "drive". Its `parse` reads both speeds from the second field and never
 * checks the field count; `ParseAsWritten` keeps that form, and `Parse`
 * reads the third field for the right speed and refuses a wrong field count.
 * The enable, disable, kill, revive and brake helpers of that file are the
 * same as those of `DsParsing`.
 */
module DsDriveCommand {
  import opened Shared
  import opened Logging
  import opened CommsReport
  import opened DsParsing

  const INDEX_PANIC: string := "index out of bounds"

  /** `get_command`. */
  function GetCommand(): string
  {
    "drive"
  }

  /** `DriveCommand::parse` as written: fewer than two fields panic, and both speeds come from `args[1]`. */
  function ParseAsWritten(args: seq<string>, parse: FloatParser): (r: Outcome<Result<ReceivableMessage, Report>>)
    ensures r.Panicked? <==> |args| < 2
    ensures r.Done? && r.value.Ok? ==> r.value.value.Drive? && r.value.value.leftSpeed == r.value.value.rightSpeed
  {
    if |args| < 2 then Panicked(INDEX_PANIC)
    else
      var leftParseResult, rightParseResult := parse(args[1]), parse(args[1]);
      if leftParseResult.Some? && rightParseResult.Some? then
        if leftParseResult.value > 1.0 || rightParseResult.value > 1.0 then Done(Err(Log(LogData(Warning, SPEED_TOO_HIGH))))
        else Done(Ok(Drive(leftParseResult.value, rightParseResult.value)))
      else Done(Err(Log(LogData(Warning, UNPARSEABLE_SPEED))))
  }

  /** The as-written parser turns "drive 0.5 -0.5" into Drive(0.5, 0.5) and panics on a lone "drive". */
  lemma ParseAsWrittenDropsRight(parse: FloatParser)
    requires parse("0.5") == Some(0.5) && parse("-0.5") == Some(-0.5)
    ensures ParseAsWritten(["drive", "0.5", "-0.5"], parse) == Done(Ok(Drive(0.5, 0.5)))
    ensures ParseAsWritten(["drive"], parse).Panicked?
    ensures Parse(["drive", "0.5", "-0.5"], parse) == Ok(Drive(0.5, -0.5))
  {
  }

  /** The intended parser: three fields, each speed from its own field, neither above 1. */
  function Parse(args: seq<string>, parse: FloatParser): (r: Result<ReceivableMessage, Report>)
    ensures r.Ok? <==> (|args| == 3 && parse(args[1]).Some? && parse(args[2]).Some?
                       && parse(args[1]).value <= 1.0 && parse(args[2]).value <= 1.0)
    ensures r.Ok? ==> r.value == Drive(parse(args[1]).value, parse(args[2]).value)
    ensures |args| != 3 ==> r == Err(WrongArgCount(args, 2, |args|))
    ensures |args| == 3 && (parse(args[1]).None? || parse(args[2]).None?) ==> r == Err(Log(LogData(Warning, UNPARSEABLE_SPEED)))
  {
    if |args| != 3 then Err(WrongArgCount(args, 2, |args|))
    else
      var leftParseResult, rightParseResult := parse(args[1]), parse(args[2]);
      if leftParseResult.Some? && rightParseResult.Some? then
        if leftParseResult.value > 1.0 || rightParseResult.value > 1.0 then Err(Log(LogData(Warning, SPEED_TOO_HIGH)))
        else Ok(Drive(leftParseResult.value, rightParseResult.value))
      else Err(Log(LogData(Warning, UNPARSEABLE_SPEED)))
  }

  /** The intended parser agrees with the one `parse_message` uses on every field list. */
  lemma ParseAgreesWithParseMessage(args: seq<string>, parse: FloatParser)
    ensures Parse(args, parse).Ok? <==> ParseDriveCommand(Text.Join(args), args, parse).Ok?
    ensures Parse(args, parse).Ok? ==> Parse(args, parse) == ParseDriveCommand(Text.Join(args), args, parse)
  {
  }
}
