/**
 * The message parser of src/comms/parsing.rs: command parsers registered
 * under the id field that selects them. Applying a stored parser to the
 * fields is the parameter `read`, since the parsers are trait objects.
 */
module CommsParsing {
  import opened Shared
  import opened Logging
  import opened Text
  import opened CommsReport

  const EMPTY_COMMAND: string := "Received empty command!"
  const UNKNOWN_COMMAND: string := "Received unknown command!"
  const DUPLICATE_READER: string := "Attempted to add duplicate reader!"

  class MessageParser<P> {
    var readers: map<string, P>

    /** `new`: no readers. */
    constructor ()
      ensures readers == map[]
    {
      readers := map[];
    }

    /** A blank message is empty, an unregistered id is unknown, and a registered one gets all the fields, id included. */
    function Parse<C>(message: string, read: (P, seq<string>) -> Result<C, Report>): (r: Result<C, Report>)
      reads this
      ensures SplitWhitespace(message) == [] ==> r == Err(Log(LogData(Error, EMPTY_COMMAND)))
      ensures SplitWhitespace(message) != [] && SplitWhitespace(message)[0] !in readers ==>
        r == Err(Log(LogData(Error, UNKNOWN_COMMAND)))
      ensures SplitWhitespace(message) != [] && SplitWhitespace(message)[0] in readers ==>
        r == read(readers[SplitWhitespace(message)[0]], SplitWhitespace(message))
    {
      SplitYieldsTokens(message);
      TrimEachTokens(SplitWhitespace(message));
      var splitMessage := TrimEach(SplitWhitespace(message));
      if splitMessage == [] then Err(Log(LogData(Error, EMPTY_COMMAND)))
      else if splitMessage[0] in readers then read(readers[splitMessage[0]], splitMessage)
      else Err(Log(LogData(Error, UNKNOWN_COMMAND)))
    }

    /** The reader is stored under `id` either way; a second reader for the same id then panics. */
    method AddReader(id: string, reader: P) returns (r: Outcome<()>)
      modifies this
      ensures readers == old(readers)[id := reader]
      ensures r.Panicked? <==> id in old(readers)
      ensures r.Panicked? ==> r.message == DUPLICATE_READER
    {
      var existed := id in readers;
      readers := readers[id := reader];
      if existed {
        r := Panicked(DUPLICATE_READER);
      } else {
        r := Done(());
      }
    }
  }

  /** A new parser finds every non-blank message unknown. */
  lemma NewParserKnowsNothing<P, C>(p: MessageParser<P>, message: string, read: (P, seq<string>) -> Result<C, Report>)
    requires p.readers == map[] && SplitWhitespace(message) != []
    ensures p.Parse(message, read) == Err(Log(LogData(Error, UNKNOWN_COMMAND)))
  {
  }
}

/**
 * The function-pointer variant of src/comms/reading.rs: a `Command` stores
 * the handler it applies to the robot interface, a `CommandReader` the
 * function that reads split fields, and a `Parser` the readers by id. A
 * handler's effect is modelled as the interface state it leaves behind.
 */
module Reading {
  import opened Shared
  import opened Logging
  import opened Text
  import opened CommsReport

  const EMPTY_COMMAND: string := "Received empty command!"
  const UNKNOWN_COMMAND: string := "Received unknown command!"
  const DUPLICATE_READER: string := "Attempted to add duplicate reader!"

  datatype Command<!I> = Command(handler: I -> I)
  {
    function Accept(interface: I): I
    {
      handler(interface)
    }
  }

  datatype CommandReader<!I> = CommandReader(reader: seq<string> -> Result<Command<I>, Report>)
  {
    function Read(splitCommand: seq<string>): Result<Command<I>, Report>
    {
      reader(splitCommand)
    }
  }

  /** `accept` runs the handler given to `new`, and `read` the reader given to `new`. */
  lemma StoredFunctionsApplied<I>(handler: I -> I, reader: seq<string> -> Result<Command<I>, Report>, interface: I, split: seq<string>)
    ensures Command(handler).Accept(interface) == handler(interface)
    ensures CommandReader(reader).Read(split).Ok? <==> reader(split).Ok?
    ensures CommandReader(reader).Read(split).Ok? ==> CommandReader(reader).Read(split).value.handler == reader(split).value.handler
  {
  }

  class Parser<I> {
    var readers: map<string, CommandReader<I>>

    constructor ()
      ensures readers == map[]
    {
      readers := map[];
    }

    /** A blank message is empty, an unregistered id is unknown, and a registered one is read from all the fields. */
    function Parse(message: string): (r: Result<Command<I>, Report>)
      reads this
      ensures SplitWhitespace(message) == [] ==> r.Err? && r.error == Log(LogData(Error, EMPTY_COMMAND))
      ensures SplitWhitespace(message) != [] && SplitWhitespace(message)[0] !in readers ==>
        r.Err? && r.error == Log(LogData(Error, UNKNOWN_COMMAND))
      ensures SplitWhitespace(message) != [] && SplitWhitespace(message)[0] in readers ==>
        r == readers[SplitWhitespace(message)[0]].Read(SplitWhitespace(message))
    {
      SplitYieldsTokens(message);
      TrimEachTokens(SplitWhitespace(message));
      var splitMessage := TrimEach(SplitWhitespace(message));
      if splitMessage == [] then Err(Log(LogData(Error, EMPTY_COMMAND)))
      else if splitMessage[0] in readers then readers[splitMessage[0]].Read(splitMessage)
      else Err(Log(LogData(Error, UNKNOWN_COMMAND)))
    }

    method AddReader(id: string, reader: CommandReader<I>) returns (r: Outcome<()>)
      modifies this
      ensures readers == old(readers)[id := reader]
      ensures r.Panicked? <==> id in old(readers)
      ensures r.Panicked? ==> r.message == DUPLICATE_READER
    {
      var existed := id in readers;
      readers := readers[id := reader];
      if existed {
        r := Panicked(DUPLICATE_READER);
      } else {
        r := Done(());
      }
    }
  }
}

/**
 * The driver-station commands of src/comms/driver_station/commands: six
 * parsers, the commands they build, what each command asks of the robot
 * interface, and the registry that `create_command_parser` builds. Number
 * parsing, the float formatting of `{}`, and the `FromStr`/`ToString` of
 * `SubsystemIdentifier` are not part of the model and are parameters.
 */
module DsCommands {
  import opened Shared
  import opened Logging
  import opened Text
  import opened CommsReport
  import CommsParsing

  datatype SubsystemIdentifier = DriveTrainIdentifier

  datatype DsCommand =
    | DriveCommand(leftSpeed: real, rightSpeed: real)
    | BrakeCommand
    | KillCommand
    | ReviveCommand
    | EnableCommand(subsystem: SubsystemIdentifier)
    | DisableCommand(subsystem: SubsystemIdentifier)

  /** The `DriveTrainCommand`s these commands send. */
  datatype DriveTrainMessage = Stop | Revive

  /** The one call `execute` makes on the interface. */
  datatype InterfaceCall =
    | DriveInterfaceDrive(leftSpeed: real, rightSpeed: real)
    | DriveInterfaceEnable
    | DriveInterfaceDisable
    | InterfaceKill
    | SendDriveTrainCommand(command: DriveTrainMessage)

  type FloatParser = string -> Option<real>
  type FloatFormatter = real -> string
  type SubsystemParser = string -> Result<SubsystemIdentifier, Report>
  type SubsystemFormatter = SubsystemIdentifier -> string

  const INDEX_PANIC: string := "index out of bounds"

  function Execute(command: DsCommand): InterfaceCall
  {
    match command
    case DriveCommand(l, r) => DriveInterfaceDrive(l, r)
    case BrakeCommand => SendDriveTrainCommand(Stop)
    case KillCommand => InterfaceKill
    case ReviveCommand => SendDriveTrainCommand(Revive)
    case EnableCommand(DriveTrainIdentifier) => DriveInterfaceEnable
    case DisableCommand(DriveTrainIdentifier) => DriveInterfaceDisable
  }

  /** Different commands make different calls, so each call tells which command ran. */
  lemma ExecuteInjective(a: DsCommand, b: DsCommand)
    ensures Execute(a) == Execute(b) ==> a == b
    ensures Execute(KillCommand) == InterfaceKill && Execute(BrakeCommand) == SendDriveTrainCommand(Stop)
    ensures Execute(ReviveCommand) == SendDriveTrainCommand(Revive)
  {
  }

  function ToString(command: DsCommand, formatFloat: FloatFormatter, subsystemName: SubsystemFormatter): string
  {
    match command
    case DriveCommand(l, r) => "drive " + formatFloat(l) + " " + formatFloat(r)
    case BrakeCommand => "brake"
    case KillCommand => "kill"
    case ReviveCommand => "revive"
    case EnableCommand(s) => "enable " + subsystemName(s)
    case DisableCommand(s) => "disable " + subsystemName(s)
  }

  function InvalidArgument(which: string, args: seq<string>): string
  {
    "Error: received invalid " + which + " in command '" + RebuildMessage(args) + "'"
  }

  /** Exactly three fields; both numbers give a drive command with no range check, and each kind of bad number its own error. */
  function ParseDrive(args: seq<string>, parse: FloatParser): (r: Result<DsCommand, Report>)
    ensures r.Ok? <==> |args| == 3 && parse(args[1]).Some? && parse(args[2]).Some?
    ensures r.Ok? ==> r.value == DriveCommand(parse(args[1]).value, parse(args[2]).value)
    ensures |args| != 3 ==> r == Err(WrongArgCount(args, 3, |args|))
    ensures |args| == 3 && parse(args[1]).None? && parse(args[2]).Some? ==>
      r == Err(Log(LogData(Error, InvalidArgument("left argument", args))))
    ensures |args| == 3 && parse(args[1]).Some? && parse(args[2]).None? ==>
      r == Err(Log(LogData(Error, InvalidArgument("right argument", args))))
    ensures |args| == 3 && parse(args[1]).None? && parse(args[2]).None? ==>
      r == Err(Log(LogData(Error, InvalidArgument("arguments", args))))
  {
    if |args| == 3 then
      match (parse(args[1]), parse(args[2]))
      case (Some(leftSpeed), Some(rightSpeed)) => Ok(DriveCommand(leftSpeed, rightSpeed))
      case (None, Some(_)) => Err(Log(LogData(Error, InvalidArgument("left argument", args))))
      case (Some(_), None) => Err(Log(LogData(Error, InvalidArgument("right argument", args))))
      case (None, None) => Err(Log(LogData(Error, InvalidArgument("arguments", args))))
    else Err(WrongArgCount(args, 3, |args|))
  }

  /** The three invalid-number errors are distinct. */
  lemma InvalidArgumentsDistinct(args: seq<string>)
    ensures InvalidArgument("left argument", args) != InvalidArgument("right argument", args)
    ensures InvalidArgument("left argument", args) != InvalidArgument("arguments", args)
    ensures InvalidArgument("right argument", args) != InvalidArgument("arguments", args)
  {
    var prefix := "Error: received invalid ";
    assert InvalidArgument("left argument", args)[|prefix|] == 'l';
    assert InvalidArgument("right argument", args)[|prefix|] == 'r';
    assert InvalidArgument("arguments", args)[|prefix|] == 'a';
  }

  /** The shared subsystem step of the enable and disable parsers as written: no lower bound on the field count. */
  function ParseSubsystemFieldAsWritten(args: seq<string>, parseSubsystem: SubsystemParser): (r: Outcome<Result<SubsystemIdentifier, Report>>)
    ensures r.Panicked? <==> |args| < 2
    ensures |args| > 2 ==> r == Done(Err(WrongArgCount(args, 2, |args|)))
    ensures |args| == 2 ==> r == Done(parseSubsystem(args[1]))
  {
    if |args| > 2 then Done(Err(WrongArgCount(args, 2, |args|)))
    else if |args| < 2 then Panicked(INDEX_PANIC)
    else Done(parseSubsystem(args[1]))
  }

  /** `enable_command.rs`'s parser as written: a lone field panics, and otherwise it answers as `ParseEnable` does. */
  function ParseEnableAsWritten(args: seq<string>, parseSubsystem: SubsystemParser): (r: Outcome<Result<DsCommand, Report>>)
    ensures r.Panicked? <==> |args| < 2
    ensures r.Done? ==> r.value == ParseEnable(args, parseSubsystem)
  {
    SubsystemFieldAgrees(args, parseSubsystem);
    match ParseSubsystemFieldAsWritten(args, parseSubsystem)
    case Panicked(m) => Panicked(m)
    case Done(Err(e)) => Done(Err(e))
    case Done(Ok(s)) => Done(Ok(EnableCommand(s)))
  }

  /** `disable_command.rs`'s parser as written: a lone field panics, and otherwise it answers as `ParseDisable` does. */
  function ParseDisableAsWritten(args: seq<string>, parseSubsystem: SubsystemParser): (r: Outcome<Result<DsCommand, Report>>)
    ensures r.Panicked? <==> |args| < 2
    ensures r.Done? ==> r.value == ParseDisable(args, parseSubsystem)
  {
    SubsystemFieldAgrees(args, parseSubsystem);
    match ParseSubsystemFieldAsWritten(args, parseSubsystem)
    case Panicked(m) => Panicked(m)
    case Done(Err(e)) => Done(Err(e))
    case Done(Ok(s)) => Done(Ok(DisableCommand(s)))
  }

  /** A lone "enable" or "disable" reaches `args[1]` and panics. */
  lemma LoneTogglePanics(parseSubsystem: SubsystemParser)
    ensures ParseEnableAsWritten(["enable"], parseSubsystem).Panicked?
    ensures ParseDisableAsWritten(["disable"], parseSubsystem).Panicked?
    ensures ParseEnable(["enable"], parseSubsystem) == Err(WrongArgCount(["enable"], 2, 1))
    ensures ParseDisable(["disable"], parseSubsystem) == Err(WrongArgCount(["disable"], 2, 1))
  {
  }

  /** The intended subsystem step: exactly two fields, the second naming the subsystem. */
  function ParseSubsystemField(args: seq<string>, parseSubsystem: SubsystemParser): (r: Result<SubsystemIdentifier, Report>)
    ensures |args| != 2 ==> r == Err(WrongArgCount(args, 2, |args|))
    ensures |args| == 2 ==> r == parseSubsystem(args[1])
  {
    if |args| != 2 then Err(WrongArgCount(args, 2, |args|)) else parseSubsystem(args[1])
  }

  /** Where the as-written step does not panic, the intended one gives the same result. */
  lemma SubsystemFieldAgrees(args: seq<string>, parseSubsystem: SubsystemParser)
    ensures ParseSubsystemFieldAsWritten(args, parseSubsystem).Done? ==>
      ParseSubsystemFieldAsWritten(args, parseSubsystem).value == ParseSubsystemField(args, parseSubsystem)
  {
  }

  function ParseEnable(args: seq<string>, parseSubsystem: SubsystemParser): (r: Result<DsCommand, Report>)
    ensures r.Ok? <==> |args| == 2 && parseSubsystem(args[1]).Ok?
    ensures r.Ok? ==> r.value == EnableCommand(parseSubsystem(args[1]).value)
    ensures |args| == 2 && parseSubsystem(args[1]).Err? ==> r == Err(parseSubsystem(args[1]).error)
  {
    match ParseSubsystemField(args, parseSubsystem)
    case Err(e) => Err(e)
    case Ok(s) => Ok(EnableCommand(s))
  }

  function ParseDisable(args: seq<string>, parseSubsystem: SubsystemParser): (r: Result<DsCommand, Report>)
    ensures r.Ok? <==> |args| == 2 && parseSubsystem(args[1]).Ok?
    ensures r.Ok? ==> r.value == DisableCommand(parseSubsystem(args[1]).value)
    ensures |args| == 2 && parseSubsystem(args[1]).Err? ==> r == Err(parseSubsystem(args[1]).error)
  {
    match ParseSubsystemField(args, parseSubsystem)
    case Err(e) => Err(e)
    case Ok(s) => Ok(DisableCommand(s))
  }

  /** The kill, revive and brake parsers: more than one field is a wrong count, otherwise the command. */
  function ParseNullary(args: seq<string>, command: DsCommand): (r: Result<DsCommand, Report>)
    ensures r.Ok? <==> |args| <= 1
    ensures r.Ok? ==> r.value == command
    ensures r.Err? ==> r.error == WrongArgCount(args, 1, |args|)
  {
    if |args| > 1 then Err(WrongArgCount(args, 1, |args|)) else Ok(command)
  }

  datatype ParserKind = DriveParser | BrakeParser | KillParser | ReviveParser | EnableParser | DisableParser

  /** Each parser kind runs its own parser. */
  function Apply(kind: ParserKind, args: seq<string>, parse: FloatParser, parseSubsystem: SubsystemParser): Result<DsCommand, Report>
  {
    match kind
    case DriveParser => ParseDrive(args, parse)
    case BrakeParser => ParseNullary(args, BrakeCommand)
    case KillParser => ParseNullary(args, KillCommand)
    case ReviveParser => ParseNullary(args, ReviveCommand)
    case EnableParser => ParseEnable(args, parseSubsystem)
    case DisableParser => ParseDisable(args, parseSubsystem)
  }

  /** The parser kinds as written: the enable and disable parsers panic on a lone field, and elsewhere agree with `Apply`. */
  function ApplyAsWritten(kind: ParserKind, args: seq<string>, parse: FloatParser, parseSubsystem: SubsystemParser): (r: Outcome<Result<DsCommand, Report>>)
    ensures r.Panicked? <==> (kind == EnableParser || kind == DisableParser) && |args| < 2
    ensures r.Done? ==> r.value == Apply(kind, args, parse, parseSubsystem)
  {
    match kind
    case EnableParser => ParseEnableAsWritten(args, parseSubsystem)
    case DisableParser => ParseDisableAsWritten(args, parseSubsystem)
    case _ => Done(Apply(kind, args, parse, parseSubsystem))
  }

  /** The ids and parsers `create_command_parser` registers. */
  function Registry(): map<string, ParserKind>
  {
    map["drive" := DriveParser, "brake" := BrakeParser, "kill" := KillParser,
        "revive" := ReviveParser, "enable" := EnableParser, "disable" := DisableParser]
  }

  /** The registry holds exactly the six ids. */
  lemma RegistryIds()
    ensures Registry().Keys == {"drive", "brake", "kill", "revive", "enable", "disable"}
  {
  }

  /** The parser kind stored under each id. */
  lemma RegistryEntries()
    ensures Registry()["drive"] == DriveParser && Registry()["brake"] == BrakeParser && Registry()["kill"] == KillParser
    ensures Registry()["revive"] == ReviveParser && Registry()["enable"] == EnableParser && Registry()["disable"] == DisableParser
  {
  }

  /** Registers the six parsers; the ids are distinct, so no registration panics. */
  method CreateCommandParser() returns (parser: CommsParsing.MessageParser<ParserKind>, r: Outcome<()>)
    ensures fresh(parser)
    ensures parser.readers == Registry()
    ensures r.Done?
  {
    parser := new CommsParsing.MessageParser();
    r := parser.AddReader("drive", DriveParser);
    if r.Panicked? {
      return;
    }
    r := parser.AddReader("brake", BrakeParser);
    if r.Panicked? {
      return;
    }
    r := parser.AddReader("kill", KillParser);
    if r.Panicked? {
      return;
    }
    r := parser.AddReader("revive", ReviveParser);
    if r.Panicked? {
      return;
    }
    r := parser.AddReader("enable", EnableParser);
    if r.Panicked? {
      return;
    }
    r := parser.AddReader("disable", DisableParser);
  }

  /** Parsing with the registry: any first field but the six ids is unknown, and each id runs its own parser. */
  lemma RegistryDispatch(p: CommsParsing.MessageParser<ParserKind>, message: string, parse: FloatParser, parseSubsystem: SubsystemParser)
    requires p.readers == Registry() && SplitWhitespace(message) != []
    ensures SplitWhitespace(message)[0] !in Registry().Keys ==>
      p.Parse(message, (k, args) => Apply(k, args, parse, parseSubsystem)) == Err(Log(LogData(Error, CommsParsing.UNKNOWN_COMMAND)))
    ensures SplitWhitespace(message)[0] == "drive" ==>
      p.Parse(message, (k, args) => Apply(k, args, parse, parseSubsystem)) == ParseDrive(SplitWhitespace(message), parse)
    ensures SplitWhitespace(message)[0] == "brake" ==>
      p.Parse(message, (k, args) => Apply(k, args, parse, parseSubsystem)) == ParseNullary(SplitWhitespace(message), BrakeCommand)
    ensures SplitWhitespace(message)[0] == "kill" ==>
      p.Parse(message, (k, args) => Apply(k, args, parse, parseSubsystem)) == ParseNullary(SplitWhitespace(message), KillCommand)
    ensures SplitWhitespace(message)[0] == "revive" ==>
      p.Parse(message, (k, args) => Apply(k, args, parse, parseSubsystem)) == ParseNullary(SplitWhitespace(message), ReviveCommand)
    ensures SplitWhitespace(message)[0] == "enable" ==>
      p.Parse(message, (k, args) => Apply(k, args, parse, parseSubsystem)) == ParseEnable(SplitWhitespace(message), parseSubsystem)
    ensures SplitWhitespace(message)[0] == "disable" ==>
      p.Parse(message, (k, args) => Apply(k, args, parse, parseSubsystem)) == ParseDisable(SplitWhitespace(message), parseSubsystem)
  {
    var id := SplitWhitespace(message)[0];
    RegistryEntries();
    if id in Registry().Keys {
      assert p.Parse(message, (k, args) => Apply(k, args, parse, parseSubsystem))
        == Apply(Registry()[id], SplitWhitespace(message), parse, parseSubsystem);
    }
  }

  /** "drive a b" splits into its three fields. */
  lemma DriveLineFields(a: string, b: string)
    requires IsToken(a) && IsToken(b)
    ensures SplitWhitespace("drive " + a + " " + b) == ["drive", a, b]
  {
    var ts := ["drive", a, b];
    assert ts[1..] == [a, b] && ts[1..][1..] == [b];
    assert Join([a, b]) == a + " " + b;
    assert Join(ts) == "drive" + " " + (a + " " + b);
    assert "drive" + " " == "drive ";
    assert "drive " + a + " " + b == "drive " + (a + " " + b);
    assert IsToken("drive");
    SplitJoin(ts);
  }

  /** "<word> a" splits into its two fields. */
  lemma WordLineFields(word: string, a: string)
    requires IsToken(word) && IsToken(a)
    ensures SplitWhitespace(word + " " + a) == [word, a]
  {
    SplitJoin([word, a]);
  }

  /** A single word splits into itself. */
  lemma WordFields(word: string)
    requires IsToken(word)
    ensures SplitWhitespace(word) == [word]
  {
    SplitJoin([word]);
  }

  /** The fields `to_string` prints, given the fields its number and subsystem formats print. */
  function PrintedFields(c: DsCommand, formatFloat: FloatFormatter, subsystemName: SubsystemFormatter): seq<string>
  {
    match c
    case DriveCommand(l, r) => ["drive", formatFloat(l), formatFloat(r)]
    case BrakeCommand => ["brake"]
    case KillCommand => ["kill"]
    case ReviveCommand => ["revive"]
    case EnableCommand(s) => ["enable", subsystemName(s)]
    case DisableCommand(s) => ["disable", subsystemName(s)]
  }

  lemma SplitToString(c: DsCommand, formatFloat: FloatFormatter, subsystemName: SubsystemFormatter)
    requires c.DriveCommand? ==> IsToken(formatFloat(c.leftSpeed)) && IsToken(formatFloat(c.rightSpeed))
    requires c.EnableCommand? || c.DisableCommand? ==> IsToken(subsystemName(c.subsystem))
    ensures SplitWhitespace(ToString(c, formatFloat, subsystemName)) == PrintedFields(c, formatFloat, subsystemName)
  {
    match c
    case DriveCommand(l, r) => DriveLineFields(formatFloat(l), formatFloat(r));
    case BrakeCommand => assert IsToken("brake"); WordFields("brake");
    case KillCommand => assert IsToken("kill"); WordFields("kill");
    case ReviveCommand => assert IsToken("revive"); WordFields("revive");
    case EnableCommand(s) =>
      assert IsToken("enable");
      assert "enable " + subsystemName(s) == "enable" + " " + subsystemName(s);
      WordLineFields("enable", subsystemName(s));
    case DisableCommand(s) =>
      assert IsToken("disable");
      assert "disable " + subsystemName(s) == "disable" + " " + subsystemName(s);
      WordLineFields("disable", subsystemName(s));
  }

  /** The parser registered under the first printed field reads the printed fields back. */
  lemma ReadPrintedFields(c: DsCommand, parse: FloatParser, formatFloat: FloatFormatter, parseSubsystem: SubsystemParser, subsystemName: SubsystemFormatter)
    requires c.DriveCommand? ==> parse(formatFloat(c.leftSpeed)) == Some(c.leftSpeed) && parse(formatFloat(c.rightSpeed)) == Some(c.rightSpeed)
    requires c.EnableCommand? || c.DisableCommand? ==> parseSubsystem(subsystemName(c.subsystem)) == Ok(c.subsystem)
    ensures var ts := PrintedFields(c, formatFloat, subsystemName);
      ts[0] in Registry() && Apply(Registry()[ts[0]], ts, parse, parseSubsystem) == Ok(c)
  {
    var ts := PrintedFields(c, formatFloat, subsystemName);
    match c
    case DriveCommand(l, r) => assert Registry()[ts[0]] == DriveParser;
    case BrakeCommand => assert Registry()[ts[0]] == BrakeParser;
    case KillCommand => assert Registry()[ts[0]] == KillParser;
    case ReviveCommand => assert Registry()[ts[0]] == ReviveParser;
    case EnableCommand(s) => assert Registry()[ts[0]] == EnableParser;
    case DisableCommand(s) => assert Registry()[ts[0]] == DisableParser;
  }

  /**
   * `to_string` then the registered parser gives the command back, for
   * number and subsystem formats that print a single field their parsers
   * read back.
   */
  lemma ToStringRoundTrip(c: DsCommand, parse: FloatParser, formatFloat: FloatFormatter, parseSubsystem: SubsystemParser, subsystemName: SubsystemFormatter)
    requires forall x :: IsToken(formatFloat(x)) && parse(formatFloat(x)) == Some(x)
    requires forall s :: IsToken(subsystemName(s)) && parseSubsystem(subsystemName(s)) == Ok(s)
    ensures var ts := SplitWhitespace(ToString(c, formatFloat, subsystemName));
      ts != [] && ts[0] in Registry() && Apply(Registry()[ts[0]], ts, parse, parseSubsystem) == Ok(c)
  {
    if c.DriveCommand? {
      assert IsToken(formatFloat(c.leftSpeed)) && IsToken(formatFloat(c.rightSpeed));
    }
    if c.EnableCommand? || c.DisableCommand? {
      assert IsToken(subsystemName(c.subsystem));
    }
    if c.DriveCommand? {
      assert parse(formatFloat(c.leftSpeed)) == Some(c.leftSpeed) && parse(formatFloat(c.rightSpeed)) == Some(c.rightSpeed);
    }
    if c.EnableCommand? || c.DisableCommand? {
      assert parseSubsystem(subsystemName(c.subsystem)) == Ok(c.subsystem);
    }
    SplitToString(c, formatFloat, subsystemName);
    ReadPrintedFields(c, parse, formatFloat, parseSubsystem, subsystemName);
  }

  /** ["drive", "1", ".5"] and ["drive", "-1", "-.5"] give DriveCommand(1, 0.5) and DriveCommand(-1, -0.5): the source's test cases, as instances of `ParseDrive`'s contract. */
  lemma DriveExamples(parse: FloatParser)
    requires parse("1") == Some(1.0) && parse(".5") == Some(0.5)
    requires parse("-1") == Some(-1.0) && parse("-.5") == Some(-0.5)
    ensures ParseDrive(["drive", "1", ".5"], parse) == Ok(DriveCommand(1.0, 0.5))
    ensures ParseDrive(["drive", "-1", "-.5"], parse) == Ok(DriveCommand(-1.0, -0.5))
  {
  }
}
