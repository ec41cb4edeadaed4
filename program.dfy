/**
 * Program.cs: `HandleArgs`, the command-line parser that fills in the bot token, the bot
 * author and debug mode before the gateway client starts.
 *
 * `Environment.Exit(0)` on an unknown argument is the outcome `exited`; the message written
 * to the console and the wait for a key are not modelled.
 */
module Program {
  import opened Wrappers
  import opened Text
  import opened Globals

  /** What a command-line argument in flag position asks for, after `ToLower`. */
  datatype Flag = BotToken | BotAuthor | Debug | Invalid

  function FlagOf(arg: string): (f: Flag)
    ensures f == BotToken <==> ToLower(arg) in {"-bt", "-bottoken"}
    ensures f == BotAuthor <==> ToLower(arg) in {"-ba", "-botauthor"}
    ensures f == Debug <==> ToLower(arg) in {"-d", "-debug"}
    ensures f != Invalid ==> |arg| >= 2 && ToLowerChar(arg[0]) == '-'
  {
    var a := ToLower(arg);
    if a == "-bt" || a == "-bottoken" then BotToken
    else if a == "-ba" || a == "-botauthor" then BotAuthor
    else if a == "-d" || a == "-debug" then Debug
    else Invalid
  }

  /** The three settings the parser assigns. */
  datatype Config = Config(botToken: string, botAuthor: nat, debugMode: bool)

  /** How parsing ended: the settings, and whether an unknown argument made the program exit. */
  datatype Parsed = Parsed(config: Config, exited: bool)

  /** One flag's effect: how many arguments it uses up, and the settings after it; or the exit. */
  datatype Step = Consume(count: nat, config: Config) | Exit

  /**
   * The switch on one argument in flag position, given the argument after it, if any. A token
   * or author flag takes that argument as its value, whatever it looks like; with none, it is
   * ignored. An author value that is not a `ulong` is skipped. `-d` takes no value. Anything
   * else exits.
   */
  function StepOf(arg: string, value: Option<string>, c: Config): (s: Step)
    ensures s.Consume? ==> s.count == (if value.Some? && FlagOf(arg) in {BotToken, BotAuthor} then 2 else 1)
    ensures s.Exit? <==> FlagOf(arg) == Invalid
    ensures s.Consume? && s.config.botToken != c.botToken ==> value == Some(s.config.botToken)
    ensures s.Consume? ==> s.config.botAuthor == c.botAuthor || s.config.botAuthor <= UInt64Max
    ensures s.Consume? && c.debugMode ==> s.config.debugMode
  {
    match FlagOf(arg)
    case BotToken =>
      if value.None? then Consume(1, c) else Consume(2, c.(botToken := value.value))
    case BotAuthor =>
      if value.None? then Consume(1, c)
      else Consume(2, WithAuthor(c, TryParseUnsigned(value.value, UInt64Max)))
    case Debug => Consume(1, c.(debugMode := true))
    case Invalid => Exit
  }

  /** The settings after an author value: changed only when the value parsed. */
  function WithAuthor(c: Config, authortoken: Option<nat>): Config {
    if authortoken.Some? then c.(botAuthor := authortoken.value) else c
  }

  /** The argument after position `i`, if there is one. */
  function Next(args: seq<string>, i: nat): Option<string> {
    if i + 1 < |args| then Some(args[i + 1]) else Option.None
  }

  /** Parsing from position `i` with settings `c`, one flag after the other. */
  function ArgsFrom(args: seq<string>, i: nat, c: Config): (r: Parsed)
    ensures r.config.botAuthor == c.botAuthor || r.config.botAuthor <= UInt64Max
    ensures c.debugMode ==> r.config.debugMode
    ensures r.config.botToken == c.botToken || exists k :: i < k < |args| && r.config.botToken == args[k]
    decreases |args| - i
  {
    if i >= |args| then Parsed(c, false)
    else
      match StepOf(args[i], Next(args, i), c)
      case Exit => Parsed(c, true)
      case Consume(count, next) => ArgsFrom(args, i + count, next)
  }

  /** Parsing depends only on the arguments from the current position on. */
  lemma {:induction false} ArgsShift(pre: seq<string>, rest: seq<string>, k: nat, c: Config)
    ensures ArgsFrom(pre + rest, |pre| + k, c) == ArgsFrom(rest, k, c)
    decreases |rest| - k
  {
    var args := pre + rest;
    var i := |pre| + k;
    if k < |rest| {
      assert args[i] == rest[k];
      assert Next(args, i) == Next(rest, k) by {
        if k + 1 < |rest| {
          assert args[i + 1] == rest[k + 1];
        }
      }
      match StepOf(rest[k], Next(rest, k), c)
      case Exit =>
      case Consume(count, next) => ArgsShift(pre, rest, k + count, next);
    }
  }

  /** `ToLower` changes nothing the second time. */
  lemma ToLowerIdempotent(s: string)
    ensures ToLower(ToLower(s)) == ToLower(s)
  {
    var t := ToLower(s);
    assert forall i :: 0 <= i < |t| ==> ToLowerChar(t[i]) == t[i];
  }

  /** Flags are matched without regard to case. */
  lemma FlagCaseInsensitive(arg: string)
    ensures FlagOf(ToLower(arg)) == FlagOf(arg)
  {
    ToLowerIdempotent(arg);
  }

  /** `-bt value`: the token becomes the value, which is consumed even when it looks like a flag. */
  lemma TokenTakesValue(flag: string, value: string, rest: seq<string>, c: Config)
    requires FlagOf(flag) == BotToken
    ensures ArgsFrom([flag, value] + rest, 0, c) == ArgsFrom(rest, 0, c.(botToken := value))
  {
    ArgsShift([flag, value], rest, 0, c.(botToken := value));
  }

  /** `-ba value`: a `ulong` value sets the author; any other value is consumed and ignored. */
  lemma AuthorTakesValue(flag: string, value: string, rest: seq<string>, c: Config)
    requires FlagOf(flag) == BotAuthor
    ensures var authortoken := TryParseUnsigned(value, UInt64Max);
      && (authortoken.None? ==> ArgsFrom([flag, value] + rest, 0, c) == ArgsFrom(rest, 0, c))
      && (authortoken.Some? ==> ArgsFrom([flag, value] + rest, 0, c) == ArgsFrom(rest, 0, c.(botAuthor := authortoken.value)))
  {
    var next := WithAuthor(c, TryParseUnsigned(value, UInt64Max));
    assert StepOf(flag, Some(value), c) == Consume(2, next);
    ArgsShift([flag, value], rest, 0, next);
  }

  /** A token or author flag with nothing after it changes nothing. */
  lemma TrailingFlagIgnored(flag: string, c: Config)
    requires FlagOf(flag) in {BotToken, BotAuthor}
    ensures ArgsFrom([flag], 0, c) == Parsed(c, false)
  {
  }

  /** `-d`: debug mode on, nothing consumed. */
  lemma DebugTakesNothing(flag: string, rest: seq<string>, c: Config)
    requires FlagOf(flag) == Debug
    ensures ArgsFrom([flag] + rest, 0, c) == ArgsFrom(rest, 0, c.(debugMode := true))
  {
    ArgsShift([flag], rest, 0, c.(debugMode := true));
  }

  /** An unknown argument in flag position ends parsing with the settings so far. */
  lemma UnknownExits(arg: string, rest: seq<string>, c: Config)
    requires FlagOf(arg) == Invalid
    ensures ArgsFrom([arg] + rest, 0, c) == Parsed(c, true)
  {
    assert ([arg] + rest)[0] == arg;
  }

  /** Of two token flags, the later one decides. */
  lemma LaterTokenWins(first: string, second: string, rest: seq<string>, c: Config)
    ensures ArgsFrom(["-bt", first, "-bt", second] + rest, 0, c) == ArgsFrom(["-bt", second] + rest, 0, c)
  {
    assert FlagOf("-bt") == BotToken by {
      assert ToLower("-bt") == "-bt";
    }
    assert ["-bt", first, "-bt", second] + rest == ["-bt", first] + (["-bt", second] + rest);
    TokenTakesValue("-bt", first, ["-bt", second] + rest, c);
    TokenTakesValue("-bt", second, rest, c.(botToken := first));
    TokenTakesValue("-bt", second, rest, c);
  }

  /** The settings as a value. */
  function ConfigOf(settings: GlobalSettings): Config
    reads settings
  {
    Config(settings.botToken, settings.botAuthor, settings.debugMode)
  }

  /**
   * `HandleArgs`: a `for` loop over the arguments whose body moves the index past a consumed
   * value, assigning the global settings as it goes. It leaves the settings and the exit as
   * `ArgsFrom` says.
   */
  method HandleArgs(settings: GlobalSettings, args: seq<string>) returns (exited: bool)
    modifies settings
    ensures ArgsFrom(args, 0, old(ConfigOf(settings))) == Parsed(ConfigOf(settings), exited)
  {
    var i := 0;
    while i < |args|
      invariant 0 <= i <= |args|
      invariant ArgsFrom(args, 0, old(ConfigOf(settings))) == ArgsFrom(args, i, ConfigOf(settings))
      decreases |args| - i
    {
      var arg := ToLower(args[i]);
      if arg == "-bt" || arg == "-bottoken" {
        if i + 1 < |args| {
          settings.botToken := args[i + 1];
          i := i + 1;
        }
      } else if arg == "-ba" || arg == "-botauthor" {
        if i + 1 < |args| {
          var authortoken := TryParseUnsigned(args[i + 1], UInt64Max);
          if authortoken.None? {
            i := i + 1;
          } else {
            settings.botAuthor := authortoken.value;
            i := i + 1;
          }
        }
      } else if arg == "-d" || arg == "-debug" {
        settings.debugMode := true;
      } else {
        return true;
      }
      i := i + 1;
    }
    exited := false;
  }
}
