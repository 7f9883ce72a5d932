/**
 * The command-line options of `git sync`, `git pull-req` and `git new-fb`: the standard options
 * every command shares (help, version and the logging level), and each command's own flags and
 * arguments.
 *
 * The option parser itself is not modelled: what it answers for the arguments is a `ParseReply`.
 * The line separator is `"\n"`.
 */
module Cli {
  import opened Wrappers
  import opened Strings
  import Config
  import GeneralConfig

  /** What the parser found: each option given (with its argument when it took one) and the remaining arguments. */
  datatype OptionSet = OptionSet(present: map<string, Option<string>>, nonOptionArgs: seq<string>)

  /** `parser.parse(args)`: the option set, or the message of the exception it threw (which may be null). */
  datatype ParseReply = ParseFailed(message: Option<string>) | Parsed(optionSet: OptionSet)

  /** The JVM's system properties, which `Boolean.getBoolean` reads. */
  type Properties = map<string, string>

  /** `Boolean.getBoolean(name)`: the system property `name` exists and is "true", ignoring case. */
  predicate SystemFlag(props: Properties, name: string)
  {
    name in props && EqualsIgnoreCase(props[name], "true")
  }

  /**
   * `booleanValue(optionName)`: false when the option is absent, true when it is given without an
   * argument, and otherwise the system property that the argument names.
   */
  function BooleanValue(os: OptionSet, props: Properties, name: string): (r: bool)
    ensures r ==> name in os.present
    ensures name in os.present && os.present[name].None? ==> r
  {
    if name !in os.present then false
    else if os.present[name].Some? then SystemFlag(props, os.present[name].value)
    else true
  }

  /** `stringValue(optionName)`: the option's argument, if it was given with one. */
  function StringValue(os: OptionSet, name: string): (r: Option<string>)
    ensures r.Some? <==> name in os.present && os.present[name].Some?
    ensures r.Some? ==> os.present[name] == r
  {
    if name in os.present then os.present[name] else None
  }

  /** The three `setupLogging()` conflicts, checked in this order. */
  const VerboseQuietMessage: string := "--verbose and --quiet are mutually exclusive\n"
  const InfoVerboseMessage: string := "--info and --verbose are mutually exclusive\n"
  const QuietInfoMessage: string := "--quiet and --info are mutually exclusive\n"

  /** The mutual-exclusion part of `setupLogging()`: at most one of `--verbose`, `--quiet` and `--info` may be given. */
  function LoggingConflict(verbose: bool, quiet: bool, info: bool): (r: Option<string>)
    ensures r.None? <==> (if verbose then 0 else 1) + (if quiet then 0 else 1) + (if info then 0 else 1) >= 2
    ensures verbose && quiet ==> r == Some(VerboseQuietMessage)
    ensures r.Some? ==> r.value in {VerboseQuietMessage, InfoVerboseMessage, QuietInfoMessage}
  {
    if verbose && quiet then Some(VerboseQuietMessage)
    else if verbose && info then Some(InfoVerboseMessage)
    else if quiet && info then Some(QuietInfoMessage)
    else None
  }

  /** `useInfoLogging()`: `--info`, or neither of the other two. */
  function UseInfoLogging(info: bool, verbose: bool, quiet: bool): bool
  {
    info || !(verbose || quiet)
  }

  datatype Level = Info | Warn | Debug

  /** The level `setupLogging()` gives the root logger once no flags conflict. */
  function LogLevel(info: bool, verbose: bool, quiet: bool): Level
  {
    if UseInfoLogging(info, verbose, quiet) then Info else if quiet then Warn else Debug
  }

  /**
   * Once the flags do not conflict, the level is the one asked for: `DEBUG` exactly for
   * `--verbose`, `WARN` exactly for `--quiet`, and `INFO` for `--info` or no flag at all.
   */
  lemma LogLevelFollowsFlag(info: bool, verbose: bool, quiet: bool)
    requires LoggingConflict(verbose, quiet, info).None?
    ensures LogLevel(info, verbose, quiet) == Debug <==> verbose
    ensures LogLevel(info, verbose, quiet) == Warn <==> quiet
    ensures LogLevel(info, verbose, quiet) == Info <==> !verbose && !quiet
  {
  }

  /** The three commands; `git sync` reads `gitProcess.defaultRebaseSync` from the repository's configuration. */
  datatype Command = SyncCommand(generalConfig: Config.Config) | PullReqCommand | NewFeatureBranchCommand

  function Usage(command: Command): string
  {
    match command
    case SyncCommand(_) => "git sync [OPTIONS]"
    case PullReqCommand => "git pull-req [OPTIONS] \"Pull request title\""
    case NewFeatureBranchCommand => "git new-fb [OPTIONS] 'branch_name'"
  }

  function Description(command: Command): string
  {
    match command
    case SyncCommand(_) => "Syncs local changes with the server."
    case PullReqCommand => "Creates a new pull request for the current branch."
    case NewFeatureBranchCommand => "Create a new feature branch based on the integration branch."
  }

  /** `version().orElse("unknown")`. */
  function VersionText(version: Option<string>): string
  {
    version.GetOr("unknown")
  }

  /**
   * `createHelp(parser)`: the usage line, the description, the parser's own option table
   * (`parserHelp`; whatever it managed to write) and the version, separated by blank lines.
   */
  function Help(command: Command, parserHelp: string, version: Option<string>): (r: string)
    ensures StartsWith(r, "USAGE: " + Usage(command) + "\n\n" + Description(command) + "\n\n")
  {
    var head := "USAGE: " + Usage(command) + "\n\n";
    var middle := Description(command) + "\n\n" + parserHelp;
    var tail := "\nversion: " + VersionText(version) + "\n";
    head + middle + tail
  }

  /** The help text opens with the usage line and closes with the version line. */
  lemma HelpLayout(command: Command, parserHelp: string, version: Option<string>)
    ensures StartsWith(Help(command, parserHelp, version), "USAGE: " + Usage(command) + "\n\n")
    ensures EndsWith(Help(command, parserHelp, version), "\nversion: " + VersionText(version) + "\n")
  {
    var head := "USAGE: " + Usage(command) + "\n\n";
    var middle := Description(command) + "\n\n" + parserHelp;
    var tail := "\nversion: " + VersionText(version) + "\n";
    assert (head + middle + tail)[..|head|] == head;
    assert (head + middle + tail)[|head + middle|..] == tail;
  }

  /** `showHelp()` of SyncOptions: `--help`, more than one argument, or both `--merge` and `--rebase`. */
  function SyncShowHelp(os: OptionSet, props: Properties): bool
  {
    BooleanValue(os, props, "help") || |os.nonOptionArgs| > 1
    || (BooleanValue(os, props, "merge") && BooleanValue(os, props, "rebase"))
  }

  /** `showHelp()` of PullReqOptions: `--help`, more than one argument, or the same head and base branch. */
  function PullReqShowHelp(os: OptionSet, props: Properties): bool
  {
    BooleanValue(os, props, "help") || |os.nonOptionArgs| > 1
    || (HeadBranchName(os).Some? && HeadBranchName(os) == BaseBranchName(os))
  }

  /** `showHelp()` of NewFeatureBranchOptions: `--help`, or anything but exactly one argument. */
  function NewFeatureBranchShowHelp(os: OptionSet, props: Properties): bool
  {
    BooleanValue(os, props, "help") || |os.nonOptionArgs| != 1
  }

  function ShowHelp(command: Command, os: OptionSet, props: Properties): bool
  {
    match command
    case SyncCommand(_) => SyncShowHelp(os, props)
    case PullReqCommand => PullReqShowHelp(os, props)
    case NewFeatureBranchCommand => NewFeatureBranchShowHelp(os, props)
  }

  /**
   * `handleStandardOptions(parser)`: the help text when help is due, else the version when asked,
   * else the logging conflict if there is one; `None` lets the command run.
   */
  function HandleStandardOptions(command: Command, os: OptionSet, props: Properties, parserHelp: string, version: Option<string>): (r: Option<string>)
    ensures ShowHelp(command, os, props) ==> r == Some(Help(command, parserHelp, version))
    ensures !ShowHelp(command, os, props) && BooleanValue(os, props, "version") ==> r == Some("version: " + VersionText(version))
    ensures r.None? <==>
              && !ShowHelp(command, os, props) && !BooleanValue(os, props, "version")
              && LoggingConflict(BooleanValue(os, props, "verbose"), BooleanValue(os, props, "quiet"), BooleanValue(os, props, "info")).None?
  {
    if ShowHelp(command, os, props) then Some(Help(command, parserHelp, version))
    else if BooleanValue(os, props, "version") then Some("version: " + VersionText(version))
    else LoggingConflict(BooleanValue(os, props, "verbose"), BooleanValue(os, props, "quiet"), BooleanValue(os, props, "info"))
  }

  /** `parse(args)`: the message to print instead of running, or `None`; a parser exception gives its message. */
  function ParseOutcome(command: Command, props: Properties, reply: ParseReply, parserHelp: string, version: Option<string>): (r: Option<string>)
  {
    match reply
    case ParseFailed(message) => message
    case Parsed(os) => HandleStandardOptions(command, os, props, parserHelp, version)
  }

  /**
   * A command runs (no message) exactly when the arguments parsed without help, version or a
   * logging conflict, or when the parser threw an exception without a message.
   */
  lemma ParseOutcomeRuns(command: Command, props: Properties, reply: ParseReply, parserHelp: string, version: Option<string>)
    ensures ParseOutcome(command, props, reply, parserHelp, version).None? <==>
              || reply == ParseFailed(None)
              || (&& reply.Parsed? && !ShowHelp(command, reply.optionSet, props)
                  && !BooleanValue(reply.optionSet, props, "version")
                  && var os := reply.optionSet;
                     LoggingConflict(BooleanValue(os, props, "verbose"), BooleanValue(os, props, "quiet"), BooleanValue(os, props, "info")).None?)
  {
  }

  /** `Options` of one command: the option set is recorded by `parse`. */
  class Options {
    const command: Command
    const props: Properties
    var optionSet: Option<OptionSet>

    constructor (command: Command, props: Properties)
      ensures this.command == command && this.props == props && optionSet.None?
    {
      this.command := command;
      this.props := props;
      optionSet := None;
    }

    /** `parse(args)`: records the option set once the parser has produced one, then handles the standard options. */
    method Parse(reply: ParseReply, parserHelp: string, version: Option<string>) returns (r: Option<string>)
      modifies this
      ensures r == ParseOutcome(command, props, reply, parserHelp, version)
      ensures optionSet == if reply.Parsed? then Some(reply.optionSet) else old(optionSet)
    {
      match reply
      case ParseFailed(message) =>
        r := message;
      case Parsed(os) =>
        optionSet := Some(os);
        r := HandleStandardOptions(command, os, props, parserHelp, version);
    }
  }

  /**
   * `create(args, ...)` of each command: `Left` of the message to print, or `Right` of the parsed
   * options. A parser exception without a message leaves the option set null.
   */
  method Create(command: Command, props: Properties, reply: ParseReply, parserHelp: string, version: Option<string>) returns (r: Either<Options>)
    ensures r.Left? <==> ParseOutcome(command, props, reply, parserHelp, version).Some?
    ensures r.Left? ==> r.msg == ParseOutcome(command, props, reply, parserHelp, version).value
    ensures r.Right? ==> fresh(r.value) && r.value.command == command && r.value.props == props
    ensures r.Right? ==> r.value.optionSet == if reply.Parsed? then Some(reply.optionSet) else None
  {
    var options := new Options(command, props);
    var message := options.Parse(reply, parserHelp, version);
    if message.Some? {
      return Left(message.value);
    }
    r := Right(options);
  }

  // ---------------------------------------------------------------- git sync

  /** `localOnly()`: `--local`. */
  function LocalOnly(os: OptionSet, props: Properties): bool
  {
    BooleanValue(os, props, "local")
  }

  /**
   * `rebase()`: `--rebase` or the configured default, and not `--merge`. The configured default
   * is only read when `--rebase` is absent, and reading it may throw.
   */
  function Rebase(os: OptionSet, props: Properties, c: Config.Config): (r: Try<bool>)
  {
    if BooleanValue(os, props, "rebase") then Ok(!BooleanValue(os, props, "merge"))
    else
      match GeneralConfig.DefaultRebaseSync(c)
      case Thrown(e) => Thrown(e)
      case Ok(d) => Ok(d && !BooleanValue(os, props, "merge"))
  }

  /**
   * `merge()`: `--merge`, or neither `--rebase` nor the configured default. The default is only
   * read when both flags are absent.
   */
  function Merge(os: OptionSet, props: Properties, c: Config.Config): (r: Try<bool>)
  {
    if BooleanValue(os, props, "merge") || BooleanValue(os, props, "rebase") then Ok(BooleanValue(os, props, "merge"))
    else
      match GeneralConfig.DefaultRebaseSync(c)
      case Thrown(e) => Thrown(e)
      case Ok(d) => Ok(!d)
  }

  /**
   * Exactly one way of combining is chosen: when both answers are known they are opposite, and
   * they are both known whenever the configured default can be read.
   */
  lemma RebaseIsNotMerge(os: OptionSet, props: Properties, c: Config.Config)
    ensures GeneralConfig.DefaultRebaseSync(c).Ok? ==> Rebase(os, props, c).Ok? && Merge(os, props, c).Ok?
    ensures Rebase(os, props, c).Ok? && Merge(os, props, c).Ok? ==> Rebase(os, props, c).value == !Merge(os, props, c).value
    ensures Merge(os, props, c).Thrown? ==> Rebase(os, props, c) == Merge(os, props, c)
  {
  }

  /**
   * With neither flag the configured default decides; `--merge` always merges; `--rebase`
   * without `--merge` always rebases.
   */
  lemma SyncFlagsDecide(os: OptionSet, props: Properties, c: Config.Config)
    ensures !BooleanValue(os, props, "rebase") && !BooleanValue(os, props, "merge") ==>
              Rebase(os, props, c) == GeneralConfig.DefaultRebaseSync(c)
    ensures BooleanValue(os, props, "merge") ==> Merge(os, props, c) == Ok(true) && Rebase(os, props, c) != Ok(true)
    ensures BooleanValue(os, props, "rebase") && !BooleanValue(os, props, "merge") ==>
              Rebase(os, props, c) == Ok(true) && Merge(os, props, c) == Ok(false)
  {
  }

  /** A sync that is allowed to run never has both flags: that combination shows the help. */
  lemma SyncRunsWithoutBothFlags(os: OptionSet, props: Properties)
    requires !SyncShowHelp(os, props)
    ensures !(BooleanValue(os, props, "merge") && BooleanValue(os, props, "rebase"))
    ensures |os.nonOptionArgs| <= 1
  {
  }

  // ---------------------------------------------------------------- git pull-req

  /**
   * `issueOrPrID()`: the first argument read as a Java `int` (`Integer.valueOf`), or null when
   * there is no argument or it is not a number.
   */
  function IssueOrPrId(os: OptionSet): (r: Option<int>)
    ensures r.Some? ==> |os.nonOptionArgs| >= 1 && ParseInt(os.nonOptionArgs[0]) == r
    ensures |os.nonOptionArgs| >= 1 && ParseInt(os.nonOptionArgs[0]).Some? ==> r.Some?
  {
    if |os.nonOptionArgs| < 1 then None else ParseInt(os.nonOptionArgs[0])
  }

  /** `prTitle()`: the single argument when it is not a number. */
  function PrTitle(os: OptionSet): (r: Option<string>)
  {
    if IssueOrPrId(os).Some? then None
    else if |os.nonOptionArgs| == 1 then Some(os.nonOptionArgs[0])
    else None
  }

  /**
   * The argument is an issue number or a title, never both: with exactly one argument it is
   * exactly one of them, and the title is then the argument itself.
   */
  lemma IssueOrTitle(os: OptionSet)
    ensures !(IssueOrPrId(os).Some? && PrTitle(os).Some?)
    ensures |os.nonOptionArgs| == 1 ==> (IssueOrPrId(os).Some? != PrTitle(os).Some?)
    ensures PrTitle(os).Some? ==> |os.nonOptionArgs| == 1 && PrTitle(os).value == os.nonOptionArgs[0]
                                  && ParseInt(os.nonOptionArgs[0]).None?
    ensures |os.nonOptionArgs| == 0 ==> IssueOrPrId(os).None? && PrTitle(os).None?
  {
  }

  /** A number given as the argument is read back as that number. */
  lemma IssueNumberRoundTrip(os: OptionSet, id: int)
    requires IntMin <= id <= IntMax && |os.nonOptionArgs| >= 1 && os.nonOptionArgs[0] == IntToString(id)
    ensures IssueOrPrId(os) == Some(id) && PrTitle(os).None?
  {
    ParseIntToString(id);
  }

  function BaseBranchName(os: OptionSet): Option<string> { StringValue(os, "base-branch") }
  function HeadBranchName(os: OptionSet): Option<string> { StringValue(os, "head-branch") }
  /** `remoteName()` reads an option the parser never declares. */
  function PullReqRemoteName(os: OptionSet): Option<string> { StringValue(os, "remote-name") }
  function Username(os: OptionSet): Option<string> { StringValue(os, "username") }
  function Password(os: OptionSet): Option<string> { StringValue(os, "password") }
  /**
   * The `--description` argument. `PullReqOptions` declares the option but has no accessor for
   * it; only the corrected pull-request runner reads it.
   */
  function PullReqDescription(os: OptionSet): (r: Option<string>)
    ensures r.Some? <==> "description" in os.present && os.present["description"].Some?
    ensures r.Some? ==> os.present["description"] == r
  {
    StringValue(os, "description")
  }

  /** The accessors give an option's argument exactly when it was given with one. */
  lemma PullReqAccessors(os: OptionSet)
    ensures HeadBranchName(os).Some? <==> "head-branch" in os.present && os.present["head-branch"].Some?
    ensures BaseBranchName(os).Some? <==> "base-branch" in os.present && os.present["base-branch"].Some?
    ensures Username(os).Some? ==> os.present["username"] == Username(os)
    ensures Password(os).Some? ==> os.present["password"] == Password(os)
    ensures PullReqDescription(os).Some? ==> os.present["description"] == PullReqDescription(os)
    ensures PullReqRemoteName(os).Some? ==> os.present["remote-name"] == PullReqRemoteName(os)
  {
  }

  /** A pull request that is allowed to run names distinct head and base branches when it names a head. */
  lemma PullReqRunsWithDistinctBranches(os: OptionSet, props: Properties)
    requires !PullReqShowHelp(os, props)
    ensures HeadBranchName(os).Some? ==> HeadBranchName(os) != BaseBranchName(os)
    ensures |os.nonOptionArgs| <= 1
  {
  }

  // ---------------------------------------------------------------- git new-fb

  /** `branchName()`: the first argument; reading it from an empty list throws. */
  function BranchName(os: OptionSet): (r: Try<string>)
    ensures r.Thrown? <==> |os.nonOptionArgs| == 0
    ensures r.Thrown? ==> r.ex == IndexOutOfBounds
    ensures r.Ok? ==> r.value == os.nonOptionArgs[0]
  {
    if |os.nonOptionArgs| == 0 then Thrown(IndexOutOfBounds) else Ok(os.nonOptionArgs[0])
  }

  /** A new-feature-branch command that is allowed to run has exactly one argument, which is the branch name. */
  lemma NewFeatureBranchHasName(os: OptionSet, props: Properties)
    requires !NewFeatureBranchShowHelp(os, props)
    ensures |os.nonOptionArgs| == 1 && BranchName(os) == Ok(os.nonOptionArgs[0])
  {
  }
}
