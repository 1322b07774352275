/**
 * The `setup` / `unsetup` command (python/eups/setupcmd.py).
 *
 * `EupsSetup` holds the parsed command line.  `Run` answers help, version and
 * the deprecated options itself; otherwise `Execute` normalises the request
 * (reconciling --exact/--inexact, --table, --root, --just and --vro), hands
 * it to the EUPS engine and prints the shell commands the engine returns.
 * Every early stop is an exit status.  A failure leaves as an exception,
 * which the command tags with the exit status it should cause, with one
 * exception: one raised by guessing the product from --root that is not an
 * EupsException passes untagged.  As written, the status a failing command
 * callback is tagged with is overwritten by the handlers around the whole
 * work phase; `ExecuteSpec` and `RunSpec` take a flag choosing between that
 * and the evidently intended behaviour, and the class does what is written.
 *
 * What the command cannot see is a parameter: the option parser, the
 * filesystem, `guessProduct` and the hooks configuration form a `Host`; the
 * engine steps (building the `Eups` object, `setVRO`, the command callbacks
 * and `eups.setup`) form an `Engine`, each step an opaque function that may
 * throw.
 */
module SetupCmd {
  import opened Optional
  import opened Sequences

  /** Python truthiness of an optional string: present and not empty. */
  predicate Truthy(o: Option<string>)
  {
    o.Some? && o.value != ""
  }

  /** The options `execute` hands on to the engine untouched, and `--debug`, which the command never reads. */
  datatype Settings = Settings(
    flavor: Option<string>,  // -f, --flavor
    path: Option<string>,    // -Z, --database
    setuptype: Option<string>, // -T, --type
    force: bool,             // -F, --force
    keep: bool,              // -k, --keep
    noaction: bool,          // -n, --noaction
    ignoreVer: bool,         // -i, --ignore-versions
    debug: string)           // --debug

  /** The parsed options (`self.opts`), one field per option destination the command reads or writes. */
  datatype Options = Options(
    help: bool,              // -h, --help
    version: bool,           // -V, --version
    list: bool,              // -l, --list (deprecated)
    current: bool,           // -C, --current (deprecated)
    exactVersion: bool,      // -e, --exact
    inexactVersion: bool,    // -E, --inexact
    tablefile: Option<string>, // -m, --table
    unsetup: bool,           // -u, --unsetup
    productDir: Option<string>, // -r, --root
    quiet: bool,             // -q, --quiet
    verbose: nat,            // -v, --verbose (a count)
    tag: Option<string>,     // -t, --tag
    nodepend: bool,          // -j, --just
    maxDepth: int,           // -S, --max-depth (default -1)
    vro: Option<string>,     // --vro
    dbz: Option<string>,     // -z, --select-db
    settings: Settings)      // the rest

  /** An exception raised by code the command calls: is it an EupsException, an OperationForbidden? */
  datatype Thrown = Thrown(eups: bool, forbidden: bool, message: string)

  /** What `eups.utils.guessProduct` does: return a (possibly empty) name, or raise. */
  datatype Guess = Guessed(name: Option<string>) | GuessRaised(exc: Thrown)

  /** The world outside the command as far as it reads it. */
  datatype Host = Host(
    argv: seq<string>,                                  // sys.argv
    setupCmdName: Option<string>,                       // hooks.config.Eups.setupCmdName
    defaultVro: string,                                 // hooks.config.Eups.VRO
    parse: seq<string> -> (Options, seq<string>),       // EupsOptionParser.parse_args
    usage: string,                                      // the parser's usage text
    eupsVersion: string,                                // eups.version()
    pathExists: string -> bool,                             // os.path.exists
    abspath: string -> string,                          // os.path.abspath
    dirname: string -> string,                          // os.path.dirname
    basename: string -> string,                         // os.path.basename
    stripExtension: string -> string,                   // os.path.splitext(...)[0]
    join: (string, string) -> string,                   // os.path.join
    guessProduct: (string, Option<string>) -> Guess)    // eups.utils.guessProduct

  /** A normalised request, as handed to `eups.setup`. */
  datatype Request = Request(
    productName: string,
    versionName: Option<string>,
    vroTag: string,
    cmdName: string,
    opts: Options)

  /** What an engine call that yields a value does: return it, or raise. */
  datatype Attempt<T> = Returned(value: T) | Threw(exc: Thrown)

  /** The engine steps of the work phase; `None` means the step returned normally. */
  datatype Engine = Engine(
    create: Options -> Option<Thrown>,                       // eups.Eups(...)
    setVro: (string, Option<string>) -> Option<Thrown>,      // Eups.setVRO(vroTag, dbz)
    getVro: (string, Option<string>) -> Attempt<string>,     // Eups.getVRO() after that call, as text
    callbacks: (string, Options, seq<string>) -> Option<Thrown>, // eups.commandCallbacks.apply
    setup: Request -> Attempt<seq<string>>,                  // eups.setup(...)
    verbosity: Options -> int)                               // Eups.verbose

  /** The messages the command passes to `err`. */
  datatype Note =
    | VersionBanner(eupsVersion: string)
    | ListGone
    | CurrentGone
    | ExactConflict
    | TableIgnored
    | TableAbsent(path: string)
    | NameOrRootNeeded
    | LookForTag(tag: string)
    | LookForPreferred
    | AssumingExact
    | ProductNeeded
    | JustConflict
    | UsingVro(vroTag: string, vro: string)
    | Issuing(cmds: seq<string>)

  /** The text of each message. */
  function NoteText(n: Note): string
  {
    match n
    case VersionBanner(v) => "EUPS Version: " + v
    case ListGone => "option -l|--list is no longer supported; use \"eups list\""
    case CurrentGone => "option -C|--current is no longer supported; use \"--tag\""
    case ExactConflict => "Specifying --exact --inexact confuses me, so I'll ignore both"
    case TableIgnored => "Ignoring --table as I'm unsetting up a product"
    case TableAbsent(path) => path + " does not exist"
    case NameOrRootNeeded => "please specify at least a product name or use -r"
    case LookForTag(tag) => "Will look for version with tag=" + tag
    case LookForPreferred => "Will look for version with most preferred tag"
    case AssumingExact => "Assuming --exact as you specified a version by name (consider --inexact)"
    case ProductNeeded => "Please specify a product"
    case JustConflict => "You may not specify both --just and --max_depth"
    case UsingVro(vroTag, vro) => "Using VRO for \"" + vroTag + "\": " + vro
    case Issuing(cmds) => Join("\n\t", ["Issuing commands:"] + cmds)
  }

  /** One write to the error stream: a message through `err`, or the usage text. */
  datatype Diagnostic = Message(note: Note) | Usage

  /** How the command ends: an exit status, or an exception with the status attached to it (if any). */
  datatype Outcome = Exit(code: int) | Raised(exc: Thrown, status: Option<int>)

  /** The effect of a command: the final options, the error-stream writes, the outcome and what went to standard output. */
  datatype Execution = Execution(opts: Options, diags: seq<Diagnostic>, outcome: Outcome, printed: seq<string>)

  // ---------------------------------------------------------------------
  // The error stream

  /** The lines `err(msg, volume)` writes: one line iff not quiet and verbose enough. */
  function Emitted(prog: string, quiet: bool, verbose: nat, msg: string, volume: int): (lines: seq<string>)
    ensures lines == [] || lines == [prog + ": " + msg]
    ensures lines != [] <==> !quiet && verbose >= volume
  {
    if !quiet && verbose >= volume then [prog + ": " + msg] else []
  }

  /** The lines one diagnostic writes. */
  function Line(prog: string, quiet: bool, verbose: nat, usage: string, d: Diagnostic): seq<string>
  {
    match d
    case Message(note) => Emitted(prog, quiet, verbose, NoteText(note), 0)
    case Usage => [usage]
  }

  /** The lines a sequence of diagnostics writes; every message goes through `err` at volume 0. */
  function Written(prog: string, quiet: bool, verbose: nat, usage: string, ds: seq<Diagnostic>): seq<string>
  {
    if ds == [] then [] else Line(prog, quiet, verbose, usage, ds[0]) + Written(prog, quiet, verbose, usage, ds[1..])
  }

  lemma WrittenOne(prog: string, quiet: bool, verbose: nat, usage: string, d: Diagnostic)
    ensures Written(prog, quiet, verbose, usage, [d]) == Line(prog, quiet, verbose, usage, d)
  {
    assert [d][1..] == [];
  }

  lemma {:induction false} WrittenAppend(prog: string, quiet: bool, verbose: nat, usage: string, a: seq<Diagnostic>, b: seq<Diagnostic>)
    ensures Written(prog, quiet, verbose, usage, a + b)
         == Written(prog, quiet, verbose, usage, a) + Written(prog, quiet, verbose, usage, b)
  {
    if a == [] {
      assert a + b == b;
    } else {
      assert (a + b)[1..] == a[1..] + b;
      WrittenAppend(prog, quiet, verbose, usage, a[1..], b);
    }
  }

  /** With -q, nothing but the usage text reaches the error stream. */
  lemma {:induction false} QuietWritesOnlyUsage(prog: string, verbose: nat, usage: string, ds: seq<Diagnostic>)
    ensures forall line :: line in Written(prog, true, verbose, usage, ds) ==> line == usage
  {
    if ds != [] {
      QuietWritesOnlyUsage(prog, verbose, usage, ds[1..]);
    }
  }

  /** Without -q, every diagnostic writes exactly one line, since `err` is always called at volume 0. */
  lemma {:induction false} LoudWritesEverything(prog: string, verbose: nat, usage: string, ds: seq<Diagnostic>)
    ensures |Written(prog, false, verbose, usage, ds)| == |ds|
  {
    if ds != [] {
      LoudWritesEverything(prog, verbose, usage, ds[1..]);
    }
  }

  // ---------------------------------------------------------------------
  // Construction

  /** The program name: the given tool name, else the configured one when there is a command line, else "setup". */
  function ToolName(toolname: Option<string>, argv: seq<string>, configured: Option<string>): (name: string)
    ensures name != ""
    ensures Truthy(toolname) ==> name == toolname.value
    ensures !Truthy(toolname) && |argv| > 0 && Truthy(configured) ==> name == configured.value
    ensures !Truthy(toolname) && (|argv| == 0 || !Truthy(configured)) ==> name == "setup"
  {
    var t := if !Truthy(toolname) && |argv| > 0 then configured else toolname;
    if Truthy(t) then t.value else "setup"
  }

  /** The options kept after parsing: -q overrides -v. */
  function QuietOverride(o: Options): (r: Options)
    ensures r.quiet ==> r.verbose == 0
    ensures !o.quiet ==> r == o
    ensures r == o.(verbose := r.verbose)
  {
    if o.quiet then o.(verbose := 0) else o
  }

  // ---------------------------------------------------------------------
  // Run: help, version and the deprecated options

  /** The status `run` returns without executing: help and version give 0, --list and --current 2, tested in that order. */
  function EarlyExit(o: Options): (r: Option<int>)
    ensures r.Some? <==> o.help || o.version || o.list || o.current
    ensures r == Some(0) <==> o.help || o.version
    ensures r == Some(2) <==> !o.help && !o.version && (o.list || o.current)
  {
    if o.help then Some(0)
    else if o.version then Some(0)
    else if o.list then Some(2)
    else if o.current then Some(2)
    else None
  }

  /** What `run` writes to the error stream when it answers by itself. */
  function EarlyNotice(o: Options, host: Host): (ds: seq<Diagnostic>)
    ensures |ds| <= 1
    ensures ds != [] <==> !o.quiet && !o.help && (o.version || o.list || o.current)
    ensures ds != [] ==> ds[0].Message? && (ds[0].note.VersionBanner? <==> o.version)
  {
    if o.quiet || o.help then []
    else if o.version then [Message(VersionBanner(host.eupsVersion))]
    else if o.list then [Message(ListGone)]
    else if o.current then [Message(CurrentGone)]
    else []
  }

  // ---------------------------------------------------------------------
  // Execute, part one: normalising the request

  /** Why `execute` returned 3. */
  datatype Reason = TablefileMissing | NothingNamed | NoProduct | JustWithMaxDepth

  /** Where normalisation stands: still going, stopped (status 3), or stopped by the guess from --root raising. */
  datatype Verdict = Proceed | Stopped(reason: Reason) | GuessFailed(exc: Thrown)

  /** The normalisation state: the options, the local product and version names, what was said so far, and the verdict. */
  datatype Stage = Stage(opts: Options, productName: Option<string>, versionName: Option<string>,
                         diags: seq<Diagnostic>, verdict: Verdict)

  function ProductArg(args: seq<string>): Option<string>
  {
    if |args| > 0 then Some(args[0]) else None
  }

  function VersionArg(args: seq<string>): Option<string>
  {
    if |args| > 1 then Some(args[1]) else None
  }

  /** Contradictory --exact --inexact are both dropped; nothing else changes. */
  function ReconcileExact(o: Options): (r: Options)
    ensures !(r.exactVersion && r.inexactVersion)
    ensures o.exactVersion && o.inexactVersion ==> !r.exactVersion && !r.inexactVersion
    ensures !(o.exactVersion && o.inexactVersion) ==> r == o
    ensures r == o.(exactVersion := r.exactVersion, inexactVersion := r.inexactVersion)
  {
    if o.exactVersion && o.inexactVersion then o.(exactVersion := false, inexactVersion := false) else o
  }

  /** The first steps of `execute`: --exact against --inexact, and the positional arguments. */
  function Start(o: Options, args: seq<string>): (s: Stage)
    ensures s.verdict == Proceed && !(s.opts.exactVersion && s.opts.inexactVersion)
    ensures s.diags == [] <==> !(o.exactVersion && o.inexactVersion)
    ensures s.productName.Some? <==> |args| > 0
    ensures s.versionName.Some? <==> |args| > 1
    ensures |args| > 0 ==> s.productName == Some(args[0])
    ensures |args| > 1 ==> s.versionName == Some(args[1])
  {
    Stage(ReconcileExact(o), ProductArg(args), VersionArg(args),
          if o.exactVersion && o.inexactVersion then [Message(ExactConflict)] else [], Proceed)
  }

  /** --table: dropped when unsetting up; otherwise it must exist, and it names the product when no name was given. */
  function UseTablefile(s: Stage, host: Host): (t: Stage)
    ensures t.opts == s.opts.(tablefile := t.opts.tablefile, productDir := t.opts.productDir)
    ensures t.versionName == s.versionName
  {
    var o := s.opts;
    if !Truthy(o.tablefile) then s
    else if o.unsetup then
      s.(opts := o.(tablefile := None), diags := s.diags + [Message(TableIgnored)])
    else if !host.pathExists(o.tablefile.value) then
      s.(diags := s.diags + [Message(TableAbsent(o.tablefile.value))] + [Usage], verdict := Stopped(TablefileMissing))
    else
      var path := host.abspath(o.tablefile.value);
      if Truthy(s.productName) then s.(opts := o.(tablefile := Some(path)))
      else s.(opts := o.(tablefile := Some(path), productDir := Some(host.dirname(path))),
              productName := Some(host.stripExtension(host.basename(path))))
  }

  /** Either a product name or a root directory is needed. */
  function RequireTarget(s: Stage): (t: Stage)
    ensures t.opts == s.opts && t.productName == s.productName && t.versionName == s.versionName
  {
    if !Truthy(s.opts.productDir) && !Truthy(s.productName) then
      s.(diags := s.diags + [Message(NameOrRootNeeded)] + [Usage], verdict := Stopped(NothingNamed))
    else s
  }

  /** At -vv, without a version, say which tag will be looked for. */
  function AnnounceSearch(s: Stage): (t: Stage)
    ensures t.opts == s.opts && t.productName == s.productName && t.versionName == s.versionName
    ensures t.verdict == s.verdict
  {
    if !Truthy(s.versionName) && s.opts.verbose > 1 then
      s.(diags := s.diags + [Message(if Truthy(s.opts.tag) then LookForTag(s.opts.tag.value) else LookForPreferred)])
    else s
  }

  /** A version named on the command line means --exact, unless --inexact survived. */
  function ImplyExact(s: Stage): (t: Stage)
    ensures t.opts == s.opts.(exactVersion := t.opts.exactVersion)
    ensures t.productName == s.productName && t.versionName == s.versionName && t.verdict == s.verdict
  {
    if Truthy(s.versionName) && !s.opts.inexactVersion then
      s.(opts := s.opts.(exactVersion := true),
         diags := s.diags + (if s.opts.verbose > 0 then [Message(AssumingExact)] else []))
    else s
  }

  /** --root: made absolute, and the product name is guessed from its ups directory. */
  function GuessFromRoot(s: Stage, host: Host): (t: Stage)
    ensures t.opts == s.opts.(productDir := t.opts.productDir)
    ensures t.versionName == s.versionName && t.diags == s.diags
  {
    if !Truthy(s.opts.productDir) then s
    else
      var dir := host.abspath(s.opts.productDir.value);
      var s1 := s.(opts := s.opts.(productDir := Some(dir)));
      match host.guessProduct(host.join(dir, "ups"), s.productName)
      case Guessed(name) => s1.(productName := name)
      case GuessRaised(t) => s1.(verdict := GuessFailed(t))
  }

  /** After the guess a product name is required. */
  function RequireProduct(s: Stage): (t: Stage)
    ensures t.opts == s.opts && t.productName == s.productName && t.versionName == s.versionName
  {
    if !Truthy(s.productName) then
      s.(diags := s.diags + [Message(ProductNeeded)] + [Usage], verdict := Stopped(NoProduct))
    else s
  }

  /** --just means depth 0, and cannot be combined with a positive --max-depth. */
  function ApplyJust(s: Stage): (t: Stage)
    ensures t.opts == s.opts.(maxDepth := t.opts.maxDepth)
    ensures t.productName == s.productName && t.versionName == s.versionName
  {
    if !s.opts.nodepend then s
    else if s.opts.maxDepth > 0 then
      s.(diags := s.diags + [Message(JustConflict)], verdict := Stopped(JustWithMaxDepth))
    else s.(opts := s.opts.(maxDepth := 0))
  }

  /** Without --vro the configured VRO is used. */
  function DefaultVro(s: Stage, host: Host): (t: Stage)
    ensures t.opts == s.opts.(vro := t.opts.vro)
    ensures t.productName == s.productName && t.versionName == s.versionName
    ensures t.diags == s.diags && t.verdict == s.verdict
  {
    if !Truthy(s.opts.vro) then s.(opts := s.opts.(vro := Some(host.defaultVro))) else s
  }

  /** After --table: a target is required, and a version named on the command line implies --exact. */
  function Target(s: Stage): (t: Stage)
    ensures t.opts == s.opts.(exactVersion := t.opts.exactVersion)
    ensures t.productName == s.productName && t.versionName == s.versionName
  {
    if !s.verdict.Proceed? then s else
    var s2 := RequireTarget(s);
    if !s2.verdict.Proceed? then s2 else
    ImplyExact(AnnounceSearch(s2))
  }

  /** The request as the command line names it: --exact/--inexact, --table, a target, and --exact implied by a version. */
  function Admit(o: Options, args: seq<string>, host: Host): (s: Stage)
    ensures s.versionName == VersionArg(args)
    ensures s.opts.quiet == o.quiet && s.opts.verbose == o.verbose
  {
    Target(UseTablefile(Start(o, args), host))
  }

  /** The request completed once the product is known: a product is required, --just applied and the VRO defaulted. */
  function Conclude(s: Stage, host: Host): (t: Stage)
    ensures t.verdict.Proceed? ==> Truthy(t.productName)
    ensures t.versionName == s.versionName
    ensures t.opts.quiet == s.opts.quiet && t.opts.verbose == s.opts.verbose
  {
    var s4 := RequireProduct(s);
    if !s4.verdict.Proceed? then s4 else
    var s5 := ApplyJust(s4);
    if !s5.verdict.Proceed? then s5 else
    DefaultVro(s5, host)
  }

  /** Normalisation after admission: the guess from --root, then the conclusion. */
  function Settle(s: Stage, host: Host): (t: Stage)
    ensures t.verdict.Proceed? ==> s.verdict.Proceed? && Truthy(t.productName)
    ensures t.versionName == s.versionName
    ensures t.opts.quiet == s.opts.quiet && t.opts.verbose == s.opts.verbose
  {
    if !s.verdict.Proceed? then s else
    var s2 := GuessFromRoot(s, host);
    if !s2.verdict.Proceed? then s2 else
    Conclude(s2, host)
  }

  /** The normalisation `execute` performs before the engine is involved. */
  function Normalise(o: Options, args: seq<string>, host: Host): (s: Stage)
    ensures s.verdict.Proceed? ==> Truthy(s.productName)
    ensures s.versionName == VersionArg(args)
    ensures s.opts.quiet == o.quiet && s.opts.verbose == o.verbose
  {
    Settle(Admit(o, args, host), host)
  }

  /** How `execute` ends when normalisation stops: status 3, or the guess's exception, tagged 4 if it is an EupsException. */
  function Halt(v: Verdict): (r: Outcome)
    ensures v.Stopped? ==> r == Exit(3)
    ensures v.GuessFailed? ==> r.Raised? && r.exc == v.exc
    ensures v.GuessFailed? ==> (r.status == Some(4) <==> v.exc.eups) && (r.status.None? <==> !v.exc.eups)
  {
    match v
    case GuessFailed(t) => if t.eups then Raised(t, Some(4)) else Raised(t, None)
    case _ => Exit(3)
  }

  /**
   * The VRO tag: an explicit --tag, else "path" when a root directory is
   * known, else "commandLineVersion" when a version was named, else "default".
   */
  function VroTag(o: Options, versionName: Option<string>): (tag: string)
    ensures Truthy(o.tag) ==> tag == o.tag.value
    ensures !Truthy(o.tag) ==> (tag == "path" <==> Truthy(o.productDir))
    ensures !Truthy(o.tag) && !Truthy(o.productDir) ==> (tag == "commandLineVersion" <==> Truthy(versionName))
    ensures !Truthy(o.tag) && !Truthy(o.productDir) && !Truthy(versionName) ==> tag == "default"
  {
    if Truthy(o.tag) then o.tag.value
    else if Truthy(o.productDir) then "path"
    else if Truthy(versionName) then "commandLineVersion"
    else "default"
  }

  function CmdName(o: Options): string
  {
    if o.unsetup then "unsetup" else "setup"
  }

  function RequestOf(s: Stage): Request
    requires Truthy(s.productName)
  {
    Request(s.productName.value, s.versionName, VroTag(s.opts, s.versionName), CmdName(s.opts), s.opts)
  }

  // ---------------------------------------------------------------------
  // Execute, part two: the work, and the exit status each failure gets

  /** Sets the status attribute of a raised exception, as `e.status = n; raise` does. */
  function Retag(o: Outcome, status: int): Outcome
  {
    if o.Raised? then o.(status := Some(status)) else o
  }

  /** The status the callback handlers attach: 255 for OperationForbidden, 9 for anything else. */
  function CallbackStatus(t: Thrown): int
  {
    if t.forbidden then 255 else 9
  }

  /** The status the handlers around the whole work phase attach: 1 for an EupsException, -1 for anything else. */
  function EngineStatus(t: Thrown): int
  {
    if t.eups then 1 else -1
  }

  function Join(sep: string, parts: seq<string>): string
  {
    if |parts| == 0 then ""
    else if |parts| == 1 then parts[0]
    else parts[0] + sep + Join(sep, parts[1..])
  }

  /** At -vv, the VRO in use is reported; asking the engine for it may raise. */
  function VroReport(req: Request, engine: Engine): (a: Attempt<seq<Diagnostic>>)
    ensures req.opts.verbose <= 1 ==> a == Returned([])
    ensures a.Returned? && req.opts.verbose > 1 ==> |a.value| == 1 && a.value[0].Message? && a.value[0].note.UsingVro?
  {
    if req.opts.verbose > 1 then
      match engine.getVro(req.vroTag, req.opts.dbz)
      case Returned(vro) => Returned([Message(UsingVro(req.vroTag, vro))])
      case Threw(t) => Threw(t)
    else Returned([])
  }

  /**
   * The work phase of `execute`.  With `outerRetagsCallbacks` the callback
   * exception, already tagged by its own handlers, is re-raised into the
   * handlers around the whole phase and tagged again, as the source is
   * written; without it the callback's own status is kept.
   */
  function Work(req: Request, args: seq<string>, engine: Engine, outerRetagsCallbacks: bool): (e: Execution)
    ensures e.opts == req.opts
    ensures e.outcome.Exit? ==> e.outcome == Exit(0)
    ensures e.printed != [] ==> e.outcome == Exit(0)
  {
    var o := req.opts;
    match engine.create(o)
    case Some(t) => Execution(o, [], Retag(Raised(t, None), EngineStatus(t)), [])
    case None =>
      match engine.setVro(req.vroTag, o.dbz)
      case Some(t) => Execution(o, [], Retag(Raised(t, None), EngineStatus(t)), [])
      case None =>
        match VroReport(req, engine)
        case Threw(t) => Execution(o, [], Retag(Raised(t, None), EngineStatus(t)), [])
        case Returned(said) =>
          match engine.callbacks(req.cmdName, o, args)
          case Some(t) =>
            var tagged := Retag(Raised(t, None), CallbackStatus(t));
            Execution(o, said, if outerRetagsCallbacks then Retag(tagged, EngineStatus(t)) else tagged, [])
          case None =>
            match engine.setup(req)
            case Threw(t) => Execution(o, said, Retag(Raised(t, None), EngineStatus(t)), [])
            case Returned(cmds) =>
              Execution(o, said + (if engine.verbosity(o) > 2
                                   then [Message(Issuing(cmds))] else []),
                        Exit(0), [Join(";\n", cmds)])
  }

  /**
   * The whole of `execute`: as written when `outerRetagsCallbacks` holds,
   * with the callback statuses kept (the evidently intended behaviour) when not.
   * It returns only 0 or 3, prints only on success, and keeps what
   * normalisation said.
   */
  function ExecuteSpec(o: Options, args: seq<string>, host: Host, engine: Engine, outerRetagsCallbacks: bool): (e: Execution)
    ensures e.outcome.Exit? ==> e.outcome.code == 0 || e.outcome.code == 3
    ensures e.printed != [] ==> e.outcome == Exit(0)
    ensures Normalise(o, args, host).diags <= e.diags
  {
    var s := Normalise(o, args, host);
    if !s.verdict.Proceed? then Execution(s.opts, s.diags, Halt(s.verdict), [])
    else
      var w := Work(RequestOf(s), args, engine, outerRetagsCallbacks);
      Execution(w.opts, s.diags + w.diags, w.outcome, w.printed)
  }

  /** The whole of `run`: it returns only 0, 2 or 3, and prints only when `execute` does. */
  function RunSpec(o: Options, args: seq<string>, host: Host, engine: Engine, outerRetagsCallbacks: bool): (e: Execution)
    ensures e.outcome.Exit? ==> e.outcome.code == 0 || e.outcome.code == 2 || e.outcome.code == 3
    ensures EarlyExit(o).Some? ==> e.printed == [] && e.outcome == Exit(EarlyExit(o).value)
  {
    match EarlyExit(o)
    case Some(status) => Execution(o, EarlyNotice(o, host), Exit(status), [])
    case None => ExecuteSpec(o, args, host, engine, outerRetagsCallbacks)
  }

  // ---------------------------------------------------------------------
  // The command object

  class EupsSetup {
    const prog: string
    const clargs: seq<string>
    var opts: Options
    const args: seq<string>
    /** Everything written to the error stream, line by line. */
    var errLog: seq<string>
    /** Everything written to standard output. */
    var out: seq<string>

    constructor (argList: Option<seq<string>>, toolname: Option<string>, host: Host)
      ensures prog == ToolName(toolname, host.argv, host.setupCmdName)
      ensures clargs == if argList.Some? then argList.value else if |host.argv| > 0 then host.argv[1..] else []
      ensures opts == QuietOverride(host.parse(clargs).0)
      ensures args == host.parse(clargs).1
      ensures opts.quiet ==> opts.verbose == 0
      ensures errLog == [] && out == []
    {
      var name := toolname;
      if !Truthy(name) && |host.argv| > 0 {
        name := host.setupCmdName;
      }
      if !Truthy(name) {
        name := Some("setup");
      }
      prog := name.value;
      var cl := if argList.Some? then argList.value else if |host.argv| > 0 then host.argv[1..] else [];
      clargs := cl;
      var parsed := host.parse(cl);
      var o := parsed.0;
      if o.quiet {
        o := o.(verbose := 0);
      }
      opts := o;
      args := parsed.1;
      errLog := [];
      out := [];
    }

    /** `err(msg, volume)`: writes "prog: msg" iff not quiet and verbose >= volume. */
    method Err(msg: string, volume: int)
      modifies this`errLog
      ensures errLog == old(errLog) + Emitted(prog, opts.quiet, opts.verbose, msg, volume)
    {
      if !opts.quiet && opts.verbose >= volume {
        errLog := errLog + [prog + ": " + msg];
      }
    }

    /** One diagnostic of `execute`: a message through `err`, or the usage text. */
    method Say(d: Diagnostic, usage: string, ghost base: seq<string>, ghost said: seq<Diagnostic>)
      returns (ghost said': seq<Diagnostic>)
      requires errLog == base + Written(prog, opts.quiet, opts.verbose, usage, said)
      modifies this`errLog
      ensures said' == said + [d]
      ensures errLog == base + Written(prog, opts.quiet, opts.verbose, usage, said')
    {
      ghost var before := Written(prog, opts.quiet, opts.verbose, usage, said);
      ghost var line := Line(prog, opts.quiet, opts.verbose, usage, d);
      WrittenAppend(prog, opts.quiet, opts.verbose, usage, said, [d]);
      WrittenOne(prog, opts.quiet, opts.verbose, usage, d);
      match d {
        case Message(note) => Err(NoteText(note), 0);
        case Usage => errLog := errLog + [usage];
      }
      assert errLog == (base + before) + line;
      AppendAssociates(base, before, line);
      said' := said + [d];
    }

    method Run(host: Host, engine: Engine) returns (r: Outcome)
      modifies this`opts, this`errLog, this`out
      ensures var e := RunSpec(old(opts), args, host, engine, true);
        && r == e.outcome && opts == e.opts && out == old(out) + e.printed
        && errLog == old(errLog) + Written(prog, old(opts).quiet, old(opts).verbose, host.usage, e.diags)
    {
      ghost var said: seq<Diagnostic> := [];
      if opts.help {
        return Exit(0);
      } else if opts.version {
        if !opts.quiet {
          said := Say(Message(VersionBanner(host.eupsVersion)), host.usage, errLog, said);
        }
        return Exit(0);
      } else if opts.list {
        if !opts.quiet {
          said := Say(Message(ListGone), host.usage, errLog, said);
        }
        return Exit(2);
      } else if opts.current {
        if !opts.quiet {
          said := Say(Message(CurrentGone), host.usage, errLog, said);
        }
        return Exit(2);
      }
      r := Execute(host, engine);
    }

    method Execute(host: Host, engine: Engine) returns (r: Outcome)
      modifies this`opts, this`errLog, this`out
      ensures var e := ExecuteSpec(old(opts), args, host, engine, true);
        && r == e.outcome && opts == e.opts && out == old(out) + e.printed
        && errLog == old(errLog) + Written(prog, old(opts).quiet, old(opts).verbose, host.usage, e.diags)
    {
      ghost var o0 := opts;
      ghost var log0 := errLog;
      var stopped, productName, versionName, said := Admitting(host);
      ghost var s := Admit(o0, args, host);
      if stopped {
        r := Exit(3);
      } else {
        var failure;
        failure, productName := Guessing(host, productName, versionName, said);
        s := GuessFromRoot(s, host);
        if failure.Some? {
          var t := failure.value;
          r := if t.eups then Retag(Raised(t, None), 4) else Raised(t, None);
        } else {
          stopped, said := Concluding(host, productName, versionName, log0, said);
          s := Conclude(s, host);
          if stopped {
            r := Exit(3);
          } else {
            r, said := Working(productName.value, versionName, host, engine, log0, said);
          }
        }
      }
      assert Normalise(o0, args, host) == s;
    }

    /** `execute` up to the guess from --root: the stages of `Admit`. */
    method Admitting(host: Host)
      returns (stopped: bool, productName: Option<string>, versionName: Option<string>, ghost said: seq<Diagnostic>)
      modifies this`opts, this`errLog
      ensures var s := Admit(old(opts), args, host);
        && stopped == !s.verdict.Proceed? && s == Stage(opts, productName, versionName, said, s.verdict)
        && errLog == old(errLog) + Written(prog, old(opts).quiet, old(opts).verbose, host.usage, said)
    {
      ghost var log0 := errLog;
      productName, versionName, said := Starting(host);
      stopped, productName, said := Tabling(host, productName, versionName, log0, said);
      if stopped {
        return;
      }
      stopped, said := Targeting(host, productName, versionName, log0, said);
    }

    /** The first steps of `execute`: --exact against --inexact, and the positional arguments. */
    method Starting(host: Host) returns (productName: Option<string>, versionName: Option<string>, ghost said: seq<Diagnostic>)
      modifies this`opts, this`errLog
      ensures Start(old(opts), args) == Stage(opts, productName, versionName, said, Proceed)
      ensures errLog == old(errLog) + Written(prog, old(opts).quiet, old(opts).verbose, host.usage, said)
    {
      ghost var log0 := errLog;
      said := [];
      if opts.exactVersion && opts.inexactVersion {
        said := Say(Message(ExactConflict), host.usage, log0, said);
        opts := opts.(exactVersion := false, inexactVersion := false);
      }

      productName := None;
      versionName := None;
      if |args| > 0 {
        productName := Some(args[0]);
      }
      if |args| > 1 {
        versionName := Some(args[1]);
      }
    }

    /** The --table stage of `execute`. */
    method Tabling(host: Host, productName: Option<string>, versionName: Option<string>,
                   ghost base: seq<string>, ghost said: seq<Diagnostic>)
      returns (stopped: bool, productName': Option<string>, ghost said': seq<Diagnostic>)
      requires errLog == base + Written(prog, opts.quiet, opts.verbose, host.usage, said)
      modifies this`opts, this`errLog
      ensures var t := UseTablefile(Stage(old(opts), productName, versionName, said, Proceed), host);
        && stopped == !t.verdict.Proceed? && t == Stage(opts, productName', versionName, said', t.verdict)
        && errLog == base + Written(prog, old(opts).quiet, old(opts).verbose, host.usage, said')
    {
      said' := said;
      productName' := productName;
      stopped := false;
      if Truthy(opts.tablefile) {
        if opts.unsetup {
          said' := Say(Message(TableIgnored), host.usage, base, said');
          opts := opts.(tablefile := None);
        } else {
          if !host.pathExists(opts.tablefile.value) {
            said' := Say(Message(TableAbsent(opts.tablefile.value)), host.usage, base, said');
            said' := Say(Usage, host.usage, base, said');
            return true, productName', said';
          }
          var path := host.abspath(opts.tablefile.value);
          if !Truthy(productName) {
            var dir := host.dirname(path);
            productName' := Some(host.stripExtension(host.basename(path)));
            opts := opts.(tablefile := Some(path), productDir := Some(dir));
          } else {
            opts := opts.(tablefile := Some(path));
          }
        }
      }
    }

    /** The stages of `execute` between --table and --root: a target is required, and a version implies --exact. */
    method Targeting(host: Host, productName: Option<string>, versionName: Option<string>,
                     ghost base: seq<string>, ghost said: seq<Diagnostic>)
      returns (stopped: bool, ghost said': seq<Diagnostic>)
      requires errLog == base + Written(prog, opts.quiet, opts.verbose, host.usage, said)
      modifies this`opts, this`errLog
      ensures var u := Target(Stage(old(opts), productName, versionName, said, Proceed));
        && stopped == !u.verdict.Proceed? && u == Stage(opts, productName, versionName, said', u.verdict)
        && errLog == base + Written(prog, old(opts).quiet, old(opts).verbose, host.usage, said')
    {
      said' := said;
      if !Truthy(opts.productDir) && !Truthy(productName) {
        said' := Say(Message(NameOrRootNeeded), host.usage, base, said');
        said' := Say(Usage, host.usage, base, said');
        return true, said';
      }

      if !Truthy(versionName) && opts.verbose > 1 {
        var note := if Truthy(opts.tag) then LookForTag(opts.tag.value) else LookForPreferred;
        said' := Say(Message(note), host.usage, base, said');
      }

      if Truthy(versionName) && !opts.inexactVersion {
        opts := opts.(exactVersion := true);
        if opts.verbose > 0 {
          said' := Say(Message(AssumingExact), host.usage, base, said');
        }
      }
      stopped := false;
    }

    /** The --root stage of `execute`: the directory made absolute and the product name guessed from it. */
    method Guessing(host: Host, productName: Option<string>, versionName: Option<string>, ghost said: seq<Diagnostic>)
      returns (failure: Option<Thrown>, productName': Option<string>)
      modifies this`opts
      ensures GuessFromRoot(Stage(old(opts), productName, versionName, said, Proceed), host)
           == Stage(opts, productName', versionName, said, if failure.Some? then GuessFailed(failure.value) else Proceed)
    {
      productName' := productName;
      failure := None;
      if Truthy(opts.productDir) {
        var dir := host.abspath(opts.productDir.value);
        var guess := host.guessProduct(host.join(dir, "ups"), productName);
        opts := opts.(productDir := Some(dir));
        match guess
        case GuessRaised(t) =>
          failure := Some(t);
        case Guessed(name) =>
          productName' := name;
      }
    }

    /** `execute` after the guess, up to the work: the stages of `Conclude`. */
    method Concluding(host: Host, productName: Option<string>, versionName: Option<string>,
                      ghost base: seq<string>, ghost said: seq<Diagnostic>)
      returns (stopped: bool, ghost said': seq<Diagnostic>)
      requires errLog == base + Written(prog, opts.quiet, opts.verbose, host.usage, said)
      modifies this`opts, this`errLog
      ensures var t := Conclude(Stage(old(opts), productName, versionName, said, Proceed), host);
        && stopped == !t.verdict.Proceed? && t == Stage(opts, productName, versionName, said', t.verdict)
        && errLog == base + Written(prog, old(opts).quiet, old(opts).verbose, host.usage, said')
    {
      said' := said;
      if !Truthy(productName) {
        said' := Say(Message(ProductNeeded), host.usage, base, said');
        said' := Say(Usage, host.usage, base, said');
        return true, said';
      }

      if opts.nodepend {
        if opts.maxDepth > 0 {
          said' := Say(Message(JustConflict), host.usage, base, said');
          return true, said';
        }
        opts := opts.(maxDepth := 0);
      }

      if !Truthy(opts.vro) {
        opts := opts.(vro := Some(host.defaultVro));
      }
      stopped := false;
    }

    /** The work phase of `execute`, as written: the callback's own status is overwritten by the outer handlers. */
    method Working(productName: string, versionName: Option<string>, host: Host, engine: Engine,
                   ghost base: seq<string>, ghost said: seq<Diagnostic>)
      returns (r: Outcome, ghost said': seq<Diagnostic>)
      requires errLog == base + Written(prog, opts.quiet, opts.verbose, host.usage, said)
      modifies this`errLog, this`out
      ensures var w := Work(Request(productName, versionName, VroTag(opts, versionName), CmdName(opts), opts),
                            args, engine, true);
        && r == w.outcome && said' == said + w.diags && out == old(out) + w.printed
        && errLog == base + Written(prog, opts.quiet, opts.verbose, host.usage, said')
    {
      said' := said;
      var failure := engine.create(opts);
      if failure.Some? {
        return Retag(Raised(failure.value, None), EngineStatus(failure.value)), said';
      }
      var vroTag := VroTag(opts, versionName);
      failure := engine.setVro(vroTag, opts.dbz);
      if failure.Some? {
        return Retag(Raised(failure.value, None), EngineStatus(failure.value)), said';
      }
      ghost var notes: seq<Diagnostic> := [];
      if opts.verbose > 1 {
        var shown := engine.getVro(vroTag, opts.dbz);
        if shown.Threw? {
          return Retag(Raised(shown.exc, None), EngineStatus(shown.exc)), said';
        }
        var note := Message(UsingVro(vroTag, shown.value));
        notes := [note];
        said' := Say(note, host.usage, base, said');
      }
      var cmdName := CmdName(opts);
      failure := engine.callbacks(cmdName, opts, args);
      if failure.Some? {
        // tagged by the callback handlers, then re-raised into the outer ones
        r := Retag(Raised(failure.value, None), CallbackStatus(failure.value));
        return Retag(r, EngineStatus(failure.value)), said';
      }
      var request := Request(productName, versionName, vroTag, cmdName, opts);
      match engine.setup(request)
      case Threw(t) =>
        return Retag(Raised(t, None), EngineStatus(t)), said';
      case Returned(cmds) =>
        if engine.verbosity(opts) > 2 {
          said' := Say(Message(Issuing(cmds)), host.usage, base, said');
          AppendAssociates(said, notes, [Message(Issuing(cmds))]);
        }
        out := out + [Join(";\n", cmds)];
        return Exit(0), said';
    }
  }
}
