/**
 * Properties of the `setup` command (python/eups/setupcmd.py) stated over
 * the specification functions of module SetupCmd: what normalisation does
 * to the options, when `execute` stops with status 3, which status every
 * failure carries, and how `run` dispatches.
 */
module SetupCmdProperties {
  import opened Optional
  import opened SetupCmd

  // ---------------------------------------------------------------------
  // What normalisation may change

  /** `r` differs from `o` at most in the options `execute` rewrites. */
  predicate NormalisedOnly(o: Options, r: Options)
  {
    r == o.(exactVersion := r.exactVersion, inexactVersion := r.inexactVersion,
            tablefile := r.tablefile, productDir := r.productDir,
            maxDepth := r.maxDepth, vro := r.vro)
  }

  /** The diagnostics of a stage only ever grow. */
  predicate Extends(s: Stage, t: Stage)
  {
    s.diags <= t.diags
  }

  /** One normalisation stage: the options change only where `execute` rewrites them, and the diagnostics grow. */
  predicate Step(s: Stage, t: Stage)
  {
    NormalisedOnly(s.opts, t.opts) && Extends(s, t)
  }

  lemma StepTrans(s: Stage, t: Stage, u: Stage)
    requires Step(s, t) && Step(t, u)
    ensures Step(s, u)
  {
  }

  lemma TablefileStep(s: Stage, host: Host)
    ensures Step(s, UseTablefile(s, host))
  {
  }

  lemma RequireTargetStep(s: Stage)
    ensures Step(s, RequireTarget(s))
  {
  }

  lemma AnnounceStep(s: Stage)
    ensures Step(s, AnnounceSearch(s))
  {
  }

  lemma ImplyExactStep(s: Stage)
    ensures Step(s, ImplyExact(s))
  {
  }

  lemma GuessStep(s: Stage, host: Host)
    ensures Step(s, GuessFromRoot(s, host))
  {
  }

  lemma ProductStep(s: Stage)
    ensures Step(s, RequireProduct(s))
  {
  }

  lemma JustStep(s: Stage)
    ensures Step(s, ApplyJust(s))
  {
  }

  lemma TargetSteps(s: Stage)
    ensures Step(s, Target(s))
  {
    if s.verdict.Proceed? {
      var s2 := RequireTarget(s);
      RequireTargetStep(s);
      if s2.verdict.Proceed? {
        var s3 := AnnounceSearch(s2);
        AnnounceStep(s2);
        ImplyExactStep(s3);
        StepTrans(s, s2, s3);
        StepTrans(s, s3, ImplyExact(s3));
        assert Target(s) == ImplyExact(s3);
      }
    }
  }

  lemma ConcludeSteps(s: Stage, host: Host)
    ensures Step(s, Conclude(s, host))
  {
    var s4 := RequireProduct(s);
    ProductStep(s);
    if s4.verdict.Proceed? {
      var s5 := ApplyJust(s4);
      JustStep(s4);
      StepTrans(s, s4, s5);
      if s5.verdict.Proceed? {
        StepTrans(s, s5, DefaultVro(s5, host));
        assert Conclude(s, host) == DefaultVro(s5, host);
      }
    }
  }

  lemma SettleSteps(s: Stage, host: Host)
    ensures Step(s, Settle(s, host))
  {
    if s.verdict.Proceed? {
      var g := GuessFromRoot(s, host);
      GuessStep(s, host);
      if g.verdict.Proceed? {
        ConcludeSteps(g, host);
        StepTrans(s, g, Conclude(g, host));
        assert Settle(s, host) == Conclude(g, host);
      }
    }
  }

  /** Admission never sets --exact together with --inexact. */
  lemma TargetReconciled(s: Stage)
    requires !(s.opts.exactVersion && s.opts.inexactVersion)
    ensures !(Target(s).opts.exactVersion && Target(s).opts.inexactVersion)
  {
  }

  /** Concluding sets only --max-depth and --vro, and stops with `NoProduct` when no product is known. */
  lemma ConcludeShape(s: Stage, host: Host)
    ensures Conclude(s, host).opts == s.opts.(maxDepth := Conclude(s, host).opts.maxDepth, vro := Conclude(s, host).opts.vro)
    ensures Conclude(s, host).productName == s.productName
    ensures !Truthy(s.productName) ==> Conclude(s, host).verdict == Stopped(NoProduct)
  {
    var s4 := RequireProduct(s);
    if !s4.verdict.Proceed? {
      assert Conclude(s, host) == s4;
    } else {
      var s5 := ApplyJust(s4);
      if !s5.verdict.Proceed? {
        assert Conclude(s, host) == s5;
      } else {
        var s6 := DefaultVro(s5, host);
        assert Conclude(s, host) == s6;
      }
    }
  }

  /** After admission, only --root, --max-depth and --vro change. */
  lemma SettleShape(s: Stage, host: Host)
    ensures Settle(s, host).opts == s.opts.(productDir := Settle(s, host).opts.productDir,
                                            maxDepth := Settle(s, host).opts.maxDepth, vro := Settle(s, host).opts.vro)
  {
    if !s.verdict.Proceed? {
      assert Settle(s, host) == s;
    } else {
      var g := GuessFromRoot(s, host);
      if !g.verdict.Proceed? {
        assert Settle(s, host) == g;
      } else {
        ConcludeShape(g, host);
        assert Settle(s, host) == Conclude(g, host);
      }
    }
  }

  /**
   * Normalisation touches only --exact, --inexact, --table, --root,
   * --max-depth and --vro, and keeps every diagnostic it has issued.
   */
  lemma NormaliseFrame(o: Options, args: seq<string>, host: Host)
    ensures NormalisedOnly(o, Normalise(o, args, host).opts)
    ensures Extends(Start(o, args), Normalise(o, args, host))
    ensures Extends(UseTablefile(Start(o, args), host), Normalise(o, args, host))
  {
    var s0 := Start(o, args);
    var s1 := UseTablefile(s0, host);
    var a := Target(s1);
    TablefileStep(s0, host);
    TargetSteps(s1);
    SettleSteps(a, host);
    StepTrans(s1, a, Settle(a, host));
    StepTrans(s0, s1, Settle(a, host));
    assert NormalisedOnly(o, s0.opts);
  }

  /** The normalised options and names, as admission leaves them and settling changes them. */
  lemma NormaliseParts(o: Options, args: seq<string>, host: Host)
    ensures var s1 := UseTablefile(Start(o, args), host);
      var s := Normalise(o, args, host);
      && s.opts == s1.opts.(exactVersion := s.opts.exactVersion, productDir := s.opts.productDir,
                            maxDepth := s.opts.maxDepth, vro := s.opts.vro)
      && !(s.opts.exactVersion && s.opts.inexactVersion)
  {
    var s1 := UseTablefile(Start(o, args), host);
    var a := Target(s1);
    TargetReconciled(s1);
    SettleShape(a, host);
  }

  // ---------------------------------------------------------------------
  // --exact and --inexact

  /**
   * After normalisation --exact and --inexact are never both set; --inexact
   * survives only when given alone, and a conflict is reported first.
   */
  lemma ExactnessReconciled(o: Options, args: seq<string>, host: Host)
    ensures var s := Normalise(o, args, host);
      && !(s.opts.exactVersion && s.opts.inexactVersion)
      && s.opts.inexactVersion == (o.inexactVersion && !o.exactVersion)
      && (o.exactVersion && o.inexactVersion ==> |s.diags| > 0 && s.diags[0] == Message(ExactConflict))
  {
    NormaliseFrame(o, args, host);
    NormaliseParts(o, args, host);
  }

  /**
   * Once the request goes ahead, a version named on the command line means
   * exact matching unless --inexact was given alone; without one, --exact
   * is as given (and dropped if it conflicted).
   */
  lemma VersionImpliesExact(o: Options, args: seq<string>, host: Host)
    ensures var s := Normalise(o, args, host);
      s.verdict.Proceed? ==>
        s.opts.exactVersion == if Truthy(VersionArg(args)) then !(o.inexactVersion && !o.exactVersion)
                               else o.exactVersion && !o.inexactVersion
  {
    var s1 := UseTablefile(Start(o, args), host);
    var a := Target(s1);
    SettleShape(a, host);
    if Settle(a, host).verdict.Proceed? {
      TargetExact(s1);
    }
  }

  /** Once a target is known, --exact is set by a named version unless --inexact is. */
  lemma TargetExact(s: Stage)
    requires Target(s).verdict.Proceed?
    ensures Target(s).opts.exactVersion == (s.opts.exactVersion || (Truthy(s.versionName) && !s.opts.inexactVersion))
  {
    var s2 := RequireTarget(s);
    assert Target(s) == ImplyExact(AnnounceSearch(s2));
  }

  // ---------------------------------------------------------------------
  // --table

  /** Unsetting up ignores --table, says so, and clears it. */
  lemma UnsetupIgnoresTable(o: Options, args: seq<string>, host: Host)
    requires Truthy(o.tablefile) && o.unsetup
    ensures var s := Normalise(o, args, host);
      s.opts.tablefile == None && Message(TableIgnored) in s.diags
  {
    NormaliseFrame(o, args, host);
    NormaliseParts(o, args, host);
    var d := UseTablefile(Start(o, args), host).diags;
    assert d[|d| - 1] == Message(TableIgnored);
    assert d[|d| - 1] == Normalise(o, args, host).diags[|d| - 1];
  }

  /** A table file that does not exist ends `execute` with status 3 before the engine is involved. */
  lemma MissingTableStops(o: Options, args: seq<string>, host: Host, engine: Engine, outer: bool)
    requires Truthy(o.tablefile) && !o.unsetup && !host.pathExists(o.tablefile.value)
    ensures ExecuteSpec(o, args, host, engine, outer)
         == Execution(ReconcileExact(o), Start(o, args).diags + [Message(TableAbsent(o.tablefile.value)), Usage], Exit(3), [])
  {
  }

  /**
   * An existing table file is made absolute and, when no product was named,
   * its directory becomes --root and its base name without extension the
   * product.
   */
  lemma TableNamesProduct(o: Options, args: seq<string>, host: Host)
    requires Truthy(o.tablefile) && !o.unsetup && host.pathExists(o.tablefile.value)
    requires !Truthy(ProductArg(args))
    ensures Admit(o, args, host).opts.tablefile == Some(host.abspath(o.tablefile.value))
    ensures Admit(o, args, host).opts.productDir == Some(host.dirname(host.abspath(o.tablefile.value)))
    ensures Admit(o, args, host).productName == Some(host.stripExtension(host.basename(host.abspath(o.tablefile.value))))
  {
    var s0 := Start(o, args);
    assert s0.opts.tablefile == o.tablefile && s0.opts.unsetup == o.unsetup;
    TableGivesName(s0, host);
    TargetKeeps(UseTablefile(s0, host));
  }

  /** With a product named, an existing table file is made absolute and the name and --root are kept. */
  lemma TableKeepsProduct(o: Options, args: seq<string>, host: Host)
    requires Truthy(o.tablefile) && !o.unsetup && host.pathExists(o.tablefile.value)
    requires Truthy(ProductArg(args))
    ensures Admit(o, args, host).opts.tablefile == Some(host.abspath(o.tablefile.value))
    ensures Admit(o, args, host).opts.productDir == o.productDir
    ensures Admit(o, args, host).productName == ProductArg(args)
  {
    var s0 := Start(o, args);
    assert s0.opts.tablefile == o.tablefile && s0.opts.unsetup == o.unsetup && s0.opts.productDir == o.productDir;
    TableKeepsName(s0, host);
    TargetKeeps(UseTablefile(s0, host));
  }

  /** Admission after --table keeps the table file, the root and the product name. */
  lemma TargetKeeps(s: Stage)
    ensures Target(s).opts.tablefile == s.opts.tablefile && Target(s).opts.productDir == s.opts.productDir
    ensures Target(s).productName == s.productName
  {
  }

  lemma TableKeepsName(s: Stage, host: Host)
    requires Truthy(s.opts.tablefile) && !s.opts.unsetup && host.pathExists(s.opts.tablefile.value)
    requires Truthy(s.productName)
    ensures UseTablefile(s, host) == s.(opts := s.opts.(tablefile := Some(host.abspath(s.opts.tablefile.value))))
  {
  }

  lemma TableGivesName(s: Stage, host: Host)
    requires Truthy(s.opts.tablefile) && !s.opts.unsetup && host.pathExists(s.opts.tablefile.value)
    requires !Truthy(s.productName)
    ensures var path := host.abspath(s.opts.tablefile.value);
      UseTablefile(s, host) == s.(opts := s.opts.(tablefile := Some(path), productDir := Some(host.dirname(path))),
                                  productName := Some(host.stripExtension(host.basename(path))))
  {
  }

  // ---------------------------------------------------------------------
  // Status 3

  /** Without a product name, a --root or a usable table file, `execute` writes the complaint and the usage and returns 3. */
  lemma NothingNamedStops(o: Options, args: seq<string>, host: Host, engine: Engine, outer: bool)
    requires !Truthy(o.productDir) && !Truthy(ProductArg(args)) && (!Truthy(o.tablefile) || o.unsetup)
    ensures var e := ExecuteSpec(o, args, host, engine, outer);
      && e.outcome == Exit(3) && e.printed == []
      && e.diags == Start(o, args).diags + (if Truthy(o.tablefile) then [Message(TableIgnored)] else [])
                    + [Message(NameOrRootNeeded), Usage]
  {
    var s1 := UseTablefile(Start(o, args), host);
    var stop := s1.(diags := s1.diags + [Message(NameOrRootNeeded)] + [Usage], verdict := Stopped(NothingNamed));
    assert s1.diags == Start(o, args).diags + (if Truthy(o.tablefile) then [Message(TableIgnored)] else []);
    assert RequireTarget(s1) == stop;
    assert Admit(o, args, host) == stop;
    assert Normalise(o, args, host) == stop;
  }

  /** The work phase ends in status 0 or an exception; it never returns 3. */
  lemma WorkNeverStops(req: Request, args: seq<string>, engine: Engine, outer: bool)
    ensures var e := Work(req, args, engine, outer);
      e.outcome.Exit? ==> e.outcome.code == 0 && e.printed == [Join(";\n", engine.setup(req).value)]
  {
  }

  /** `execute` returns 3 exactly when normalisation stopped the request. */
  lemma StatusThreeExactly(o: Options, args: seq<string>, host: Host, engine: Engine, outer: bool)
    ensures ExecuteSpec(o, args, host, engine, outer).outcome == Exit(3) <==> Normalise(o, args, host).verdict.Stopped?
  {
    var s := Normalise(o, args, host);
    if s.verdict.Proceed? {
      WorkNeverStops(RequestOf(s), args, engine, outer);
    }
  }

  /** When normalisation stops the request, the engine plays no part in the result. */
  lemma StopsBeforeEngine(o: Options, args: seq<string>, host: Host, e1: Engine, e2: Engine, outer: bool)
    requires !Normalise(o, args, host).verdict.Proceed?
    ensures ExecuteSpec(o, args, host, e1, outer) == ExecuteSpec(o, args, host, e2, outer)
    ensures ExecuteSpec(o, args, host, e1, outer).printed == []
  {
  }

  // ---------------------------------------------------------------------
  // --root and the guessed product

  /**
   * With a --root (given, or taken from the table file), the directory is
   * made absolute and the product guessed from its ups directory; a guess
   * that raises ends the request, one that names no product gives status 3.
   */
  lemma RootGuessesProduct(o: Options, args: seq<string>, host: Host)
    requires Admit(o, args, host).verdict.Proceed? && Truthy(Admit(o, args, host).opts.productDir)
    ensures var a := Admit(o, args, host);
      var dir := host.abspath(a.opts.productDir.value);
      var s := Normalise(o, args, host);
      && s.opts.productDir == Some(dir)
      && match host.guessProduct(host.join(dir, "ups"), a.productName)
         case GuessRaised(t) => s.verdict == GuessFailed(t)
         case Guessed(name) =>
           && (Truthy(name) ==> s.productName == name)
           && (!Truthy(name) ==> s.verdict == Stopped(NoProduct))
  {
    SettleGuesses(Admit(o, args, host), host);
  }

  lemma SettleGuesses(a: Stage, host: Host)
    requires a.verdict.Proceed? && Truthy(a.opts.productDir)
    ensures var dir := host.abspath(a.opts.productDir.value);
      var s := Settle(a, host);
      && s.opts.productDir == Some(dir)
      && match host.guessProduct(host.join(dir, "ups"), a.productName)
         case GuessRaised(t) => s.verdict == GuessFailed(t)
         case Guessed(name) =>
           && (Truthy(name) ==> s.productName == name)
           && (!Truthy(name) ==> s.verdict == Stopped(NoProduct))
  {
    var g := GuessFromRoot(a, host);
    if !g.verdict.Proceed? {
      assert Settle(a, host) == g;
    } else {
      ConcludeShape(g, host);
      assert Settle(a, host) == Conclude(g, host);
    }
  }

  /** An EupsException from the guess leaves with status 4; any other exception leaves untagged. */
  lemma GuessFailureStatus(o: Options, args: seq<string>, host: Host, engine: Engine, t: Thrown, outer: bool)
    requires Normalise(o, args, host).verdict == GuessFailed(t)
    ensures var e := ExecuteSpec(o, args, host, engine, outer);
      && e.outcome.Raised? && e.outcome.exc == t && e.printed == []
      && (e.outcome.status == Some(4) <==> t.eups)
      && (e.outcome.status == None <==> !t.eups)
  {
  }

  // ---------------------------------------------------------------------
  // --just and --vro

  /** --just means depth 0; it cannot go ahead with a positive --max-depth; without it the depth is as given. */
  lemma JustMeansDepthZero(o: Options, args: seq<string>, host: Host)
    ensures var s := Normalise(o, args, host);
      && (s.verdict.Proceed? && o.nodepend ==> s.opts.maxDepth == 0)
      && (o.nodepend && o.maxDepth > 0 ==> !s.verdict.Proceed?)
      && (!o.nodepend ==> s.opts.maxDepth == o.maxDepth)
  {
    NormaliseFrame(o, args, host);
  }

  /** A request that goes ahead has a VRO: the one given, or the configured default. */
  lemma VroDefaulted(o: Options, args: seq<string>, host: Host)
    ensures var s := Normalise(o, args, host);
      s.verdict.Proceed? ==> s.opts.vro == if Truthy(o.vro) then o.vro else Some(host.defaultVro)
  {
    NormaliseFrame(o, args, host);
  }

  /** The request handed to the engine: the names, the command, and the VRO tag chosen by precedence. */
  lemma RequestNormalised(o: Options, args: seq<string>, host: Host)
    requires Normalise(o, args, host).verdict.Proceed?
    ensures RequestOf(Normalise(o, args, host)).productName != ""
    ensures RequestOf(Normalise(o, args, host)).versionName == VersionArg(args)
    ensures RequestOf(Normalise(o, args, host)).cmdName == if o.unsetup then "unsetup" else "setup"
    ensures RequestOf(Normalise(o, args, host)).opts.vro.Some?
    ensures RequestOf(Normalise(o, args, host)).vroTag
         == VroTag(Normalise(o, args, host).opts, VersionArg(args))
  {
    NormaliseFrame(o, args, host);
    VroDefaulted(o, args, host);
  }

  // ---------------------------------------------------------------------
  // The work phase and its statuses

  /** The work succeeds exactly when every engine step it makes returns (`getVRO` is only asked at -vv). */
  lemma WorkSucceeds(req: Request, args: seq<string>, engine: Engine, outer: bool)
    ensures Work(req, args, engine, outer).outcome == Exit(0)
        <==> && engine.create(req.opts).None?
             && engine.setVro(req.vroTag, req.opts.dbz).None?
             && (req.opts.verbose > 1 ==> engine.getVro(req.vroTag, req.opts.dbz).Returned?)
             && engine.callbacks(req.cmdName, req.opts, args).None?
             && engine.setup(req).Returned?
  {
  }

  /**
   * An exception from building the engine, setting the VRO, reporting it or
   * `eups.setup` carries 1 if it is an EupsException, else -1.
   */
  lemma EngineFailureStatus(req: Request, args: seq<string>, engine: Engine, t: Thrown, outer: bool)
    requires || engine.create(req.opts) == Some(t)
             || (engine.create(req.opts).None? && engine.setVro(req.vroTag, req.opts.dbz) == Some(t))
             || (&& engine.create(req.opts).None? && engine.setVro(req.vroTag, req.opts.dbz).None?
                 && req.opts.verbose > 1 && engine.getVro(req.vroTag, req.opts.dbz) == Threw(t))
             || (&& engine.create(req.opts).None? && engine.setVro(req.vroTag, req.opts.dbz).None?
                 && (req.opts.verbose > 1 ==> engine.getVro(req.vroTag, req.opts.dbz).Returned?)
                 && engine.callbacks(req.cmdName, req.opts, args).None? && engine.setup(req) == Threw(t))
    ensures Work(req, args, engine, outer).outcome == Raised(t, Some(if t.eups then 1 else -1))
    ensures Work(req, args, engine, outer).printed == []
  {
  }

  /** An exception from the command callbacks carries 255 if it is an OperationForbidden, else 9 (the corrected behaviour). */
  lemma CallbackFailureStatus(req: Request, args: seq<string>, engine: Engine, t: Thrown)
    requires engine.create(req.opts).None? && engine.setVro(req.vroTag, req.opts.dbz).None?
    requires req.opts.verbose > 1 ==> engine.getVro(req.vroTag, req.opts.dbz).Returned?
    requires engine.callbacks(req.cmdName, req.opts, args) == Some(t)
    ensures Work(req, args, engine, false).outcome == Raised(t, Some(if t.forbidden then 255 else 9))
    ensures Work(req, args, engine, false).printed == []
  {
  }

  /**
   * As written, the callback handlers sit inside the handlers around the
   * whole work phase, so the status they attach is overwritten with 1 or
   * -1: a callback failure never leaves with 255 or 9.
   */
  lemma CallbackStatusOverwritten(req: Request, args: seq<string>, engine: Engine, t: Thrown)
    requires engine.create(req.opts).None? && engine.setVro(req.vroTag, req.opts.dbz).None?
    requires req.opts.verbose > 1 ==> engine.getVro(req.vroTag, req.opts.dbz).Returned?
    requires engine.callbacks(req.cmdName, req.opts, args) == Some(t)
    ensures Work(req, args, engine, true).outcome == Raised(t, Some(if t.eups then 1 else -1))
    ensures Work(req, args, engine, true).outcome != Work(req, args, engine, false).outcome
  {
  }

  /** An engine whose callbacks forbid the operation. */
  function Forbidding(t: Thrown): Engine
  {
    Engine(o => None, (tag, dbz) => None, (tag, dbz) => Returned(""), (cmd, o, a) => Some(t), r => Returned([]), o => 0)
  }

  /**
   * The input that shows it: an OperationForbidden from a callback leaves
   * with 1 if that class is an EupsException and with -1 if it is not, where
   * 255 is intended either way.
   */
  lemma ForbiddenCallbackExample(req: Request, args: seq<string>)
    ensures Work(req, args, Forbidding(Thrown(true, true, "forbidden")), true).outcome
         == Raised(Thrown(true, true, "forbidden"), Some(1))
    ensures Work(req, args, Forbidding(Thrown(false, true, "forbidden")), true).outcome
         == Raised(Thrown(false, true, "forbidden"), Some(-1))
    ensures Work(req, args, Forbidding(Thrown(true, true, "forbidden")), false).outcome
         == Raised(Thrown(true, true, "forbidden"), Some(255))
    ensures Work(req, args, Forbidding(Thrown(false, true, "forbidden")), false).outcome
         == Raised(Thrown(false, true, "forbidden"), Some(255))
  {
  }

  // ---------------------------------------------------------------------
  // run

  /** --help wins over everything: status 0, nothing written. */
  lemma HelpFirst(o: Options, args: seq<string>, host: Host, engine: Engine, outer: bool)
    requires o.help
    ensures RunSpec(o, args, host, engine, outer) == Execution(o, [], Exit(0), [])
  {
  }

  /** --version: status 0, and the banner unless -q. */
  lemma VersionSecond(o: Options, args: seq<string>, host: Host, engine: Engine, outer: bool)
    requires !o.help && o.version
    ensures RunSpec(o, args, host, engine, outer)
         == Execution(o, if o.quiet then [] else [Message(VersionBanner(host.eupsVersion))], Exit(0), [])
  {
  }

  /** --list, then --current: status 2, and the deprecation notice unless -q. */
  lemma DeprecatedOptions(o: Options, args: seq<string>, host: Host, engine: Engine, outer: bool)
    requires !o.help && !o.version && (o.list || o.current)
    ensures RunSpec(o, args, host, engine, outer)
         == Execution(o, if o.quiet then [] else [Message(if o.list then ListGone else CurrentGone)], Exit(2), [])
  {
  }

  /** Otherwise `run` is `execute`. */
  lemma RunExecutes(o: Options, args: seq<string>, host: Host, engine: Engine, outer: bool)
    requires !o.help && !o.version && !o.list && !o.current
    ensures RunSpec(o, args, host, engine, outer) == ExecuteSpec(o, args, host, engine, outer)
  {
  }

  /** The work phase raises only with status 1 or -1 as written, and with 1, -1, 255 or 9 as intended. */
  lemma WorkStatuses(req: Request, args: seq<string>, engine: Engine)
    ensures Work(req, args, engine, true).outcome.Raised?
        ==> Work(req, args, engine, true).outcome.status in {Some(1), Some(-1)}
    ensures Work(req, args, engine, false).outcome.Raised?
        ==> Work(req, args, engine, false).outcome.status in {Some(1), Some(-1), Some(255), Some(9)}
  {
  }

  /** A stopped normalisation returns 3, or raises the guess's exception with status 4 or, when not an EupsException, none. */
  lemma HaltStatuses(v: Verdict)
    requires !v.Proceed?
    ensures Halt(v).Exit? ==> Halt(v).code == 3
    ensures Halt(v).Raised? ==> Halt(v).status in {None, Some(4)}
    ensures Halt(v).Raised? && Halt(v).status == None ==> !Halt(v).exc.eups
  {
  }

  /**
   * The exit-status contract of the command as written: it returns 0, 2 or
   * 3, or raises with status 4, 1 or -1 (never 255 or 9); only an exception
   * from the guess that is not an EupsException leaves with no status.
   */
  lemma RunStatuses(o: Options, args: seq<string>, host: Host, engine: Engine)
    ensures RunSpec(o, args, host, engine, true).outcome.Raised?
        ==> RunSpec(o, args, host, engine, true).outcome.status in {None, Some(4), Some(1), Some(-1)}
    ensures RunSpec(o, args, host, engine, true).outcome.Raised? && RunSpec(o, args, host, engine, true).outcome.status == None
        ==> !RunSpec(o, args, host, engine, true).outcome.exc.eups
    ensures RunSpec(o, args, host, engine, true).outcome.Raised? && RunSpec(o, args, host, engine, true).outcome.status == None
        ==> EarlyExit(o).None? && Normalise(o, args, host).verdict.GuessFailed?
  {
    if EarlyExit(o).None? {
      var s := Normalise(o, args, host);
      if s.verdict.Proceed? {
        WorkStatuses(RequestOf(s), args, engine);
        assert RunSpec(o, args, host, engine, true).outcome == Work(RequestOf(s), args, engine, true).outcome;
      } else {
        HaltStatuses(s.verdict);
        assert RunSpec(o, args, host, engine, true).outcome == Halt(s.verdict);
      }
    }
  }

  /**
   * The exit-status contract as intended: callback failures add 255 and 9 to
   * the statuses an exception can carry.
   */
  lemma RunStatusesCorrected(o: Options, args: seq<string>, host: Host, engine: Engine)
    ensures RunSpec(o, args, host, engine, false).outcome.Raised?
        ==> RunSpec(o, args, host, engine, false).outcome.status in {None, Some(4), Some(1), Some(-1), Some(255), Some(9)}
    ensures RunSpec(o, args, host, engine, false).outcome.Raised? && RunSpec(o, args, host, engine, false).outcome.status == None
        ==> !RunSpec(o, args, host, engine, false).outcome.exc.eups
    ensures RunSpec(o, args, host, engine, false).outcome.Raised? && RunSpec(o, args, host, engine, false).outcome.status == None
        ==> EarlyExit(o).None? && Normalise(o, args, host).verdict.GuessFailed?
  {
    if EarlyExit(o).None? {
      var s := Normalise(o, args, host);
      if s.verdict.Proceed? {
        WorkStatuses(RequestOf(s), args, engine);
        assert RunSpec(o, args, host, engine, false).outcome == Work(RequestOf(s), args, engine, false).outcome;
      } else {
        HaltStatuses(s.verdict);
        assert RunSpec(o, args, host, engine, false).outcome == Halt(s.verdict);
      }
    }
  }
}
