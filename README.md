# EUPS `setup` command and exception family, in Dafny

This project models two files of EUPS, the software-stack manager:

- `python/eups/setupcmd.py` is the `setup` / `unsetup` command.
  - `EupsSetup` parses its command line.
  - `run` answers `--help`, `--version` and the deprecated `--list` / `--current` itself.
  - Otherwise `execute` normalises the request. It reconciles `--exact` with `--inexact`, uses `--table` when given, requires a product or `--root`, lets a version imply `--exact`, guesses the product from `--root`, applies `--just` and defaults `--vro`.
  - It then builds the EUPS engine, sets the version resolution order (VRO), runs the command callbacks and asks the engine for the shell commands, which it prints.
  - Every early stop returns status 3. A failure re-raises the exception, usually with a `status` attribute naming the exit status it should cause.
  - Two cases leave without the intended status. An exception from guessing the product that is not an `EupsException` passes untagged. And as written, the status a failing command callback gets is overwritten (see "## Findings").
- `python/eups/exceptions.py` is `EupsException` and its three kinds: `ProductNotFound`, `UnderSpecifiedProduct` and `TablefileNotFound`. Each stores its fields and, when no message is given, builds a default message from the fields that are present.

Layout:

- `optional.dfy`: the `Option` type.
- `sequences.dfy`: module `Sequences`, the associativity of concatenation that both other modules use.
- `exceptions.dfy`: module `Exceptions`.
  - A default message is specified as a template: a list of slots, one per part of the message, each with text exactly when its argument is present.
  - They are rendered by `Render(Fill(...))`.
  - The class `EupsException` builds its message step by step, as the source does, and is proved equal to the rendered template.
- `setupcmd.dfy`: module `SetupCmd`.
  - Each normalisation stage of `execute` is a function on a `Stage` value (options, product name, version name, diagnostics so far, verdict).
  - The whole of `execute` is `ExecuteSpec` and the whole of `run` is `RunSpec`. Both take a flag: `true` is the source as written, where the callback statuses are overwritten; `false` is the evidently intended behaviour.
  - The class `EupsSetup` holds the parsed options, the error stream and standard output as fields. Its methods `Run`, `Execute` and the stage methods update them in place, as the source is written, and are proved to end in exactly the state the functions describe with the flag `true`.
- `setupprops.dfy`: module `SetupCmdProperties`. These are the properties of the command proved about those functions: exit statuses, what normalisation may touch, `--table`, `--root`, `--just`, `--vro`, and the finding below.

Everything the command reads from outside is a parameter:

- A `Host` value holds the option parser's result, the filesystem functions, `guessProduct` and the hooks configuration.
- An `Engine` value holds the engine steps, each an opaque function that returns normally or throws.
- An exception raised by foreign code is a `Thrown` value. It records whether it is an `EupsException` and whether it is an `OperationForbidden`.

## Model

| member | source | states |
|---|---|---|
| Exceptions.EupsException.constructor | python/eups/exceptions.py:12-17 | a plain EUPS failure stores exactly the given message |
| Exceptions.EupsException.GetMessage | python/eups/exceptions.py:25-29 | `getMessage()` returns the stored message |
| Exceptions.EupsException.ToString | python/eups/exceptions.py:19-23 | `str()` of an exception is its `getMessage()` |
| Exceptions.EupsException.ProductNotFound | python/eups/exceptions.py:50-78 | an explicit message is kept verbatim; otherwise the message is the rendered ProductNotFound template; stores name, version, the flavors as a list, and stack |
| Exceptions.EupsException.UnderSpecifiedProduct | python/eups/exceptions.py:92-112 | an explicit message is kept verbatim; otherwise the message is the rendered UnderSpecifiedProduct template; stores name, version and flavor unchanged |
| Exceptions.EupsException.TablefileNotFound | python/eups/exceptions.py:124-150 | an explicit message is kept verbatim; otherwise the message is the rendered TablefileNotFound template; stores table file, name, version and flavor unchanged |
| Exceptions.StoredFlavors | python/eups/exceptions.py:75-77 | a list of flavors is stored as given; anything else becomes a one-element list holding it (`[None]` when absent) |
| Exceptions.FillKeepsOrder | python/eups/exceptions.py:62-71 | the parts of a default message always appear in the order the template lists them |
| Exceptions.FillPresence | python/eups/exceptions.py:62-71 | a part appears in a default message exactly when some slot for it has text |
| Exceptions.NotFoundLayout | python/eups/exceptions.py:63-71 | the ProductNotFound message is: name, version iff given, flavors iff truthy, "not found", stack iff given, in that order |
| Exceptions.NotFoundPresence | python/eups/exceptions.py:65-71 | version, flavors and stack each appear in the message exactly when their argument is given (flavors: when truthy) |
| Exceptions.NotFoundText | python/eups/exceptions.py:63-71 | the ProductNotFound message written out: `"Product " + name`, `" " + version`, `" for " + str(flavors)`, `" not found"`, `" in " + stack` |
| Exceptions.UnderSpecifiedLayout | python/eups/exceptions.py:101-106 | the UnderSpecifiedProduct message is: the name (possibly "None"), version iff given, flavor iff given, in that order |
| Exceptions.UnderSpecifiedPresence | python/eups/exceptions.py:103-106 | version and flavor each appear exactly when given |
| Exceptions.UnderSpecifiedText | python/eups/exceptions.py:101-106 | the UnderSpecifiedProduct message written out: `"Under-specified product: " + str(name)`, `" ver: " + version`, `" flavor: " + flavor` |
| Exceptions.TablefileLayout | python/eups/exceptions.py:134-143 | the TablefileNotFound message is: "Table file not found", then name, version, flavor and table file, each iff given, in that order |
| Exceptions.TablefilePresence | python/eups/exceptions.py:136-143 | name, version, flavor and table file each appear exactly when given |
| Exceptions.TablefileText | python/eups/exceptions.py:134-143 | the TablefileNotFound message written out: `" for " + name`, `" " + version`, `" (" + flavor + ")"`, `": " + tablefile` |
| SetupCmd.Emitted | python/eups/setupcmd.py:271-278 | `err` writes one line `prog: msg` iff not quiet and verbose >= volume, and nothing otherwise |
| SetupCmd.QuietWritesOnlyUsage | python/eups/setupcmd.py:271-278 | with `-q` the only lines on the error stream are usage texts |
| SetupCmd.LoudWritesEverything | python/eups/setupcmd.py:271-278 | without `-q` every diagnostic writes exactly one line, since `execute` calls `err` at volume 0 |
| SetupCmd.ToolName | python/eups/setupcmd.py:44-48 | the program name is non-empty: the given tool name, else the configured name when there is a command line, else "setup" |
| SetupCmd.QuietOverride | python/eups/setupcmd.py:62-63 | `-q` forces verbosity 0; nothing else changes |
| SetupCmd.EarlyExit | python/eups/setupcmd.py:65-84 | `run` answers by itself exactly when help, version, list or current is set: 0 for help/version, 2 for list/current |
| SetupCmd.EarlyNotice | python/eups/setupcmd.py:70-82 | `run` writes at most one message of its own, the version banner or a deprecation notice, and only when not `-q` and not `--help` |
| SetupCmd.ReconcileExact | python/eups/setupcmd.py:141-144 | `--exact --inexact` together are both dropped; otherwise nothing changes; they are never both set afterwards |
| SetupCmd.Start | python/eups/setupcmd.py:141-150 | `--exact` and `--inexact` are never both left set; the conflict message is issued iff both were given; the product and version are the first and second arguments when present |
| SetupCmd.UseTablefile | python/eups/setupcmd.py:152-166 | the `--table` stage changes only the table file and `--root`, and never the version |
| SetupCmd.RequireTarget | python/eups/setupcmd.py:168-171 | requiring a product or `--root` changes no option or name |
| SetupCmd.AnnounceSearch | python/eups/setupcmd.py:173-182 | announcing the tag search changes no option, name or verdict |
| SetupCmd.ImplyExact | python/eups/setupcmd.py:184-187 | implying `--exact` changes only `--exact`, never a name or the verdict |
| SetupCmd.GuessFromRoot | python/eups/setupcmd.py:189-195 | the `--root` stage changes only `--root` among the options and says nothing |
| SetupCmd.RequireProduct | python/eups/setupcmd.py:197-200 | requiring a product changes no option or name |
| SetupCmd.ApplyJust | python/eups/setupcmd.py:202-206 | `--just` changes only `--max-depth` and no name |
| SetupCmd.DefaultVro | python/eups/setupcmd.py:208-209 | defaulting the VRO changes only `--vro`, and says nothing |
| SetupCmd.Target | python/eups/setupcmd.py:168-187 | the stages after `--table` change only `--exact` and no name |
| SetupCmd.Admit | python/eups/setupcmd.py:141-187 | admission takes the version from the second argument and keeps `-q` and `-v` |
| SetupCmd.Conclude | python/eups/setupcmd.py:197-209 | a request that goes on past the product check has a non-empty product name |
| SetupCmd.Settle | python/eups/setupcmd.py:189-209 | a request that goes on after admission had been admitted and has a non-empty product name |
| SetupCmd.Normalise | python/eups/setupcmd.py:141-209 | a request that goes on to the engine has a non-empty product name, the command-line version, and the original `-q` / `-v` |
| SetupCmd.Halt | python/eups/setupcmd.py:160-205 | a stopped request returns 3; a raising guess re-raises its exception, tagged 4 iff it is an EupsException and untagged otherwise (lines 193-195) |
| SetupCmd.VroTag | python/eups/setupcmd.py:224-232 | the VRO tag is `--tag` if given, else "path" iff `--root`, else "commandLineVersion" iff a version, else "default" |
| SetupCmd.VroReport | python/eups/setupcmd.py:236-237 | at `-vv` the VRO in use is reported as one message, and `getVRO` may raise; below `-vv` nothing is said and nothing is asked |
| SetupCmd.Work | python/eups/setupcmd.py:213-269 | the work phase hands on the normalised options unchanged, returns only status 0, and prints only then |
| SetupCmd.ExecuteSpec | python/eups/setupcmd.py:139-269 | `execute` returns only 0 or 3, prints only on success, and keeps every message normalisation issued |
| SetupCmd.RunSpec | python/eups/setupcmd.py:65-84 | `run` returns only 0, 2 or 3; when it answers by itself it returns the early status and prints nothing |
| SetupCmd.EupsSetup.constructor | python/eups/setupcmd.py:41-63 | the program name is `ToolName`; the arguments are the given ones or `argv[1:]`; the options are the parser's, with `-q` overriding `-v`; nothing written yet |
| SetupCmd.EupsSetup.Err | python/eups/setupcmd.py:271-278 | appends to the error stream exactly the lines `Emitted` gives |
| SetupCmd.EupsSetup.Say | python/eups/setupcmd.py:159 | one diagnostic (a message through `err`, or the usage text) extends the error stream by its lines |
| SetupCmd.EupsSetup.Run | python/eups/setupcmd.py:65-84 | outcome, final options, standard output and error stream are exactly those of `RunSpec` as written |
| SetupCmd.EupsSetup.Execute | python/eups/setupcmd.py:139-269 | outcome, final options, standard output and error stream are exactly those of `ExecuteSpec` as written |
| SetupCmd.EupsSetup.Admitting | python/eups/setupcmd.py:141-187 | the options, names, diagnostics and stop of the first stages are exactly `Admit` |
| SetupCmd.EupsSetup.Starting | python/eups/setupcmd.py:141-150 | the reconciled options, the positional names and the conflict message are exactly `Start` |
| SetupCmd.EupsSetup.Tabling | python/eups/setupcmd.py:152-166 | the `--table` stage in place ends exactly as `UseTablefile` |
| SetupCmd.EupsSetup.Targeting | python/eups/setupcmd.py:168-187 | the target and exactness stages in place end exactly as `Target` |
| SetupCmd.EupsSetup.Guessing | python/eups/setupcmd.py:189-195 | the `--root` stage in place ends exactly as `GuessFromRoot`, with the guess's exception as the failure |
| SetupCmd.EupsSetup.Concluding | python/eups/setupcmd.py:197-209 | the product, `--just` and `--vro` stages in place end exactly as `Conclude` |
| SetupCmd.EupsSetup.Working | python/eups/setupcmd.py:213-269 | the work phase in place yields exactly the outcome, messages and printed commands of `Work` as written: a callback failure is tagged 255 or 9 and then re-tagged 1 or -1 |
| SetupCmdProperties.TablefileStep | python/eups/setupcmd.py:152-166 | the `--table` stage touches only normalised options and only adds diagnostics |
| SetupCmdProperties.RequireTargetStep | python/eups/setupcmd.py:168-171 | requiring a target only adds diagnostics |
| SetupCmdProperties.AnnounceStep | python/eups/setupcmd.py:173-182 | announcing the search only adds diagnostics |
| SetupCmdProperties.ImplyExactStep | python/eups/setupcmd.py:184-187 | implying `--exact` touches only normalised options and only adds diagnostics |
| SetupCmdProperties.GuessStep | python/eups/setupcmd.py:189-195 | the guess touches only normalised options and keeps the diagnostics |
| SetupCmdProperties.ProductStep | python/eups/setupcmd.py:197-200 | requiring a product only adds diagnostics |
| SetupCmdProperties.JustStep | python/eups/setupcmd.py:202-206 | `--just` touches only normalised options and only adds diagnostics |
| SetupCmdProperties.TargetSteps | python/eups/setupcmd.py:168-187 | the stages after `--table` together touch only normalised options and only add diagnostics |
| SetupCmdProperties.ConcludeSteps | python/eups/setupcmd.py:197-209 | the concluding stages together touch only normalised options and only add diagnostics |
| SetupCmdProperties.SettleSteps | python/eups/setupcmd.py:189-209 | the stages after admission together touch only normalised options and only add diagnostics |
| SetupCmdProperties.TargetReconciled | python/eups/setupcmd.py:184-187 | implying `--exact` never sets it beside a surviving `--inexact` |
| SetupCmdProperties.ConcludeShape | python/eups/setupcmd.py:197-209 | concluding changes only `--max-depth` and `--vro`, keeps the product name, and stops with "no product" when none is known |
| SetupCmdProperties.SettleShape | python/eups/setupcmd.py:189-209 | after admission only `--root`, `--max-depth` and `--vro` change |
| SetupCmdProperties.NormaliseFrame | python/eups/setupcmd.py:141-209 | normalisation changes only `--exact`, `--inexact`, `--table`, `--root`, `--max-depth` and `--vro`, and keeps every diagnostic it issued |
| SetupCmdProperties.NormaliseParts | python/eups/setupcmd.py:141-209 | after `--table` only `--exact`, `--root`, `--max-depth` and `--vro` change, and `--exact` and `--inexact` are never both set |
| SetupCmdProperties.ExactnessReconciled | python/eups/setupcmd.py:141-144 | `--exact` and `--inexact` are never both set; `--inexact` survives iff given alone; a conflict is the first message |
| SetupCmdProperties.VersionImpliesExact | python/eups/setupcmd.py:184-187 | for a request that goes ahead, a named version means exact matching unless `--inexact` was given alone; without one, `--exact` is as given unless it conflicted |
| SetupCmdProperties.TargetExact | python/eups/setupcmd.py:184-185 | once a target is known, `--exact` is set by a named version unless `--inexact` is set |
| SetupCmdProperties.UnsetupIgnoresTable | python/eups/setupcmd.py:153-155 | when unsetting up, `--table` is cleared and the "Ignoring --table" message is issued |
| SetupCmdProperties.MissingTableStops | python/eups/setupcmd.py:157-160 | a missing table file gives status 3, the "does not exist" message and the usage, nothing printed, the engine untouched |
| SetupCmdProperties.TableNamesProduct | python/eups/setupcmd.py:162-166 | with no product named, an existing table file is made absolute, its directory becomes `--root` and its base name without extension the product |
| SetupCmdProperties.TableKeepsProduct | python/eups/setupcmd.py:162-164 | with a product named, an existing table file is made absolute and the product and `--root` are kept |
| SetupCmdProperties.TargetKeeps | python/eups/setupcmd.py:168-187 | the stages after `--table` keep the table file, `--root` and the product name |
| SetupCmdProperties.TableKeepsName | python/eups/setupcmd.py:162-164 | with a product name, the `--table` stage only makes the table file absolute |
| SetupCmdProperties.TableGivesName | python/eups/setupcmd.py:162-166 | without a product name, the `--table` stage sets the table file, `--root` and the product from the absolute path |
| SetupCmdProperties.NothingNamedStops | python/eups/setupcmd.py:168-171 | with no product, no `--root` and no usable table file, `execute` returns 3 after the complaint and the usage, printing nothing |
| SetupCmdProperties.WorkNeverStops | python/eups/setupcmd.py:213-269 | the work phase returns only 0, and then prints the engine's commands joined by ";\n" |
| SetupCmdProperties.StatusThreeExactly | python/eups/setupcmd.py:139-269 | `execute` returns 3 exactly when a normalisation stage stopped the request |
| SetupCmdProperties.StopsBeforeEngine | python/eups/setupcmd.py:139-209 | a stopped request does not depend on the engine and prints nothing |
| SetupCmdProperties.RootGuessesProduct | python/eups/setupcmd.py:189-200 | with `--root`, the directory is made absolute and the product guessed from its `ups` directory; a raising guess ends the request, an empty guess gives "no product" |
| SetupCmdProperties.SettleGuesses | python/eups/setupcmd.py:189-200 | the same, for any admitted stage |
| SetupCmdProperties.GuessFailureStatus | python/eups/setupcmd.py:191-195 | an exception from the guess is re-raised, tagged 4 iff it is an EupsException and untagged otherwise, with nothing printed |
| SetupCmdProperties.JustMeansDepthZero | python/eups/setupcmd.py:202-206 | `--just` means depth 0; it never goes ahead with a positive `--max-depth`; without it the depth is as given |
| SetupCmdProperties.VroDefaulted | python/eups/setupcmd.py:208-209 | a request that goes ahead has the given `--vro`, or the configured VRO when none was given |
| SetupCmdProperties.RequestNormalised | python/eups/setupcmd.py:225-255 | the request handed to `eups.setup` has a non-empty product, the command-line version, "unsetup"/"setup" by `-u`, a VRO, and the tag chosen by precedence |
| SetupCmdProperties.WorkSucceeds | python/eups/setupcmd.py:213-269 | the work ends in status 0 exactly when every engine step it makes returns (`getVRO` only at `-vv`), as written and as intended |
| SetupCmdProperties.EngineFailureStatus | python/eups/setupcmd.py:213-262 | an exception from building the engine, `setVRO`, `getVRO` or `eups.setup` is re-raised with status 1 if it is an EupsException, else -1, with nothing printed, as written and as intended |
| SetupCmdProperties.CallbackFailureStatus | python/eups/setupcmd.py:244-251 | corrected: an exception from the callbacks leaves with status 255 if it is an OperationForbidden, else 9, with nothing printed |
| SetupCmdProperties.CallbackStatusOverwritten | python/eups/setupcmd.py:244-262 | as written: a callback exception leaves with 1 or -1, never with the 255 / 9 its own handler set |
| SetupCmdProperties.ForbiddenCallbackExample | python/eups/setupcmd.py:246-261 | a forbidden operation in a callback leaves with 1 (if OperationForbidden is an EupsException) or -1 (if not) as written, 255 as intended |
| SetupCmdProperties.HelpFirst | python/eups/setupcmd.py:66-68 | `--help` gives status 0 before anything else, writing nothing |
| SetupCmdProperties.VersionSecond | python/eups/setupcmd.py:70-73 | `--version` gives status 0 and the version banner unless `-q` |
| SetupCmdProperties.DeprecatedOptions | python/eups/setupcmd.py:75-82 | `--list`, then `--current`, gives status 2 and its notice unless `-q` |
| SetupCmdProperties.RunExecutes | python/eups/setupcmd.py:84 | otherwise `run` is `execute` |
| SetupCmdProperties.WorkStatuses | python/eups/setupcmd.py:244-262 | as written the work phase raises only with status 1 or -1; as intended with 1, -1, 255 or 9 |
| SetupCmdProperties.HaltStatuses | python/eups/setupcmd.py:160-205 | a stopped normalisation returns 3, or raises the guess's exception with status 4, or untagged only when it is not an EupsException |
| SetupCmdProperties.RunStatuses | python/eups/setupcmd.py:65-269 | the command as written raises only with status 4, 1 or -1, never 255 or 9; only a non-EUPS exception from the guess leaves untagged |
| SetupCmdProperties.RunStatusesCorrected | python/eups/setupcmd.py:65-269 | as intended, the command raises with status 4, 1, -1, 255 or 9; only a non-EUPS exception from the guess leaves untagged |

## Left out

- `addOptions`, the option parser and the help text: the parser is a function in `Host` (`parse`) and its usage text a string; `print_help` is not modelled and `--help` writes nothing in the model.
- `sys.argv`, `os.path` and `hooks.config` are inputs in `Host`; `eups.version()` is a string there. The error stream (`sys.stderr`) is the `errLog` field of `EupsSetup`, and standard output its `out` field.
- The EUPS engine: `eups.Eups(...)`, `setVRO`, `getVRO`, `eups.commandCallbacks.apply` and `eups.setup` are opaque functions in `Engine` that return or throw; what they do inside is not part of this model.
- The command callbacks receive `self.opts` and may change it in the source; in the model they cannot change the options.
- `Eups.verbose` (the engine's own verbosity, tested before "Issuing commands") is the opaque `Engine.verbosity` of the options.
- Exceptions thrown by foreign code are only their kind (`Thrown`): whether they are an EupsException, an OperationForbidden, and a message; an exception's `status` attribute is the `status` of `Outcome.Raised`.
- Exceptions that are not `Exception`s (`KeyboardInterrupt`, `SystemExit`) pass both handlers of the source untagged; the model has no such exceptions.
- Options `execute` only hands on to the engine (flavor, path, setup type, force, keep, noaction, ignore-versions) are grouped in `Settings` and never inspected; `--debug` is grouped there too, but the command never reads it.
- `print` and `print >>` write whole lines: standard output and the error stream are modelled as sequences of lines, each `print` one element without its newline.
- Exceptions.ElementRepr: Python's `repr` of a flavor-list element is approximated as the string in single quotes, without escaping quotes or backslashes inside it.
- Exceptions.FlavorsText: a `flavors` argument is None, a string or a list of strings or Nones; other Python values are not modelled.
- Exceptions: the arguments `version`, `stack`, `productName`, `flavor` and `tablefile` are strings or None; `str()` of other Python values is not modelled.
- Exceptions.EupsException.ProductNotFound: `name` is a string. The source also accepts `name=None` together with an explicit message, and without one raises a `TypeError` when it builds the default message; neither case is modelled.
- Exceptions.EupsException: the three kinds are one class with a `kind` field, since the model has no subclassing; `isinstance` checks against the kinds are not modelled.
- SetupCmd.Work: its own contract states only the options, the status 0 and what is printed; which exception it raises with which status is stated by `WorkSucceeds`, `EngineFailureStatus`, `CallbackFailureStatus`, `CallbackStatusOverwritten`, `WorkStatuses` and `WorkNeverStops`.
- The text `getVRO` returns is an opaque string: how the engine renders its VRO list is not modelled.

## Findings

| source | as written | input that shows it | evidently intended | confidence | as-written member | corrected member |
|---|---|---|---|---|---|---|
| python/eups/setupcmd.py:244-262 | the handlers around `commandCallbacks.apply` set `status` to 255 (OperationForbidden) or 9 and re-raise, but the re-raise happens inside the outer `try`, whose handlers set `status` again to 1 (EupsException) or -1 | a command callback that raises `OperationForbidden`: it leaves with status 1 if that class subclasses EupsException and -1 if it does not, never 255; any other callback exception leaves with 1 or -1, not 9 | a callback failure leaves with the status its own handler set: 255 for a forbidden operation, 9 otherwise | not executed | SetupCmdProperties.CallbackStatusOverwritten, SetupCmdProperties.ForbiddenCallbackExample, SetupCmdProperties.RunStatuses (`SetupCmd.Work` and `SetupCmd.ExecuteSpec` with the flag `true`, which `SetupCmd.EupsSetup.Working` and `SetupCmd.EupsSetup.Run` follow) | SetupCmdProperties.CallbackFailureStatus, SetupCmdProperties.RunStatusesCorrected (`SetupCmd.Work` and `SetupCmd.ExecuteSpec` with the flag `false`) |
