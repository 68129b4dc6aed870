/**
 * The current revision of the shell connector: it writes the script to an
 * executable temporary file, runs `<interpreter> <parameter> <file>` with the
 * standard error merged into the standard output, captures that output and
 * the exit status into the output parameters `result` and `exitStatus`, and
 * then deletes the file.
 */
module ShellConnector {
  import opened Wrappers
  import opened Text
  import opened Process

  const InterpreterMessage: string := "interpreter cannot be empty!"
  const ParameterMessage: string := "parameter cannot be empty!"
  const ScriptMessage: string := "script cannot be empty!"

  /** Prefix of the temporary script file's name. */
  const ScriptPrefix: string := "script"
  const ResultName: string := "result"
  const ExitStatusName: string := "exitStatus"

  // ---------------------------------------------------------------------------
  // Input validation
  // ---------------------------------------------------------------------------

  /** `string == null || string.isEmpty()`. */
  predicate IsNullOrEmpty(s: Option<string>)
  {
    s.None? || |s.value| == 0
  }

  /** The verdict of `validateInputParameters`: it returns, or throws a `ConnectorValidationException` with these messages. */
  datatype Validation = Valid | Invalid(errors: seq<string>)

  /** The messages for the missing fields, in the order interpreter, parameter, script. */
  function MissingFieldMessages(interpreter: Option<string>, parameter: Option<string>, script: Option<string>): seq<string>
  {
    (if IsNullOrEmpty(interpreter) then [InterpreterMessage] else [])
    + (if IsNullOrEmpty(parameter) then [ParameterMessage] else [])
    + (if IsNullOrEmpty(script) then [ScriptMessage] else [])
  }

  /** What validation decides for the three inputs. */
  function Validate(interpreter: Option<string>, parameter: Option<string>, script: Option<string>): Validation
  {
    var errors := MissingFieldMessages(interpreter, parameter, script);
    if errors == [] then Valid else Invalid(errors)
  }

  /** Position of a validation message in the field order; 3 for any other text. */
  function FieldRank(message: string): nat
  {
    if message == InterpreterMessage then 0
    else if message == ParameterMessage then 1
    else if message == ScriptMessage then 2
    else 3
  }

  /** Number of the three inputs that are null or empty. */
  function MissingCount(interpreter: Option<string>, parameter: Option<string>, script: Option<string>): nat
  {
    (if IsNullOrEmpty(interpreter) then 1 else 0)
    + (if IsNullOrEmpty(parameter) then 1 else 0)
    + (if IsNullOrEmpty(script) then 1 else 0)
  }

  /**
   * Validation fails exactly when a field is null or empty, and then lists
   * exactly one message per such field, in the order interpreter, parameter,
   * script, and nothing else.
   */
  lemma ValidationReportsMissingFields(interpreter: Option<string>, parameter: Option<string>, script: Option<string>)
    ensures Validate(interpreter, parameter, script).Invalid?
            <==> IsNullOrEmpty(interpreter) || IsNullOrEmpty(parameter) || IsNullOrEmpty(script)
    ensures var m := MissingFieldMessages(interpreter, parameter, script);
            && (InterpreterMessage in m <==> IsNullOrEmpty(interpreter))
            && (ParameterMessage in m <==> IsNullOrEmpty(parameter))
            && (ScriptMessage in m <==> IsNullOrEmpty(script))
            && |m| == MissingCount(interpreter, parameter, script)
            && (forall i :: 0 <= i < |m| ==> FieldRank(m[i]) < 3)
            && (forall i, j :: 0 <= i < j < |m| ==> FieldRank(m[i]) < FieldRank(m[j]))
    ensures Validate(interpreter, parameter, script).Invalid? ==>
            Validate(interpreter, parameter, script).errors == MissingFieldMessages(interpreter, parameter, script)
  {
  }

  /** With no inputs at all, all three messages are reported. */
  lemma ValidateNoInputs()
    ensures Validate(None, None, None) == Invalid([InterpreterMessage, ParameterMessage, ScriptMessage])
  {
  }

  // ---------------------------------------------------------------------------
  // Script extension and argument vector
  // ---------------------------------------------------------------------------

  /** `getExtension`: an ordered chain of case-sensitive substring tests on the interpreter. */
  function GetExtension(interpreter: string): string
  {
    if Contains(interpreter, "cmd") then ".bat"
    else if Contains(interpreter, "powershell") then ".ps1"
    else if Contains(interpreter, "sh") then ".sh"
    else ""
  }

  /** "powershell" contains "sh", so any interpreter that contains "powershell" contains "sh". */
  lemma PowershellContainsSh(interpreter: string)
    requires Contains(interpreter, "powershell")
    ensures Contains(interpreter, "sh")
  {
    assert OccursAt("powershell", "sh", 5);
    OccursContains("powershell", "sh", 5);
    ContainsTransitive(interpreter, "powershell", "sh");
  }

  /**
   * The extension mapping: `cmd` wins over everything; `powershell` wins
   * over the `sh` it contains; `sh` alone gives `.sh`; and no extension is
   * chosen exactly when neither `cmd` nor `sh` occurs.
   */
  lemma ExtensionMapping(interpreter: string)
    ensures GetExtension(interpreter) == ".bat" <==> Contains(interpreter, "cmd")
    ensures GetExtension(interpreter) == ".ps1"
            <==> !Contains(interpreter, "cmd") && Contains(interpreter, "powershell")
    ensures GetExtension(interpreter) == ".sh"
            <==> !Contains(interpreter, "cmd") && !Contains(interpreter, "powershell") && Contains(interpreter, "sh")
    ensures GetExtension(interpreter) == ""
            <==> !Contains(interpreter, "cmd") && !Contains(interpreter, "sh")
  {
    if Contains(interpreter, "powershell") {
      PowershellContainsSh(interpreter);
    }
  }

  /** The Windows command processor gets a batch file. */
  lemma ExtensionOfCmd()
    ensures GetExtension("cmd.exe") == ".bat"
  {
    assert "cmd" <= "cmd.exe";
  }

  /** `powershell` gets `.ps1`, although it contains `sh`. */
  lemma ExtensionOfPowershell()
    ensures GetExtension("powershell") == ".ps1"
    ensures Contains("powershell", "sh")
  {
    FirstCharMissing("powershell", "cmd");
    assert "powershell" <= "powershell";
    PowershellContainsSh("powershell");
  }

  /** A POSIX shell gets `.sh`. */
  lemma ExtensionOfPosixShell()
    ensures GetExtension("/bin/sh") == ".sh"
  {
    FirstCharMissing("/bin/sh", "cmd");
    FirstCharMissing("/bin/sh", "powershell");
    OccursContains("/bin/sh", "sh", 5);
  }

  /** An interpreter name without a lower-case `c` or `s` gets no extension. */
  lemma NoExtensionWithoutCOrS(interpreter: string)
    requires 'c' !in interpreter && 's' !in interpreter
    ensures GetExtension(interpreter) == ""
  {
    FirstCharMissing(interpreter, "cmd");
    FirstCharMissing(interpreter, "sh");
    if Contains(interpreter, "powershell") {
      PowershellContainsSh(interpreter);
    }
  }

  /**
   * Other interpreters get no extension; matching is case-sensitive, so
   * upper-case or capitalised names of the recognised ones get none either.
   */
  lemma ExtensionOfUnrecognisedInterpreters()
    ensures GetExtension("node") == ""
    ensures GetExtension("CMD.EXE") == ""
    ensures GetExtension("PowerShell") == ""
  {
    assert GetExtension("node") == "" by { NoExtensionWithoutCOrS("node"); }
    assert GetExtension("CMD.EXE") == "" by { NoExtensionWithoutCOrS("CMD.EXE"); }
    assert GetExtension("PowerShell") == "" by { NoExtensionWithoutCOrS("PowerShell"); }
  }

  /** The argument vector of `runScript`. */
  function ArgumentVector(interpreter: string, parameter: string, canonicalPath: string): (args: seq<string>)
    ensures |args| == 3
    ensures args[0] == interpreter && args[1] == parameter && args[2] == canonicalPath
  {
    [interpreter, parameter, canonicalPath]
  }

  // ---------------------------------------------------------------------------
  // Output accumulation
  // ---------------------------------------------------------------------------

  /** `readLine` on a reader positioned before line `pos`: the line, or `null` at the end of the stream. */
  function ReadLine(lines: seq<string>, pos: nat): Option<string>
  {
    if pos < |lines| then Some(lines[pos]) else None
  }

  /**
   * `consumeProcessOutput`: reads line after line until `readLine` returns
   * null, appending each line and then the separator to a builder.
   */
  method ConsumeProcessOutput(lines: seq<string>, lineSep: string) returns (output: string)
    ensures output == Join(lines, lineSep)
  {
    var builder := "";
    var line := ReadLine(lines, 0);
    var next := 1;
    while line.Some?
      invariant 1 <= next <= |lines| + 1
      invariant line == ReadLine(lines, next - 1)
      invariant builder == Join(lines[..next - 1], lineSep)
      decreases |lines| + 1 - next
    {
      JoinSnoc(lines[..next - 1], line.value, lineSep);
      assert lines[..next] == lines[..next - 1] + [line.value];
      builder := builder + line.value;
      builder := builder + lineSep;
      line := ReadLine(lines, next);
      next := next + 1;
    }
    assert lines[..next - 1] == lines;
    output := builder;
  }

  /**
   * The captured output: empty for no lines, one line and one separator per
   * line read, in order, and as long as the lines plus one separator each.
   */
  lemma CapturedOutput(lines: seq<string>, lineSep: string)
    ensures lines == [] ==> Join(lines, lineSep) == ""
    ensures |Join(lines, lineSep)| == SumLengths(lines) + |lines| * |lineSep|
    ensures forall k :: 0 <= k < |lines| ==>
              Join(lines, lineSep) == Join(lines[..k], lineSep) + lines[k] + lineSep + Join(lines[k + 1..], lineSep)
  {
    JoinLength(lines, lineSep);
    forall k | 0 <= k < |lines|
      ensures Join(lines, lineSep) == Join(lines[..k], lineSep) + lines[k] + lineSep + Join(lines[k + 1..], lineSep)
    {
      JoinSplit(lines, lineSep, k);
    }
  }

  // ---------------------------------------------------------------------------
  // Execution
  // ---------------------------------------------------------------------------

  /** The three inputs of an execution; the hosting framework has validated them. */
  datatype Request = Request(interpreter: string, parameter: string, script: string)

  /** Message of the `IOException` thrown when the file cannot be made executable. */
  function NotExecutableMessage(file: TempFile): string
  {
    "An error occured while trying to make the file '" + file.absolutePath + "' executable. Check your permissions."
  }

  /** What a piece of the execution yields, with the events it caused. */
  datatype Partial<T> = Partial(outcome: Attempt<T>, events: seq<Event>)

  /**
   * `createExecutableScript`: create the temporary file, make it executable
   * (or throw without writing it or registering it for delete-on-exit),
   * register it for deletion on exit and write the script with a writer
   * that is closed afterwards.
   */
  function CreateExecutableScript(script: string, extension: string, env: Env): Partial<TempFile>
  {
    match env.createTempFile
    case Raised(e) => Partial(Raised(e), [])
    case Got(file) =>
      var created := [TempFileCreated(file, ScriptPrefix, extension)];
      if !env.setExecutable then
        Partial(Raised(Exc(IOException, Some(NotExecutableMessage(file)), None)), created)
      else
        var registered := created + [DeleteOnExitRegistered];
        if env.openWriter.Threw? then Partial(Raised(env.openWriter.exc), registered)
        else if env.write.Threw? then Partial(Raised(env.write.exc), registered)
        else
          var written := registered + [ScriptWritten(script)];
          if env.closeWriter.Threw? then Partial(Raised(env.closeWriter.exc), written)
          else Partial(Got(file), written)
  }

  /** Where the `try` block of `executeBusinessLogic` stops: its events, the exception, if any, and whether a process exists. */
  datatype TryOutcome = TryOutcome(events: seq<Event>, failure: Option<Exc>, started: bool)

  /** The `try` block of `executeBusinessLogic`, step by step. */
  function TryBlock(req: Request, env: Env): TryOutcome
  {
    var script := CreateExecutableScript(req.script, GetExtension(req.interpreter), env);
    if script.outcome.Raised? then TryOutcome(script.events, Some(script.outcome.exc), false)
    else if env.canonicalPath.Raised? then TryOutcome(script.events, Some(env.canonicalPath.exc), false)
    else if env.start.Threw? then TryOutcome(script.events, Some(env.start.exc), false)
    else
      AfterLaunch(script.events
        + [ProcessStarted(ArgumentVector(req.interpreter, req.parameter, env.canonicalPath.value))], env)
  }

  /**
   * The rest of the `try` block once the process runs: read its output, set
   * `result`, wait for it, set `exitStatus` and delete the script.
   */
  function AfterLaunch(launched: seq<Event>, env: Env): TryOutcome
  {
    if env.drain.failure.Some? then TryOutcome(launched, env.drain.failure, true)
    else if env.closeOutput.Threw? then TryOutcome(launched, Some(env.closeOutput.exc), true)
    else
      var drained := launched + [OutputSet(ResultName, Text(Join(env.drain.lines, env.lineSeparator)))];
      if env.waitFor.Raised? then TryOutcome(drained, Some(env.waitFor.exc), true)
      else
        var exited := drained + [OutputSet(ExitStatusName, Number(env.waitFor.value))];
        if env.delete.Threw? then TryOutcome(exited, Some(env.delete.exc), true)
        else TryOutcome(exited + [ScriptDeleted], None, true)
  }

  /**
   * `executeBusinessLogic`: the `try` block, then the `catch` that wraps any
   * exception into a `ConnectorException`, then the `finally` that destroys
   * the process when there is one.
   */
  function Execute(req: Request, env: Env): Run
  {
    var t := TryBlock(req, env);
    Run(t.events + (if t.started then [ProcessDestroyed] else []),
        if t.failure.Some? then Some(Wrap(t.failure.value)) else None)
  }

  /** The first step of the current revision that fails, in execution order. */
  function FirstFailure(env: Env): Option<Exc>
  {
    if env.createTempFile.Raised? then Some(env.createTempFile.exc)
    else if !env.setExecutable then Some(Exc(IOException, Some(NotExecutableMessage(env.createTempFile.value)), None))
    else if env.openWriter.Threw? then Some(env.openWriter.exc)
    else if env.write.Threw? then Some(env.write.exc)
    else if env.closeWriter.Threw? then Some(env.closeWriter.exc)
    else if env.canonicalPath.Raised? then Some(env.canonicalPath.exc)
    else if env.start.Threw? then Some(env.start.exc)
    else if env.drain.failure.Some? then env.drain.failure
    else if env.closeOutput.Threw? then Some(env.closeOutput.exc)
    else if env.waitFor.Raised? then Some(env.waitFor.exc)
    else if env.delete.Threw? then Some(env.delete.exc)
    else None
  }

  /**
   * Any failing step surfaces as a `ConnectorException` with the message and
   * the cause of the first step's exception; the call returns normally
   * exactly when every step succeeds.
   */
  lemma FailuresAreWrapped(req: Request, env: Env)
    ensures Execute(req, env).thrown.None? <==> FirstFailure(env).None?
    ensures Execute(req, env).thrown.Some? ==>
              && Execute(req, env).thrown.value.kind == ConnectorException
              && Execute(req, env).thrown.value.message == FirstFailure(env).value.message
              && Execute(req, env).thrown.value.cause == FirstFailure(env).value.cause
  {
  }

  /** A process is destroyed, as the very last event, exactly when one was started. */
  lemma DestroyedIffStarted(req: Request, env: Env)
    ensures Started(Execute(req, env).events) <==> EndsDestroyed(Execute(req, env).events)
  {
    var t := TryBlock(req, env);
    var events := Execute(req, env).events;
    if t.started {
      var n := |CreateExecutableScript(req.script, GetExtension(req.interpreter), env).events|;
      assert events[n].ProcessStarted?;
    } else {
      assert events == t.events;
      assert forall i :: 0 <= i < |events| ==> !events[i].ProcessStarted?;
    }
  }

  /** The script is materialised in at most three events, none of which sets an output. */
  lemma ScriptEvents(script: string, extension: string, env: Env)
    ensures var p := CreateExecutableScript(script, extension, env);
            && |p.events| <= 3
            && (p.outcome.Got? ==> |p.events| == 3)
            && (forall i :: 0 <= i < |p.events| ==>
                  p.events[i].TempFileCreated? || p.events[i].DeleteOnExitRegistered? || p.events[i].ScriptWritten?)
  {
  }

  /** The output parameters a run sets, as a function of the step outcomes. */
  lemma RunOutputs(req: Request, env: Env)
    ensures var outputs := OutputsOf(Execute(req, env).events);
            var captured := Text(Join(env.drain.lines, env.lineSeparator));
            && (Exited(env) ==> outputs == map[ResultName := captured, ExitStatusName := Number(env.waitFor.value)])
            && (Drained(env) && !Exited(env) ==> outputs == map[ResultName := captured])
            && (!Drained(env) ==> outputs == map[])
  {
    var script := CreateExecutableScript(req.script, GetExtension(req.interpreter), env);
    var t := TryBlock(req, env);
    var events := Execute(req, env).events;
    ScriptEvents(req.script, GetExtension(req.interpreter), env);
    ApplyNone(map[], script.events);
    if !t.started {
      assert events == script.events;
    } else {
      var launched := script.events + [ProcessStarted(ArgumentVector(req.interpreter, req.parameter, env.canonicalPath.value))];
      ApplySnoc(map[], script.events, launched[|launched| - 1]);
      var drained := launched + [OutputSet(ResultName, Text(Join(env.drain.lines, env.lineSeparator)))];
      ApplySnoc(map[], launched, drained[|drained| - 1]);
      ApplySnoc(map[], t.events, ProcessDestroyed);
      if Exited(env) {
        var exited := drained + [OutputSet(ExitStatusName, Number(env.waitFor.value))];
        ApplySnoc(map[], drained, exited[|exited| - 1]);
        ApplySnoc(map[], exited, ScriptDeleted);
      }
    }
  }

  /** The script has been run and its output read to the end without an exception. */
  predicate Drained(env: Env)
  {
    && env.createTempFile.Got? && env.setExecutable && env.openWriter.Done? && env.write.Done?
    && env.closeWriter.Done? && env.canonicalPath.Got? && env.start.Done?
    && env.drain.failure.None? && env.closeOutput.Done?
  }

  /** Moreover `waitFor` returned an exit status. */
  predicate Exited(env: Env)
  {
    Drained(env) && env.waitFor.Got?
  }

  /** When every step succeeds, the run does exactly this, in this order, and returns normally. */
  lemma SuccessfulRun(req: Request, env: Env)
    requires FirstFailure(env).None?
    ensures Execute(req, env) == Run(
              [ TempFileCreated(env.createTempFile.value, ScriptPrefix, GetExtension(req.interpreter)),
                DeleteOnExitRegistered,
                ScriptWritten(req.script),
                ProcessStarted(ArgumentVector(req.interpreter, req.parameter, env.canonicalPath.value)),
                OutputSet(ResultName, Text(Join(env.drain.lines, env.lineSeparator))),
                OutputSet(ExitStatusName, Number(env.waitFor.value)),
                ScriptDeleted,
                ProcessDestroyed ],
              None)
  {
  }

  /** Every started process gets the argument vector, and the canonical path was obtained first. */
  lemma StartedWithArguments(req: Request, env: Env)
    ensures var events := Execute(req, env).events;
            forall i :: 0 <= i < |events| && events[i].ProcessStarted? ==>
              env.canonicalPath.Got? && events[i].args == [req.interpreter, req.parameter, env.canonicalPath.value]
  {
    ScriptEvents(req.script, GetExtension(req.interpreter), env);
  }

  /**
   * `result` is set before `exitStatus`: every event that sets the exit
   * status comes after one that sets the captured output, and stores the
   * value `waitFor` returned, unchanged.
   */
  lemma ResultBeforeExitStatus(req: Request, env: Env)
    ensures var events := Execute(req, env).events;
            forall j :: SetsAt(events, j, ExitStatusName) ==>
              && events[j].value == Number(env.waitFor.value)
              && exists i :: 0 <= i < j && SetsAt(events, i, ResultName)
  {
    var events := Execute(req, env).events;
    var n := |CreateExecutableScript(req.script, GetExtension(req.interpreter), env).events|;
    ScriptEvents(req.script, GetExtension(req.interpreter), env);
    forall j | SetsAt(events, j, ExitStatusName)
      ensures events[j].value == Number(env.waitFor.value)
      ensures exists i :: 0 <= i < j && SetsAt(events, i, ResultName)
    {
      assert j == n + 2;
      assert SetsAt(events, n + 1, ResultName);
    }
  }

  /**
   * The script file is deleted exactly on the path that returns normally, and
   * only after both output parameters have been set.
   */
  lemma DeletedOnlyAfterOutputs(req: Request, env: Env)
    ensures var events := Execute(req, env).events;
            && (ScriptDeleted in events <==> Execute(req, env).thrown.None?)
            && forall k :: 0 <= k < |events| && events[k] == ScriptDeleted ==>
                 exists i, j :: 0 <= i < j < k && SetsAt(events, i, ResultName) && SetsAt(events, j, ExitStatusName)
  {
    var events := Execute(req, env).events;
    var n := |CreateExecutableScript(req.script, GetExtension(req.interpreter), env).events|;
    ScriptEvents(req.script, GetExtension(req.interpreter), env);
    if FirstFailure(env).None? {
      SuccessfulRun(req, env);
      assert events[6] == ScriptDeleted;
    }
    forall k | 0 <= k < |events| && events[k] == ScriptDeleted
      ensures exists i, j :: 0 <= i < j < k && SetsAt(events, i, ResultName) && SetsAt(events, j, ExitStatusName)
    {
      assert k == n + 3;
      assert SetsAt(events, n + 1, ResultName) && SetsAt(events, n + 2, ExitStatusName);
    }
  }

  /**
   * A failed deletion is rethrown: both outputs are already set, the file is
   * not deleted, the process is still destroyed, and the call throws a
   * `ConnectorException` with the deletion's message and cause.
   */
  lemma FailedDeleteIsRethrown(req: Request, env: Env)
    requires Exited(env) && env.delete.Threw?
    ensures var r := Execute(req, env);
            && r.thrown == Some(Wrap(env.delete.exc))
            && ScriptDeleted !in r.events
            && EndsDestroyed(r.events)
            && OutputsOf(r.events) == map[ResultName := Text(Join(env.drain.lines, env.lineSeparator)),
                                          ExitStatusName := Number(env.waitFor.value)]
  {
    RunOutputs(req, env);
    ScriptEvents(req.script, GetExtension(req.interpreter), env);
  }

  /**
   * When the file cannot be made executable, nothing is written, nothing is
   * registered for deletion on exit, no process is started, and the
   * `IOException`'s message reaches the caller without a cause.
   */
  lemma NotExecutableScript(req: Request, env: Env)
    requires env.createTempFile.Got? && !env.setExecutable
    ensures Execute(req, env) == Run(
              [TempFileCreated(env.createTempFile.value, ScriptPrefix, GetExtension(req.interpreter))],
              Some(Exc(ConnectorException, Some(NotExecutableMessage(env.createTempFile.value)), None)))
  {
  }

  /** The connector object; the hosting framework reads its output parameters after execution. */
  class Connector {
    /** The output parameters set so far. */
    var outputs: map<string, OutputValue>

    constructor ()
      ensures outputs == map[]
    {
      outputs := map[];
    }

    /**
     * `validateInputParameters`: collects one message per missing field in a
     * list and throws when the list is not empty. It takes only the three
     * inputs and has no `modifies` clause, so it cannot change the output
     * parameters; files and processes are not involved.
     */
    method ValidateInputParameters(interpreter: Option<string>, parameter: Option<string>, script: Option<string>)
      returns (v: Validation)
      ensures v == Validate(interpreter, parameter, script)
    {
      var errors: seq<string> := [];
      if IsNullOrEmpty(interpreter) {
        errors := errors + [InterpreterMessage];
      }
      if IsNullOrEmpty(parameter) {
        errors := errors + [ParameterMessage];
      }
      if IsNullOrEmpty(script) {
        errors := errors + [ScriptMessage];
      }
      if errors != [] {
        return Invalid(errors);
      }
      return Valid;
    }

    /** `setOutputParameter`. */
    method SetOutputParameter(name: string, value: OutputValue)
      modifies this
      ensures outputs == old(outputs)[name := value]
    {
      outputs := outputs[name := value];
    }

    /** The `try` block of `executeBusinessLogic`: it stops at the first step that throws. */
    method TryBlockStep(req: Request, env: Env) returns (effects: seq<Event>, failure: Option<Exc>, started: bool)
      modifies this
      ensures TryOutcome(effects, failure, started) == TryBlock(req, env)
      ensures outputs == Apply(old(outputs), effects)
    {
      failure, started := None, false;
      var script := CreateExecutableScript(req.script, GetExtension(req.interpreter), env);
      ScriptEvents(req.script, GetExtension(req.interpreter), env);
      ApplyNone(old(outputs), script.events);
      effects := script.events;
      if script.outcome.Raised? {
        failure := Some(script.outcome.exc);
        return;
      }
      if env.canonicalPath.Raised? {
        failure := Some(env.canonicalPath.exc);
        return;
      }
      var args := ArgumentVector(req.interpreter, req.parameter, env.canonicalPath.value);
      if env.start.Threw? {
        failure := Some(env.start.exc);
        return;
      }
      started := true;
      ApplySnoc(old(outputs), effects, ProcessStarted(args));
      effects := effects + [ProcessStarted(args)];
      effects, failure := AfterLaunchStep(effects, env, old(outputs));
    }

    /** The part of the `try` block that runs once the process has started. */
    method AfterLaunchStep(launched: seq<Event>, env: Env, ghost base: map<string, OutputValue>)
      returns (effects: seq<Event>, failure: Option<Exc>)
      requires outputs == Apply(base, launched)
      modifies this
      ensures TryOutcome(effects, failure, true) == AfterLaunch(launched, env)
      ensures outputs == Apply(base, effects)
    {
      effects, failure := launched, None;
      if env.drain.failure.Some? {
        failure := env.drain.failure;
        return;
      }
      var processOutput := ConsumeProcessOutput(env.drain.lines, env.lineSeparator);
      if env.closeOutput.Threw? {
        failure := Some(env.closeOutput.exc);
        return;
      }
      SetOutputParameter(ResultName, Text(processOutput));
      ApplySnoc(base, effects, OutputSet(ResultName, Text(processOutput)));
      effects := effects + [OutputSet(ResultName, Text(processOutput))];
      if env.waitFor.Raised? {
        failure := Some(env.waitFor.exc);
        return;
      }
      SetOutputParameter(ExitStatusName, Number(env.waitFor.value));
      ApplySnoc(base, effects, OutputSet(ExitStatusName, Number(env.waitFor.value)));
      effects := effects + [OutputSet(ExitStatusName, Number(env.waitFor.value))];
      if env.delete.Threw? {
        failure := Some(env.delete.exc);
        return;
      }
      ApplySnoc(base, effects, ScriptDeleted);
      effects := effects + [ScriptDeleted];
    }

    /**
     * `executeBusinessLogic`: a `try` block left at the first step that
     * throws, a `catch` that wraps the exception, and a `finally` that
     * destroys the process if one was started. Returns what it did to the
     * world and the exception it throws, if any.
     */
    method ExecuteBusinessLogic(req: Request, env: Env) returns (effects: seq<Event>, thrown: Option<Exc>)
      modifies this
      ensures Run(effects, thrown) == Execute(req, env)
      ensures outputs == Apply(old(outputs), effects)
    {
      var failure, started;
      effects, failure, started := TryBlockStep(req, env);
      thrown := if failure.Some? then Some(Wrap(failure.value)) else None;
      if started {
        ApplySnoc(old(outputs), effects, ProcessDestroyed);
        effects := effects + [ProcessDestroyed];
      }
    }
  }
}
