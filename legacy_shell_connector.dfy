/**
 * The older revision of the shell connector. Validation, the extension
 * chain, the argument vector and the output loop are the same as in the
 * current revision; its error handling differs: the result of
 * `setExecutable` is ignored, a failure to start the process is swallowed,
 * closing the writer or the output stream never fails the call, and a failed
 * deletion is only logged.
 */
module LegacyShellConnector {
  import opened Wrappers
  import opened Text
  import opened Process
  import ShellConnector

  // ---------------------------------------------------------------------------
  // Input validation
  // ---------------------------------------------------------------------------

  /** `s == null || !(s.length() > 0)`. */
  predicate IsMissing(s: Option<string>)
  {
    s.None? || !(|s.value| > 0)
  }

  /** The old test is the same as the current revision's `isNullOrEmpty`. */
  lemma IsMissingIsNullOrEmpty(s: Option<string>)
    ensures IsMissing(s) <==> ShellConnector.IsNullOrEmpty(s)
  {
  }

  // ---------------------------------------------------------------------------
  // Execution
  // ---------------------------------------------------------------------------

  /**
   * `createExecutableScript`: create the temporary file, ask for the
   * executable bit without looking at the answer, register the file for
   * deletion on exit and write the script; a failure to close the writer is
   * only logged.
   */
  function CreateExecutableScript(script: string, extension: string, env: Env): ShellConnector.Partial<TempFile>
  {
    match env.createTempFile
    case Raised(e) => ShellConnector.Partial(Raised(e), [])
    case Got(file) =>
      var registered := [TempFileCreated(file, ShellConnector.ScriptPrefix, extension), DeleteOnExitRegistered];
      if env.openWriter.Threw? then ShellConnector.Partial(Raised(env.openWriter.exc), registered)
      else if env.write.Threw? then ShellConnector.Partial(Raised(env.write.exc), registered)
      else ShellConnector.Partial(Got(file), registered + [ScriptWritten(script)])
  }

  /** The `NullPointerException` raised by `process.getInputStream()` when `process` is null. */
  function NullProcess(env: Env): Exc
  {
    Exc(NullPointerException, env.nullDereferenceMessage, None)
  }

  /**
   * What a failed start turns into: `runScript` catches only an
   * `IOException` and then returns no process, so reading the output fails
   * with a `NullPointerException`; any other exception propagates as it is.
   */
  function StartFailure(env: Env): Exc
    requires env.start.Threw?
  {
    if env.start.exc.kind == IOException then NullProcess(env) else env.start.exc
  }

  /** The `try` block of the old `executeBusinessLogic`, step by step. */
  function TryBlock(req: ShellConnector.Request, env: Env): ShellConnector.TryOutcome
  {
    var script := CreateExecutableScript(req.script, ShellConnector.GetExtension(req.interpreter), env);
    if script.outcome.Raised? then ShellConnector.TryOutcome(script.events, Some(script.outcome.exc), false)
    else if env.canonicalPath.Raised? then ShellConnector.TryOutcome(script.events, Some(env.canonicalPath.exc), false)
    else if env.start.Threw? then ShellConnector.TryOutcome(script.events, Some(StartFailure(env)), false)
    else
      var launched := script.events
        + [ProcessStarted(ShellConnector.ArgumentVector(req.interpreter, req.parameter, env.canonicalPath.value))];
      if env.drain.failure.Some? then ShellConnector.TryOutcome(launched, env.drain.failure, true)
      else
        var drained := launched
          + [OutputSet(ShellConnector.ResultName, Text(Join(env.drain.lines, env.lineSeparator)))];
        if env.waitFor.Raised? then ShellConnector.TryOutcome(drained, Some(env.waitFor.exc), true)
        else
          var exited := drained + [OutputSet(ShellConnector.ExitStatusName, Number(env.waitFor.value))];
          ShellConnector.TryOutcome(exited + (if env.delete.Done? then [ScriptDeleted] else []), None, true)
  }

  /** The old `executeBusinessLogic`: the `try` block, the wrapping `catch` and the destroying `finally`. */
  function Execute(req: ShellConnector.Request, env: Env): Run
  {
    var t := TryBlock(req, env);
    Run(t.events + (if t.started then [ProcessDestroyed] else []),
        if t.failure.Some? then Some(Wrap(t.failure.value)) else None)
  }

  /** The first step of the old revision that fails, in execution order. */
  function FirstFailure(env: Env): Option<Exc>
  {
    if env.createTempFile.Raised? then Some(env.createTempFile.exc)
    else if env.openWriter.Threw? then Some(env.openWriter.exc)
    else if env.write.Threw? then Some(env.write.exc)
    else if env.canonicalPath.Raised? then Some(env.canonicalPath.exc)
    else if env.start.Threw? then Some(StartFailure(env))
    else if env.drain.failure.Some? then env.drain.failure
    else if env.waitFor.Raised? then Some(env.waitFor.exc)
    else None
  }

  /** The old script is materialised in at most three events, none of which sets an output. */
  lemma ScriptEvents(script: string, extension: string, env: Env)
    ensures var p := CreateExecutableScript(script, extension, env);
            && |p.events| <= 3
            && (p.outcome.Got? ==> |p.events| == 3)
            && (forall i :: 0 <= i < |p.events| ==>
                  p.events[i].TempFileCreated? || p.events[i].DeleteOnExitRegistered? || p.events[i].ScriptWritten?)
  {
  }

  /**
   * A failing step surfaces as a `ConnectorException` with the message and
   * cause of the first failing step; the setExecutable answer, the closing of
   * the writer and of the output stream, and the deletion never make the
   * call throw.
   */
  lemma FailuresAreWrapped(req: ShellConnector.Request, env: Env)
    ensures Execute(req, env).thrown.None? <==> FirstFailure(env).None?
    ensures Execute(req, env).thrown.Some? ==>
              && Execute(req, env).thrown.value.kind == ConnectorException
              && Execute(req, env).thrown.value.message == FirstFailure(env).value.message
              && Execute(req, env).thrown.value.cause == FirstFailure(env).value.cause
  {
  }

  /** A process is destroyed, as the very last event, exactly when one was started. */
  lemma DestroyedIffStarted(req: ShellConnector.Request, env: Env)
    ensures Started(Execute(req, env).events) <==> EndsDestroyed(Execute(req, env).events)
  {
    var t := TryBlock(req, env);
    var events := Execute(req, env).events;
    ScriptEvents(req.script, ShellConnector.GetExtension(req.interpreter), env);
    if t.started {
      assert events[3].ProcessStarted?;
    } else {
      assert events == t.events;
      assert forall i :: 0 <= i < |events| ==> !events[i].ProcessStarted?;
    }
  }

  /** Every started process gets the argument vector, and the canonical path was obtained first. */
  lemma StartedWithArguments(req: ShellConnector.Request, env: Env)
    ensures var events := Execute(req, env).events;
            forall i :: 0 <= i < |events| && events[i].ProcessStarted? ==>
              env.canonicalPath.Got? && events[i].args == [req.interpreter, req.parameter, env.canonicalPath.value]
  {
    ScriptEvents(req.script, ShellConnector.GetExtension(req.interpreter), env);
  }

  /**
   * When starting the process raises an `IOException`, the error is swallowed and the null
   * process makes the output reading fail: the call throws a
   * `ConnectorException` with the `NullPointerException`'s message and no
   * cause, and no process is destroyed.
   */
  lemma StartFailureBecomesNullDereference(req: ShellConnector.Request, env: Env)
    requires env.createTempFile.Got? && env.openWriter.Done? && env.write.Done?
    requires env.canonicalPath.Got? && env.start.Threw? && env.start.exc.kind == IOException
    ensures Execute(req, env) == Run(
              CreateExecutableScript(req.script, ShellConnector.GetExtension(req.interpreter), env).events,
              Some(Exc(ConnectorException, env.nullDereferenceMessage, None)))
    ensures !Started(Execute(req, env).events) && !EndsDestroyed(Execute(req, env).events)
    ensures OutputsOf(Execute(req, env).events) == map[]
  {
    DestroyedIffStarted(req, env);
    ScriptEvents(req.script, ShellConnector.GetExtension(req.interpreter), env);
    ApplyNone(map[], Execute(req, env).events);
  }

  /**
   * The answer of `setExecutable` is ignored: once the file exists it is
   * always registered for deletion on exit, and it is written whenever the
   * writer opens and writes.
   */
  lemma SetExecutableIgnored(req: ShellConnector.Request, env: Env)
    requires env.createTempFile.Got?
    ensures DeleteOnExitRegistered in Execute(req, env).events
    ensures ScriptWritten(req.script) in Execute(req, env).events <==> env.openWriter.Done? && env.write.Done?
    ensures Execute(req, env) == Execute(req, env.(setExecutable := !env.setExecutable))
  {
    var events := Execute(req, env).events;
    ScriptEvents(req.script, ShellConnector.GetExtension(req.interpreter), env);
    assert events[1] == DeleteOnExitRegistered;
    if env.openWriter.Done? && env.write.Done? {
      assert events[2] == ScriptWritten(req.script);
    } else {
      assert forall i :: 0 <= i < |events| ==> events[i] != ScriptWritten(req.script);
    }
  }

  /** The script has been run and its output read to the end without an exception. */
  predicate Drained(env: Env)
  {
    && env.createTempFile.Got? && env.openWriter.Done? && env.write.Done?
    && env.canonicalPath.Got? && env.start.Done? && env.drain.failure.None?
  }

  /** Moreover `waitFor` returned an exit status. */
  predicate Exited(env: Env)
  {
    Drained(env) && env.waitFor.Got?
  }

  /** The output parameters the old revision sets, as a function of the step outcomes. */
  lemma RunOutputs(req: ShellConnector.Request, env: Env)
    ensures var outputs := OutputsOf(Execute(req, env).events);
            var captured := Text(Join(env.drain.lines, env.lineSeparator));
            && (Exited(env) ==> outputs == map[ShellConnector.ResultName := captured,
                                               ShellConnector.ExitStatusName := Number(env.waitFor.value)])
            && (Drained(env) && !Exited(env) ==> outputs == map[ShellConnector.ResultName := captured])
            && (!Drained(env) ==> outputs == map[])
  {
    var script := CreateExecutableScript(req.script, ShellConnector.GetExtension(req.interpreter), env);
    var t := TryBlock(req, env);
    var events := Execute(req, env).events;
    ScriptEvents(req.script, ShellConnector.GetExtension(req.interpreter), env);
    ApplyNone(map[], script.events);
    if !t.started {
      assert events == script.events;
    } else {
      var launched := script.events
        + [ProcessStarted(ShellConnector.ArgumentVector(req.interpreter, req.parameter, env.canonicalPath.value))];
      ApplySnoc(map[], script.events, launched[|launched| - 1]);
      var drained := launched + [OutputSet(ShellConnector.ResultName, Text(Join(env.drain.lines, env.lineSeparator)))];
      ApplySnoc(map[], launched, drained[|drained| - 1]);
      ApplySnoc(map[], t.events, ProcessDestroyed);
      if Exited(env) {
        var exited := drained + [OutputSet(ShellConnector.ExitStatusName, Number(env.waitFor.value))];
        ApplySnoc(map[], drained, exited[|exited| - 1]);
        if env.delete.Done? {
          ApplySnoc(map[], exited, ScriptDeleted);
        } else {
          assert t.events == exited;
        }
      }
    }
  }

  /**
   * `result` is set before `exitStatus`, which holds the value `waitFor`
   * returned; `exitStatus` is set at most once, right after `result`.
   */
  lemma ResultBeforeExitStatus(req: ShellConnector.Request, env: Env)
    ensures var events := Execute(req, env).events;
            forall j :: SetsAt(events, j, ShellConnector.ExitStatusName) ==>
              && events[j].value == Number(env.waitFor.value)
              && exists i :: 0 <= i < j && SetsAt(events, i, ShellConnector.ResultName)
    ensures var events := Execute(req, env).events;
            forall j, j2 :: SetsAt(events, j, ShellConnector.ExitStatusName) && SetsAt(events, j2, ShellConnector.ExitStatusName)
              ==> j == j2 && SetsAt(events, j - 1, ShellConnector.ResultName)
  {
    var events := Execute(req, env).events;
    ScriptEvents(req.script, ShellConnector.GetExtension(req.interpreter), env);
    forall j | SetsAt(events, j, ShellConnector.ExitStatusName)
      ensures events[j].value == Number(env.waitFor.value)
      ensures exists i :: 0 <= i < j && SetsAt(events, i, ShellConnector.ResultName)
    {
      assert j == 5;
      assert SetsAt(events, 4, ShellConnector.ResultName);
    }
    forall j, j2 | SetsAt(events, j, ShellConnector.ExitStatusName) && SetsAt(events, j2, ShellConnector.ExitStatusName)
      ensures j == j2 && SetsAt(events, j - 1, ShellConnector.ResultName)
    {
      assert j == 5 && j2 == 5;
    }
  }

  /**
   * A failed deletion is only logged: the call returns normally with both
   * outputs set and the process destroyed, and the file is left behind.
   */
  lemma FailedDeleteIsIgnored(req: ShellConnector.Request, env: Env)
    requires Exited(env) && env.delete.Threw?
    ensures var r := Execute(req, env);
            && r.thrown.None?
            && ScriptDeleted !in r.events
            && EndsDestroyed(r.events)
            && OutputsOf(r.events) == map[ShellConnector.ResultName := Text(Join(env.drain.lines, env.lineSeparator)),
                                          ShellConnector.ExitStatusName := Number(env.waitFor.value)]
  {
    RunOutputs(req, env);
    ScriptEvents(req.script, ShellConnector.GetExtension(req.interpreter), env);
  }

  /** The connector object of the old revision. */
  class Connector {
    /** The output parameters set so far. */
    var outputs: map<string, OutputValue>

    constructor ()
      ensures outputs == map[]
    {
      outputs := map[];
    }

    /**
     * `validateInputParameters`: the same messages in the same order as the
     * current revision, so it decides exactly as the current one does.
     */
    method ValidateInputParameters(interpreter: Option<string>, parameter: Option<string>, script: Option<string>)
      returns (v: ShellConnector.Validation)
      ensures v == ShellConnector.Validate(interpreter, parameter, script)
    {
      var errors: seq<string> := [];
      if IsMissing(interpreter) {
        errors := errors + [ShellConnector.InterpreterMessage];
      }
      if IsMissing(parameter) {
        errors := errors + [ShellConnector.ParameterMessage];
      }
      if IsMissing(script) {
        errors := errors + [ShellConnector.ScriptMessage];
      }
      if errors != [] {
        return ShellConnector.Invalid(errors);
      }
      return ShellConnector.Valid;
    }

    /** `setOutputParameter`. */
    method SetOutputParameter(name: string, value: OutputValue)
      modifies this
      ensures outputs == old(outputs)[name := value]
    {
      outputs := outputs[name := value];
    }

    /** The `try` block of `executeBusinessLogic`: it stops at the first step that throws. */
    method TryBlockStep(req: ShellConnector.Request, env: Env) returns (effects: seq<Event>, failure: Option<Exc>, started: bool)
      modifies this
      ensures ShellConnector.TryOutcome(effects, failure, started) == TryBlock(req, env)
      ensures outputs == Apply(old(outputs), effects)
    {
      failure, started := None, false;
      var script := CreateExecutableScript(req.script, ShellConnector.GetExtension(req.interpreter), env);
      ScriptEvents(req.script, ShellConnector.GetExtension(req.interpreter), env);
      ApplyNone(old(outputs), script.events);
      effects := script.events;
      if script.outcome.Raised? {
        failure := Some(script.outcome.exc);
        return;
      }
      if env.canonicalPath.Raised? {
        failure := Some(env.canonicalPath.exc);
        return;
      }
      var args := ShellConnector.ArgumentVector(req.interpreter, req.parameter, env.canonicalPath.value);
      if env.start.Threw? {
        if env.start.exc.kind == IOException {
          // runScript swallows the error and returns null; consumeProcessOutput then dereferences it
          failure := Some(NullProcess(env));
        } else {
          failure := Some(env.start.exc);
        }
        return;
      }
      started := true;
      ApplySnoc(old(outputs), effects, ProcessStarted(args));
      effects := effects + [ProcessStarted(args)];
      if env.drain.failure.Some? {
        failure := env.drain.failure;
        return;
      }
      var processOutput := ShellConnector.ConsumeProcessOutput(env.drain.lines, env.lineSeparator);
      SetOutputParameter(ShellConnector.ResultName, Text(processOutput));
      ApplySnoc(old(outputs), effects, OutputSet(ShellConnector.ResultName, Text(processOutput)));
      effects := effects + [OutputSet(ShellConnector.ResultName, Text(processOutput))];
      if env.waitFor.Raised? {
        failure := Some(env.waitFor.exc);
        return;
      }
      SetOutputParameter(ShellConnector.ExitStatusName, Number(env.waitFor.value));
      ApplySnoc(old(outputs), effects, OutputSet(ShellConnector.ExitStatusName, Number(env.waitFor.value)));
      effects := effects + [OutputSet(ShellConnector.ExitStatusName, Number(env.waitFor.value))];
      if env.delete.Done? {
        ApplySnoc(old(outputs), effects, ScriptDeleted);
        effects := effects + [ScriptDeleted];
      } else {
        // File.delete returned false: the old revision only logs it
      }
    }

    /**
     * The old `executeBusinessLogic`: `runScript` yields no process when
     * starting fails, reading from that absent process throws, and the
     * outcome of the deletion is only logged.
     */
    method ExecuteBusinessLogic(req: ShellConnector.Request, env: Env) returns (effects: seq<Event>, thrown: Option<Exc>)
      modifies this
      ensures Run(effects, thrown) == Execute(req, env)
      ensures outputs == Apply(old(outputs), effects)
    {
      var failure, started;
      effects, failure, started := TryBlockStep(req, env);
      thrown := if failure.Some? then Some(Wrap(failure.value)) else None;
      if started {
        ApplySnoc(old(outputs), effects, ProcessDestroyed);
        effects := effects + [ProcessDestroyed];
      }
    }
  }
}
