# Bonita shell and Groovy script connectors, modelled in Dafny

The shell connector runs a user script through an external interpreter.
It writes the script to a temporary file whose extension depends on the
interpreter, and runs `<interpreter> <parameter> <file>`. It stores the
process output in the output parameter `result` and the exit code in
`exitStatus`, then deletes the file. The repository holds two revisions of
this class, which differ in error handling. The Groovy script connector
checks that it was given a script and builds the table of variables the
script is evaluated against.

This project models the deterministic core of both connectors:

- input validation;
- the choice of script extension;
- the argument vector;
- the output-reading loop;
- the variable table;
- the control flow of a shell execution.

In the control flow, every operating-system step (creating the temporary
file, starting the process, reading its output, waiting for it, deleting
the file) is an input outcome: it succeeds or throws.

Modules:

- `Wrappers`: `Option`.
- `Text`: `String.contains` as `Contains`, and `Join`, the reference
  definition of the captured output (every line followed by the
  separator).
- `Process`: the environment of one execution (`Env`), the Java exceptions
  (`Exc`: kind, message, cause), the events an execution causes (`Event`),
  and the output-parameter map as a fold over the `OutputSet` events
  (`Apply`, `OutputsOf`).
- `ShellConnector`: the current revision.
  - Pure functions specify it: `Validate`, `GetExtension`,
    `ArgumentVector`, `TryBlock`/`AfterLaunch`/`Execute`.
  - The class `Connector` holds the output parameters. Its methods carry out
    the source's imperative code and are proved equal to those functions.
- `LegacyShellConnector`: the older revision.
  - Its `getExtension`, argument vector and reading loop are textually the
    same as the current revision's, so it reuses `ShellConnector.GetExtension`,
    `ShellConnector.ArgumentVector` and `ShellConnector.ConsumeProcessOutput`.
  - It has its own validation method, script creation, `try` block and
    connector class.
- `GroovyScriptConnector`: `validateInputParameters` and `getVariables`.

The model follows the code as written:

- Extension matching is case-sensitive (`"PowerShell"` and `"CMD.EXE"` get no
  extension).
- The script file is deleted only on the path that returns normally. A run
  that fails after the file was registered leaves it to `deleteOnExit`.
  When the current revision cannot make the file executable, it throws
  before registering it, so the file stays on disk, unregistered.
- A failed deletion makes the current revision throw, after both outputs
  were set; the old revision only logs it.

## Model

| member | source | states |
|---|---|---|
| ShellConnector.Connector.ValidateInputParameters | src/main/java/org/bonitasoft/connectors/shell/ShellConnector.java:63-81 | builds the message list step by step; the verdict equals `Validate`; it has no `modifies` clause, so no output parameter changes |
| ShellConnector.ValidationReportsMissingFields | src/main/java/org/bonitasoft/connectors/shell/ShellConnector.java:63-85 | validation fails iff some field is null or empty; each message is present iff its field is missing; one message per missing field, strictly in the order interpreter, parameter, script, nothing else |
| ShellConnector.ValidateNoInputs | src/test/java/org/bonitasoft/connectors/shell/ShellConnectorTest.java:101-108 | with no inputs, all three messages are reported, in order |
| ShellConnector.ExtensionMapping | src/main/java/org/bonitasoft/connectors/shell/ShellConnector.java:139-149 | `.bat` iff the interpreter contains `cmd`; `.ps1` iff it contains `powershell` but not `cmd`; `.sh` iff it contains `sh` but neither of the others; `""` iff it contains neither `cmd` nor `sh`; the old revision (its lines 127-138) runs the same chain and uses this function |
| ShellConnector.PowershellContainsSh | src/main/java/org/bonitasoft/connectors/shell/ShellConnector.java:143-146 | an interpreter containing `powershell` also contains `sh`, which is why the order of the tests matters |
| ShellConnector.ExtensionOfCmd | src/main/java/org/bonitasoft/connectors/shell/ShellConnector.java:141-142 | `cmd.exe` gets `.bat` |
| ShellConnector.ExtensionOfPowershell | src/main/java/org/bonitasoft/connectors/shell/ShellConnector.java:143-144 | `powershell` gets `.ps1` although it contains `sh` |
| ShellConnector.ExtensionOfPosixShell | src/main/java/org/bonitasoft/connectors/shell/ShellConnector.java:145-146 | `/bin/sh` gets `.sh` |
| ShellConnector.NoExtensionWithoutCOrS | src/main/java/org/bonitasoft/connectors/shell/ShellConnector.java:147-148 | an interpreter without a lower-case `c` or `s` gets no extension |
| ShellConnector.ExtensionOfUnrecognisedInterpreters | src/main/java/org/bonitasoft/connectors/shell/ShellConnector.java:141-148 | `node` gets no extension; matching is case-sensitive, so `CMD.EXE` and `PowerShell` get none either |
| ShellConnector.ArgumentVector | src/main/java/org/bonitasoft/connectors/shell/ShellConnector.java:152 | exactly three arguments: interpreter, parameter, canonical script path, in that order; the old revision (its line 141) builds the same vector with this function |
| ShellConnector.ConsumeProcessOutput | src/main/java/org/bonitasoft/connectors/shell/ShellConnector.java:165-178 | the reading loop, run until `readLine` returns null, yields `Join(lines, sep)`: every line followed by the separator, the last one included; the old revision (its lines 171-179) runs the same loop through this method |
| ShellConnector.CapturedOutput | src/main/java/org/bonitasoft/connectors/shell/ShellConnector.java:168-176 | no lines give `""`; the length is the sum of the line lengths plus one separator per line; each line `k` appears, followed by the separator, between the output of lines before `k` and the output of lines after it |
| Text.ContainsIffOccurs | src/main/java/org/bonitasoft/connectors/shell/ShellConnector.java:141-145 | `Contains(s, t)` holds iff `t` occurs in `s` at some index, as `String.contains` does |
| Text.ContainsTransitive | src/main/java/org/bonitasoft/connectors/shell/ShellConnector.java:143-146 | containment is transitive, so containing `powershell` implies containing `sh` |
| Text.FirstCharMissing | src/main/java/org/bonitasoft/connectors/shell/ShellConnector.java:141-145 | a text lacking the first character of a word does not contain the word |
| Text.JoinLength | src/main/java/org/bonitasoft/connectors/shell/ShellConnector.java:171-175 | the joined output is as long as the lines plus one separator each |
| Text.JoinSplit | src/main/java/org/bonitasoft/connectors/shell/ShellConnector.java:171-175 | the output around line `k`: the output of earlier lines, line `k`, the separator, the output of later lines |
| ShellConnector.ScriptEvents | src/main/java/org/bonitasoft/connectors/shell/ShellConnector.java:125-137 | creating the script causes at most three events (created, registered for delete-on-exit, written), all three when it succeeds, none of them sets an output |
| ShellConnector.NotExecutableScript | src/main/java/org/bonitasoft/connectors/shell/ShellConnector.java:125-137 | when `setExecutable` fails: only the file's creation happens (no delete-on-exit registration, no write, no process); the caller gets a `ConnectorException` with the `IOException`'s message and no cause |
| ShellConnector.FailuresAreWrapped | src/main/java/org/bonitasoft/connectors/shell/ShellConnector.java:94-106 | the call throws iff some step fails; what it throws is a `ConnectorException` with the message and the cause of the first failing step's exception |
| ShellConnector.DestroyedIffStarted | src/main/java/org/bonitasoft/connectors/shell/ShellConnector.java:93-106 | the process is destroyed, as the last event, exactly when it was started, on the failing and the succeeding paths alike |
| ShellConnector.RunOutputs | src/main/java/org/bonitasoft/connectors/shell/ShellConnector.java:97-100 | both outputs (captured text and the `waitFor` value) when the process was drained and waited for; only `result` when `waitFor` throws; none when anything before that fails |
| ShellConnector.SuccessfulRun | src/main/java/org/bonitasoft/connectors/shell/ShellConnector.java:88-107 | when no step fails: create, register, write, start with the argument vector, set `result`, set `exitStatus`, delete, destroy, in that order, and no exception |
| ShellConnector.StartedWithArguments | src/main/java/org/bonitasoft/connectors/shell/ShellConnector.java:151-155 | on every path, a process that is started gets exactly `[interpreter, parameter, canonical path]`, and only after the canonical path was obtained |
| ShellConnector.ResultBeforeExitStatus | src/main/java/org/bonitasoft/connectors/shell/ShellConnector.java:99-100 | every `exitStatus` setting comes after a `result` setting and stores the `waitFor` value unchanged |
| ShellConnector.DeletedOnlyAfterOutputs | src/main/java/org/bonitasoft/connectors/shell/ShellConnector.java:99-101 | the file is deleted iff the call returns normally, and only after both outputs are set |
| ShellConnector.FailedDeleteIsRethrown | src/main/java/org/bonitasoft/connectors/shell/ShellConnector.java:109-116 | a failed deletion leaves both outputs set and the process destroyed, and is thrown on as a `ConnectorException` carrying the deletion's message and cause |
| ShellConnector.Connector.SetOutputParameter | src/main/java/org/bonitasoft/connectors/shell/ShellConnector.java:99-100 | the output map gets the value at the name, and everything else stays |
| ShellConnector.Connector.TryBlockStep | src/main/java/org/bonitasoft/connectors/shell/ShellConnector.java:94-101 | the `try` block, step by step, stops at the first step that throws; its events and failure equal `TryBlock`; the outputs become the old outputs updated by the events |
| ShellConnector.Connector.AfterLaunchStep | src/main/java/org/bonitasoft/connectors/shell/ShellConnector.java:96-101 | the steps once the process runs (read, set `result`, `waitFor`, set `exitStatus`, delete) equal `AfterLaunch`, outputs updated accordingly |
| ShellConnector.Connector.ExecuteBusinessLogic | src/main/java/org/bonitasoft/connectors/shell/ShellConnector.java:88-107 | `try`, wrapping `catch` and destroying `finally`: its events and exception equal `Execute`, and its outputs are the old ones updated by the events |
| LegacyShellConnector.IsMissingIsNullOrEmpty | bonita-connector-scripting-shell-impl/src/main/java/org/bonitasoft/connectors/scripting/ShellConnector.java:59-67 | the old test "null, or length not greater than 0" is exactly null-or-empty |
| LegacyShellConnector.Connector.ValidateInputParameters | bonita-connector-scripting-shell-impl/src/main/java/org/bonitasoft/connectors/scripting/ShellConnector.java:56-74 | the old validation decides exactly as the current `Validate`: same messages, same order |
| LegacyShellConnector.ScriptEvents | bonita-connector-scripting-shell-impl/src/main/java/org/bonitasoft/connectors/scripting/ShellConnector.java:109-125 | at most three script events, all three on success, none sets an output |
| LegacyShellConnector.SetExecutableIgnored | bonita-connector-scripting-shell-impl/src/main/java/org/bonitasoft/connectors/scripting/ShellConnector.java:112-116 | once the file exists, it is always registered for delete-on-exit; it is written iff the writer opens and writes; the `setExecutable` answer never changes the run |
| LegacyShellConnector.FailuresAreWrapped | bonita-connector-scripting-shell-impl/src/main/java/org/bonitasoft/connectors/scripting/ShellConnector.java:94-95 | the call throws iff some step of the old chain fails; it throws a `ConnectorException` with that step's message and cause |
| LegacyShellConnector.DestroyedIffStarted | bonita-connector-scripting-shell-impl/src/main/java/org/bonitasoft/connectors/scripting/ShellConnector.java:96-100 | the process is destroyed, as the last event, exactly when it was started |
| LegacyShellConnector.StartedWithArguments | bonita-connector-scripting-shell-impl/src/main/java/org/bonitasoft/connectors/scripting/ShellConnector.java:140-144 | on every path, a process that is started gets exactly `[interpreter, parameter, canonical path]`, and only after the canonical path was obtained |
| LegacyShellConnector.StartFailureBecomesNullDereference | bonita-connector-scripting-shell-impl/src/main/java/org/bonitasoft/connectors/scripting/ShellConnector.java:140-168 | an `IOException` at start is swallowed and the reading of the absent process throws a `NullPointerException`; the call throws a `ConnectorException` with that message and no cause; nothing is started or destroyed and no output is set |
| LegacyShellConnector.RunOutputs | bonita-connector-scripting-shell-impl/src/main/java/org/bonitasoft/connectors/scripting/ShellConnector.java:88-92 | both outputs when drained and waited for; only `result` when `waitFor` throws; none before that |
| LegacyShellConnector.ResultBeforeExitStatus | bonita-connector-scripting-shell-impl/src/main/java/org/bonitasoft/connectors/scripting/ShellConnector.java:88-89 | `exitStatus` is set at most once, immediately after the `result` setting, to the raw `waitFor` value |
| LegacyShellConnector.FailedDeleteIsIgnored | bonita-connector-scripting-shell-impl/src/main/java/org/bonitasoft/connectors/scripting/ShellConnector.java:90-92 | a failed deletion is only logged: the call returns normally with both outputs set and the process destroyed, and the file stays |
| LegacyShellConnector.Connector.SetOutputParameter | bonita-connector-scripting-shell-impl/src/main/java/org/bonitasoft/connectors/scripting/ShellConnector.java:88-89 | the output map gets the value at the name, and everything else stays |
| LegacyShellConnector.Connector.TryBlockStep | bonita-connector-scripting-shell-impl/src/main/java/org/bonitasoft/connectors/scripting/ShellConnector.java:83-93 | the old `try` block, step by step, equals `TryBlock`; the outputs become the old outputs updated by its events |
| LegacyShellConnector.Connector.ExecuteBusinessLogic | bonita-connector-scripting-shell-impl/src/main/java/org/bonitasoft/connectors/scripting/ShellConnector.java:77-101 | the old `executeBusinessLogic`: its events and exception equal `Execute`, and its outputs are the old ones updated by the events |
| GroovyScriptConnector.ValidateInputParameters | src/main/java/org/bonitasoft/connectors/scripting/GroovyScriptConnector.java:56-61 | an error iff the script is null, with the message "The script is null" |
| GroovyScriptConnector.EmptyScriptIsValid | bonita-connector-scripting-groovy-impl/src/test/java/org/bonitasoft/connectors/scripting/GroovyScriptConnectorTest.java:48-60 | an empty script passes; a null one is refused |
| GroovyScriptConnector.GetVariables | src/main/java/org/bonitasoft/connectors/scripting/GroovyScriptConnector.java:63-83 | the loop over the rows builds exactly `Variables(context)` |
| GroovyScriptConnector.NullContextIsEmpty | src/main/java/org/bonitasoft/connectors/scripting/GroovyScriptConnector.java:64-66 | a null `variables` input gives an empty table |
| GroovyScriptConnector.MalformedRowIgnored | src/main/java/org/bonitasoft/connectors/scripting/GroovyScriptConnector.java:68-71 | a row whose size is not 2 or whose name is null contributes nothing, wherever it stands |
| GroovyScriptConnector.BindingsDomain | src/main/java/org/bonitasoft/connectors/scripting/GroovyScriptConnector.java:67-80 | the table's names are exactly the `toString` of the first element of the well-formed rows with a non-null name |
| GroovyScriptConnector.LastBindingWins | src/main/java/org/bonitasoft/connectors/scripting/GroovyScriptConnector.java:72-77 | a well-formed row that no later row overrides determines its name's value: the host's accessor for the reserved name, otherwise its second element, null included |
| GroovyScriptConnector.BindingsConcat | src/main/java/org/bonitasoft/connectors/scripting/GroovyScriptConnector.java:67-80 | the rows act as sequential puts: the table of two blocks of rows is the first block's table overridden by the second's |
| GroovyScriptConnector.DependencyIsBound | bonita-connector-scripting-groovy-impl/src/test/java/org/bonitasoft/connectors/scripting/GroovyScriptConnectorTest.java:91-103 | the row `["count", 83]` binds `count` to `83` |
| GroovyScriptConnector.ProvidedAccessorReplacesValue | bonita-connector-scripting-groovy-impl/src/test/java/org/bonitasoft/connectors/scripting/GroovyScriptConnectorTest.java:105-123 | a row naming the API accessor binds the host's accessor, not the supplied value |
| GroovyScriptConnector.NullValueIsBound | src/main/java/org/bonitasoft/connectors/scripting/GroovyScriptConnector.java:69-76 | a null value with a non-null, non-reserved name is still bound, to null |

## Left out

- Real process creation, stream closing, blocking `readLine`/`waitFor` and
  `destroy`: each step is an input outcome, and `destroy` is only recorded
  as an event.
- Temporary-file creation, permissions, `deleteOnExit` and deletion on a real
  file system: recorded as events only. What `deleteOnExit` later does at
  JVM exit is not modelled.
- Logging, `closeQuietly` of the process's input and error streams (only
  logged), and `System.getProperty("line.separator")`: the separator is a
  parameter.
- The hosting framework (`AbstractConnector`: input lookup, the output map,
  the getters `getResult`/`getExitStatus`), beyond a `Connector` class
  holding the output parameters.
- Shell execution is modelled for three non-null string inputs, validated
  beforehand. A null interpreter's `NullPointerException` in `getExtension`
  and a `ClassCastException` from a non-string input are not modelled.
- A null row in the Groovy connector's `variables` input: `rows.size()`
  then throws a `NullPointerException` outside the `try`, so it leaves
  `executeBusinessLogic` unwrapped. Rows are sequences here and cannot be
  null.
- The Groovy connector's `executeBusinessLogic`: evaluation by `GroovyShell`
  and `Binding` belongs to the Groovy library.
- Partial reads: when reading fails after some lines, the model yields only
  the exception. The lines already read are lost, as in the source.
- In the old revision, `File.delete` returns false rather than throwing; the
  model encodes "returned false" as a failed deletion step.
- In the old revision, the `NullPointerException`'s message comes from the
  runtime; it is an input of the model (`nullDereferenceMessage`).
- The exit status is an unbounded integer; Java's `int` range is not
  imposed.
- The types of the Groovy variable table's names and values: rows are
  sequences of optional values of a type parameter. `toString` and the API
  accessor are parameters.
- Exception kinds are limited to `IOException`, `InterruptedException`,
  `NullPointerException` and `ConnectorException`. Any other runtime
  exception, such as a `SecurityException` from `exec`, is not distinguished.
