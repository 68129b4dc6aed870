/**
 * What the shell connectors see of the operating system: each I/O step of
 * `executeBusinessLogic` is replaced by an abstract outcome supplied in an
 * `Env`, and what the connector does to the world is recorded as a trace of
 * `Event`s.
 */
module Process {
  import opened Wrappers

  /** The Java exception classes that the connectors raise or catch. */
  datatype ExcKind = IOException | InterruptedException | NullPointerException | ConnectorException

  /** A Java exception: its class, `getMessage()` and `getCause()`. */
  datatype Exc = Exc(kind: ExcKind, message: Option<string>, cause: Option<Exc>)

  /** Outcome of a step that returns nothing: it completes or throws. */
  datatype Step = Done | Threw(exc: Exc)

  /** Outcome of a step that returns a value: it yields one or throws. */
  datatype Attempt<T> = Got(value: T) | Raised(exc: Exc)

  /** A temporary file handed out by `File.createTempFile`, known by its absolute path. */
  datatype TempFile = TempFile(absolutePath: string)

  /**
   * What reading the process output yields: the lines read before the end of
   * the stream, or before `failure` was thrown by `readLine`.
   */
  datatype Drain = Drain(lines: seq<string>, failure: Option<Exc>)

  /**
   * The outcome of every I/O step, in the order the connectors perform them.
   * `setExecutable` is the value `File.setExecutable(true)` returns. `delete`
   * is the outcome of deleting the script (`Files.delete` throws where
   * `File.delete` returns false). `lineSeparator` is the value of the
   * `line.separator` system property; `nullDereferenceMessage` is the message
   * of the `NullPointerException` the JVM raises on a call through `null`.
   */
  datatype Env = Env(
    createTempFile: Attempt<TempFile>,
    setExecutable: bool,
    openWriter: Step,
    write: Step,
    closeWriter: Step,
    canonicalPath: Attempt<string>,
    start: Step,
    drain: Drain,
    closeOutput: Step,
    waitFor: Attempt<int>,
    delete: Step,
    lineSeparator: string,
    nullDereferenceMessage: Option<string>)

  /** Values stored in the connector's output parameters. */
  datatype OutputValue = Text(text: string) | Number(number: int)

  /** What a connector does that outlives the call. */
  datatype Event =
    | TempFileCreated(file: TempFile, prefix: string, suffix: string)
    | DeleteOnExitRegistered
    | ScriptWritten(text: string)
    | ProcessStarted(args: seq<string>)
    | OutputSet(name: string, value: OutputValue)
    | ScriptDeleted
    | ProcessDestroyed

  /** Everything one call of `executeBusinessLogic` does, and the exception it throws, if any. */
  datatype Run = Run(events: seq<Event>, thrown: Option<Exc>)

  /**
   * `new ConnectorException(e.getMessage(), e.getCause())`: the wrapper keeps
   * the message and the cause of `e`, not `e` itself.
   */
  function Wrap(e: Exc): Exc
  {
    Exc(ConnectorException, e.message, e.cause)
  }

  /** The output parameters after the trace, starting from `outputs`; later settings replace earlier ones. */
  function Apply(outputs: map<string, OutputValue>, events: seq<Event>): map<string, OutputValue>
  {
    if events == [] then outputs
    else
      var last := events[|events| - 1];
      var earlier := Apply(outputs, events[..|events| - 1]);
      if last.OutputSet? then earlier[last.name := last.value] else earlier
  }

  /** The output parameters a trace sets. */
  function OutputsOf(events: seq<Event>): map<string, OutputValue>
  {
    Apply(map[], events)
  }

  /** One more event changes the outputs only if it sets one. */
  lemma ApplySnoc(outputs: map<string, OutputValue>, events: seq<Event>, e: Event)
    ensures Apply(outputs, events + [e])
            == if e.OutputSet? then Apply(outputs, events)[e.name := e.value] else Apply(outputs, events)
  {
    assert (events + [e])[..|events|] == events;
  }

  /** A trace that sets no output leaves the outputs as they were. */
  lemma {:induction false} ApplyNone(outputs: map<string, OutputValue>, events: seq<Event>)
    requires forall i :: 0 <= i < |events| ==> !events[i].OutputSet?
    ensures Apply(outputs, events) == outputs
  {
    if events != [] {
      ApplyNone(outputs, events[..|events| - 1]);
    }
  }

  /** Event `i` of the trace sets the output parameter `name`. */
  predicate SetsAt(events: seq<Event>, i: int, name: string)
  {
    0 <= i < |events| && events[i].OutputSet? && events[i].name == name
  }

  /** The trace starts a process. */
  predicate Started(events: seq<Event>)
  {
    exists i :: 0 <= i < |events| && events[i].ProcessStarted?
  }

  /** The trace ends by destroying the process. */
  predicate EndsDestroyed(events: seq<Event>)
  {
    |events| > 0 && events[|events| - 1] == ProcessDestroyed
  }
}
