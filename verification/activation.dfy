/**
 * The control flow of activate_window in activate.py: validation, publishing
 * the receiver, writing the script file, loading and running the script over
 * the bus, waiting briefly for its notification, and the teardown in the
 * `finally` block. Every bus, file and KWin call is an outcome supplied by
 * the environment; the model records the calls attempted, in order.
 */
module Activation {
  import opened Wrappers
  import opened Receiver
  import opened Escaping
  import opened KWinScript
  import opened ScriptSelection

  /** The fixed script location. */
  const ScriptPath := "/tmp/kwin_activate_window.js"
  /** The file mode 0o644. */
  const ScriptMode := 420

  /**
   * The exceptions activate_window lets escape: the ValueError raised when
   * neither criterion is given, and a failure to connect to the session bus.
   */
  datatype ActivationError = MissingCriteria | NoSessionBus

  /** A side-effecting call activate_window attempts. */
  datatype Action =
    | Publish(busName: string, objectPath: string)  // bus.publish of the receiver
    | WriteScript(path: string, content: string)    // open and write
    | Chmod(path: string, mode: int)                // os.chmod
    | LoadScript(path: string)                      // bus.get of KWin's /Scripting, then loadScript
    | RunScript(scriptId: int)                      // bus.get of the script's object, then run()
    | AwaitNotification                             // the GLib main loop with its 1 ms timer
    | Unpublish                                     // publication.unpublish()
    | RemoveScript(path: string)                    // os.remove

  /** How the write block ends: an OSError from open/write, from chmod, or none. */
  datatype WriteOutcome = WriteRaises | ChmodRaises | Written

  /** How loading ends: an exception from the bus, or the id KWin returns. */
  datatype LoadOutcome = LoadRaises | Loaded(scriptId: int)

  /**
   * The outcome of every call activate_window cannot see into: the session
   * bus connection, the bus and file operations, KWin's view of the clients,
   * the test of the caption RegExp (None when `new RegExp` throws), and
   * whether the script's notification reached the process before the timer
   * ended the main loop.
   */
  datatype Environment = Environment(
    sessionBusOk: bool,
    publishOk: bool,
    write: WriteOutcome,
    load: LoadOutcome,
    runOk: bool,
    clients: seq<Window>,
    compareToCaption: Option<string -> bool>,
    delivered: bool,
    unpublishOk: bool,
    removeOk: bool)

  /** Python truthiness of an optional criterion: present and non-empty. */
  predicate Given(criterion: Option<string>)
  {
    criterion.Some? && |criterion.value| > 0
  }

  /** How many times an action occurs in a trace. */
  function Count(trace: seq<Action>, a: Action): nat
  {
    multiset(trace)[a]
  }

  /** Neither a teardown step. */
  predicate NoTeardown(steps: seq<Action>)
  {
    forall i :: 0 <= i < |steps| ==> !steps[i].Unpublish? && !steps[i].RemoveScript?
  }

  /**
   * The receiver's address was published and no unpublish was attempted
   * afterwards. An attempted unpublish whose exception is swallowed is not
   * this case, although it too may leave the address published.
   */
  predicate UnpublishSkipped(trace: seq<Action>)
  {
    Publish(BusName, ObjectPath) in trace && Unpublish !in trace
  }

  /**
   * The value the load-and-run block returns: the script loaded with a
   * non-zero id, ran, built its caption RegExp, some client matched its
   * criteria, and the resulting WindowFound call arrived before the loop quit.
   */
  predicate ReportsFound(cls: Option<string>, env: Environment)
  {
    env.load.Loaded? && env.load.scriptId != 0 && env.runOk && env.delivered
    && env.compareToCaption.Some?
    && FirstMatch(env.clients, OrEmpty(cls), env.compareToCaption.value).Some?
  }

  /**
   * The calls the load-and-run block attempts: the load; the run only for a
   * non-zero id; the wait for the notification only when the run returned.
   */
  function LoadRunSteps(env: Environment): seq<Action>
  {
    match env.load
    case LoadRaises => [LoadScript(ScriptPath)]
    case Loaded(scriptId) =>
      if scriptId == 0 then [LoadScript(ScriptPath)]
      else if !env.runOk then [LoadScript(ScriptPath), RunScript(scriptId)]
      else [LoadScript(ScriptPath), RunScript(scriptId), AwaitNotification]
  }

  /**
   * The load comes first and once; the script runs iff KWin returned a
   * non-zero id, and the process waits iff moreover the run returned; no
   * teardown step happens inside the block.
   */
  lemma LoadRunStepsOrder(env: Environment)
    ensures var steps := LoadRunSteps(env);
      0 < |steps| && steps[0] == LoadScript(ScriptPath) && NoTeardown(steps)
      && (forall id :: RunScript(id) in steps <==> env.load == Loaded(id) && id != 0)
      && (AwaitNotification in steps <==> env.load.Loaded? && env.load.scriptId != 0 && env.runOk)
  {
    var steps := LoadRunSteps(env);
    if env.load.Loaded? && env.load.scriptId != 0 {
      assert steps[1] == RunScript(env.load.scriptId);
    }
  }

  /**
   * The body of the `try` that loads and runs the script. A raising step or
   * a zero id returns false; otherwise the receiver reports what arrived.
   */
  method LoadAndRun(cls: Option<string>, env: Environment, receiver: WindowManagement)
    returns (found: bool, steps: seq<Action>)
    requires !receiver.found
    modifies receiver
    ensures found == ReportsFound(cls, env)
    ensures steps == LoadRunSteps(env)
  {
    steps := [LoadScript(ScriptPath)];
    match env.load
    case LoadRaises =>
      found := false;
    case Loaded(scriptId) =>
      if scriptId == 0 {
        found := false;
      } else {
        steps := steps + [RunScript(scriptId)];
        if !env.runOk {
          found := false;
        } else {
          var activated, calls := ActivateFirstMatch(env.clients, OrEmpty(cls), env.compareToCaption);
          steps := steps + [AwaitNotification];
          if env.delivered {
            receiver.DispatchAll(calls);
          }
          found := receiver.found;
        }
      }
  }

  /** Steps without teardown hold neither an unpublish nor a removal. */
  lemma NoTeardownExcludes(steps: seq<Action>)
    requires NoTeardown(steps)
    ensures Unpublish !in steps && RemoveScript(ScriptPath) !in steps
  {
  }

  /** Appending the teardown to steps that hold none leaves one of each. */
  lemma TeardownOnce(pre: seq<Action>, steps: seq<Action>)
    requires NoTeardown(pre) && NoTeardown(steps)
    ensures Count(pre + (steps + [Unpublish, RemoveScript(ScriptPath)]), Unpublish) == 1
    ensures Count(pre + (steps + [Unpublish, RemoveScript(ScriptPath)]), RemoveScript(ScriptPath)) == 1
    ensures !UnpublishSkipped(pre + (steps + [Unpublish, RemoveScript(ScriptPath)]))
  {
    NoTeardownExcludes(pre + steps);
    assert pre + (steps + [Unpublish, RemoveScript(ScriptPath)]) == pre + steps + [Unpublish, RemoveScript(ScriptPath)];
    assert multiset(pre + steps + [Unpublish, RemoveScript(ScriptPath)])
      == multiset(pre + steps) + multiset{Unpublish, RemoveScript(ScriptPath)};
  }

  /** The calls before the `try` when publishing and writing `script` succeed. */
  function SetupSteps(script: string): seq<Action>
  {
    [Publish(BusName, ObjectPath), WriteScript(ScriptPath, script), Chmod(ScriptPath, ScriptMode)]
  }

  /**
   * Publishing the receiver and writing the generated script to the file,
   * before the `try`: each failure ends the setup, and no teardown step is
   * taken here.
   */
  method Setup(script: string, env: Environment)
    returns (ok: bool, steps: seq<Action>)
    ensures ok <==> env.publishOk && env.write.Written?
    ensures NoTeardown(steps)
    ensures !env.publishOk ==> steps == [Publish(BusName, ObjectPath)]
    ensures env.publishOk && env.write.WriteRaises? ==> steps == SetupSteps(script)[..2]
    ensures env.publishOk && !env.write.WriteRaises? ==> steps == SetupSteps(script)
  {
    steps := [Publish(BusName, ObjectPath)];
    if !env.publishOk {
      return false, steps;
    }
    steps := steps + [WriteScript(ScriptPath, script)];
    if env.write == WriteRaises {
      return false, steps;
    }
    steps := steps + [Chmod(ScriptPath, ScriptMode)];
    ok := env.write == Written;
  }

  /**
   * The `finally` block: unpublish and remove are both attempted, and an
   * exception from either is swallowed. The environment is passed only so
   * that the contract shows env.unpublishOk and env.removeOk affect nothing.
   */
  method Teardown(env: Environment) returns (steps: seq<Action>)
    ensures steps == [Unpublish, RemoveScript(ScriptPath)]
  {
    steps := [Unpublish];
    steps := steps + [RemoveScript(ScriptPath)];
  }

  /**
   * The `try` that loads and runs the script together with its `finally`:
   * the teardown follows the block's calls whatever the block returned.
   */
  method TryLoadAndRun(cls: Option<string>, env: Environment, receiver: WindowManagement)
    returns (found: bool, steps: seq<Action>)
    requires !receiver.found
    modifies receiver
    ensures found == ReportsFound(cls, env)
    ensures steps == LoadRunSteps(env) + [Unpublish, RemoveScript(ScriptPath)]
  {
    var block;
    found, block := LoadAndRun(cls, env, receiver);
    var teardown := Teardown(env);
    steps := block + teardown;
  }

  /**
   * Everything activate_window does once connected to the bus, as written,
   * with `script` the generated script: false without teardown when
   * publishing or writing fails; otherwise the load-and-run result, after
   * exactly one unpublish and one removal.
   */
  method PublishAndActivate(script: string, cls: Option<string>, env: Environment)
    returns (found: bool, trace: seq<Action>)
    ensures !env.publishOk ==> !found && trace == [Publish(BusName, ObjectPath)]
    ensures env.publishOk && env.write.WriteRaises? ==> !found && trace == SetupSteps(script)[..2]
    ensures env.publishOk && env.write.ChmodRaises? ==> !found && trace == SetupSteps(script)
    ensures env.publishOk && !env.write.Written? ==>
      UnpublishSkipped(trace) && RemoveScript(ScriptPath) !in trace
    ensures env.publishOk && env.write.Written? ==>
      found == ReportsFound(cls, env)
      && trace == SetupSteps(script) + (LoadRunSteps(env) + [Unpublish, RemoveScript(ScriptPath)])
      && Count(trace, Unpublish) == 1 && Count(trace, RemoveScript(ScriptPath)) == 1
  {
    var receiver := new WindowManagement();
    var ok, setup := Setup(script, env);
    if !ok {
      NoTeardownExcludes(setup);
      return false, setup;
    }
    var steps;
    found, steps := TryLoadAndRun(cls, env, receiver);
    LoadRunStepsOrder(env);
    TeardownOnce(setup, LoadRunSteps(env));
    return found, setup + steps;
  }

  /**
   * activate_window(window_title, window_class) as written: a ValueError
   * before anything else when both criteria are missing or empty; the
   * session bus error before any call; false without teardown when
   * publishing or writing the script fails; and otherwise the load-and-run
   * result, after exactly one unpublish and one removal whose failures are
   * swallowed. The script is generated before publishing here; generating
   * it has no effect, so the order does not matter.
   */
  method ActivateWindow(title: Option<string>, cls: Option<string>, env: Environment)
    returns (r: Result<bool, ActivationError>, trace: seq<Action>)
    ensures r == Err(MissingCriteria) <==> !Given(title) && !Given(cls)
    ensures r == Err(NoSessionBus) <==> (Given(title) || Given(cls)) && !env.sessionBusOk
    ensures r.Err? ==> trace == []
    ensures r.Ok? && !env.publishOk ==> r == Ok(false) && trace == [Publish(BusName, ObjectPath)]
    ensures r.Ok? && env.publishOk && env.write.WriteRaises? ==>
      r == Ok(false) && trace == SetupSteps(GenerateScript(title, cls))[..2]
    ensures r.Ok? && env.publishOk && env.write.ChmodRaises? ==>
      r == Ok(false) && trace == SetupSteps(GenerateScript(title, cls))
    ensures r.Ok? && env.publishOk && !env.write.Written? ==>
      UnpublishSkipped(trace) && RemoveScript(ScriptPath) !in trace
    ensures r.Ok? && env.publishOk && env.write.Written? ==>
      r == Ok(ReportsFound(cls, env))
      && trace == SetupSteps(GenerateScript(title, cls)) + (LoadRunSteps(env) + [Unpublish, RemoveScript(ScriptPath)])
      && Count(trace, Unpublish) == 1 && Count(trace, RemoveScript(ScriptPath)) == 1
  {
    if !Given(title) && !Given(cls) {
      return Err(MissingCriteria), [];
    }
    if !env.sessionBusOk {
      return Err(NoSessionBus), [];
    }
    var found;
    found, trace := PublishAndActivate(GenerateScript(title, cls), cls, env);
    r := Ok(found);
  }

  /**
   * The part after the bus connection with the write failures routed
   * through the teardown, as the `try`/`finally` evidently intends: once
   * the receiver is published, one unpublish and one removal are attempted
   * on every path, and the result is the same as written.
   */
  method PublishAndActivateIntended(script: string, cls: Option<string>, env: Environment)
    returns (found: bool, trace: seq<Action>)
    ensures !env.publishOk ==> !found && trace == [Publish(BusName, ObjectPath)]
    ensures env.publishOk ==>
      !UnpublishSkipped(trace) && Count(trace, Unpublish) == 1 && Count(trace, RemoveScript(ScriptPath)) == 1
    ensures env.publishOk && env.write.WriteRaises? ==>
      !found && trace == SetupSteps(script)[..2] + [Unpublish, RemoveScript(ScriptPath)]
    ensures env.publishOk && env.write.ChmodRaises? ==>
      !found && trace == SetupSteps(script) + [Unpublish, RemoveScript(ScriptPath)]
    ensures env.publishOk && env.write.Written? ==>
      found == ReportsFound(cls, env)
      && trace == SetupSteps(script) + (LoadRunSteps(env) + [Unpublish, RemoveScript(ScriptPath)])
  {
    var receiver := new WindowManagement();
    var ok, setup := Setup(script, env);
    if !env.publishOk {
      return false, setup;
    }
    if !ok {
      TeardownOnce(setup, []);
      assert [] + [Unpublish, RemoveScript(ScriptPath)] == [Unpublish, RemoveScript(ScriptPath)];
      return false, setup + [Unpublish, RemoveScript(ScriptPath)];
    }
    var steps;
    found, steps := TryLoadAndRun(cls, env, receiver);
    LoadRunStepsOrder(env);
    TeardownOnce(setup, LoadRunSteps(env));
    return found, setup + steps;
  }

  /**
   * activate_window with the corrected write failures: the same errors and
   * the same result as written, and once the receiver is published, one
   * unpublish and one removal are attempted on every path.
   */
  method ActivateWindowIntended(title: Option<string>, cls: Option<string>, env: Environment)
    returns (r: Result<bool, ActivationError>, trace: seq<Action>)
    ensures r == Err(MissingCriteria) <==> !Given(title) && !Given(cls)
    ensures r == Err(NoSessionBus) <==> (Given(title) || Given(cls)) && !env.sessionBusOk
    ensures r.Err? ==> trace == []
    ensures r.Ok? && !env.publishOk ==> r == Ok(false) && trace == [Publish(BusName, ObjectPath)]
    ensures r.Ok? && env.publishOk ==>
      !UnpublishSkipped(trace) && Count(trace, Unpublish) == 1 && Count(trace, RemoveScript(ScriptPath)) == 1
    ensures r.Ok? && env.publishOk && env.write.WriteRaises? ==>
      r == Ok(false) && trace == SetupSteps(GenerateScript(title, cls))[..2] + [Unpublish, RemoveScript(ScriptPath)]
    ensures r.Ok? && env.publishOk && env.write.ChmodRaises? ==>
      r == Ok(false) && trace == SetupSteps(GenerateScript(title, cls)) + [Unpublish, RemoveScript(ScriptPath)]
    ensures r.Ok? && env.publishOk && env.write.Written? ==>
      r == Ok(ReportsFound(cls, env))
      && trace == SetupSteps(GenerateScript(title, cls)) + (LoadRunSteps(env) + [Unpublish, RemoveScript(ScriptPath)])
  {
    if !Given(title) && !Given(cls) {
      return Err(MissingCriteria), [];
    }
    if !env.sessionBusOk {
      return Err(NoSessionBus), [];
    }
    var found;
    found, trace := PublishAndActivateIntended(GenerateScript(title, cls), cls, env);
    r := Ok(found);
  }
}
