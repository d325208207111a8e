/**
 * The D-Bus object that receives the generated script's verdict
 * (class WindowManagement in activate.py), together with the bus address
 * under which it is published and which the script calls back.
 */
module Receiver {

  /** Well-known bus name under which the receiver is published. */
  const BusName := "com.example.WindowManagement"
  /** Object path of the receiver. */
  const ObjectPath := "/WindowManagement"
  /** Interface declared by the receiver's introspection XML. */
  const InterfaceName := "com.example.WindowManagement"

  /** The two zero-argument methods of the interface. */
  datatype Notification = Found | NotFound

  /** The D-Bus method name of a notification. */
  function MethodName(n: Notification): (name: string)
    ensures name == "WindowFound" <==> n == Found
    ensures name == "WindowNotFound" <==> n == NotFound
  {
    match n
    case Found => "WindowFound"
    case NotFound => "WindowNotFound"
  }

  /**
   * The value of `found` after the handlers for `ns` have run in order,
   * starting from `initial`: each handler overwrites the field.
   */
  function FoundAfter(initial: bool, ns: seq<Notification>): bool
    decreases ns
  {
    if ns == [] then initial else FoundAfter(ns[0] == Found, ns[1..])
  }

  /** The last notification decides; without any, the field keeps its value. */
  lemma {:induction false} LastNotificationWins(initial: bool, ns: seq<Notification>)
    ensures ns == [] ==> FoundAfter(initial, ns) == initial
    ensures ns != [] ==> (FoundAfter(initial, ns) <==> ns[|ns| - 1] == Found)
    decreases ns
  {
    if ns != [] {
      LastNotificationWins(ns[0] == Found, ns[1..]);
    }
  }

  /** A notification appended after the others overrides them all. */
  lemma AppendedNotificationWins(initial: bool, ns: seq<Notification>, n: Notification)
    ensures FoundAfter(initial, ns + [n]) == (n == Found)
  {
    LastNotificationWins(initial, ns + [n]);
  }

  class WindowManagement {
    /** Whether the script reported a matching window. */
    var found: bool

    constructor ()
      ensures !found
    {
      found := false;
    }

    /** Handler for the script's WindowFound call. */
    method WindowFound()
      modifies this
      ensures found
    {
      found := true;
    }

    /** Handler for the script's WindowNotFound call. */
    method WindowNotFound()
      modifies this
      ensures !found
    {
      found := false;
    }

    /** The bus dispatching one incoming method call to its handler. */
    method Dispatch(n: Notification)
      modifies this
      ensures found == FoundAfter(old(found), [n])
    {
      match n
      case Found => WindowFound();
      case NotFound => WindowNotFound();
    }

    /**
     * The main loop dispatching, in arrival order, the calls that reached
     * the process before it quit.
     */
    method DispatchAll(ns: seq<Notification>)
      modifies this
      ensures found == FoundAfter(old(found), ns)
    {
      for i := 0 to |ns|
        invariant found == FoundAfter(old(found), ns[..i])
      {
        Dispatch(ns[i]);
        AppendedNotificationWins(old(found), ns[..i], ns[i]);
        assert ns[..i + 1] == ns[..i] + [ns[i]];
      }
      assert ns[..|ns|] == ns;
    }
  }
}
