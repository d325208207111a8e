/**
 * The selection rule of the generated KWin script (activateWindow in the
 * template of activate.py): which client it activates and which receiver
 * method it calls back. The caption test is the compiled RegExp built from
 * the title; it is a parameter here, not a regular-expression engine, and
 * so is whether building it throws.
 */
module ScriptSelection {
  import opened Wrappers
  import opened Receiver

  /** A KWin client as the script sees it. */
  datatype Window = Window(caption: string, resourceClass: string)

  /**
   * Whether a client matches: a non-empty class criterion decides on exact
   * class equality alone, an empty one leaves the decision to the caption test.
   */
  predicate Matches(w: Window, compareToClass: string, captionTest: string -> bool)
  {
    var isCompareToClass := |compareToClass| > 0;
    (isCompareToClass && w.resourceClass == compareToClass)
      || (!isCompareToClass && captionTest(w.caption))
  }

  /** With a class criterion the caption is ignored, and without one the class is. */
  lemma ClassCriterionDecides(w: Window, compareToClass: string, captionTest: string -> bool, otherTest: string -> bool)
    ensures |compareToClass| > 0 ==>
      (Matches(w, compareToClass, captionTest) <==> w.resourceClass == compareToClass)
      && Matches(w, compareToClass, captionTest) == Matches(w, compareToClass, otherTest)
    ensures |compareToClass| == 0 ==>
      (Matches(w, compareToClass, captionTest) <==> captionTest(w.caption))
      && Matches(w, compareToClass, captionTest) == Matches(w.(resourceClass := []), compareToClass, captionTest)
  {
  }

  /** The index of the first matching client, in list order; None when none matches. */
  function FirstMatch(clients: seq<Window>, compareToClass: string, captionTest: string -> bool): (r: Option<nat>)
    decreases |clients|
    ensures r.Some? ==>
      r.value < |clients| && Matches(clients[r.value], compareToClass, captionTest)
      && forall j :: 0 <= j < r.value ==> !Matches(clients[j], compareToClass, captionTest)
    ensures r.None? ==>
      forall j :: 0 <= j < |clients| ==> !Matches(clients[j], compareToClass, captionTest)
  {
    if clients == [] then None
    else if Matches(clients[0], compareToClass, captionTest) then Some(0)
    else
      match FirstMatch(clients[1..], compareToClass, captionTest)
      case None => None
      case Some(i) => Some(i + 1)
  }

  /** Any matching client is at or after the first match. */
  lemma FirstMatchIsLeast(clients: seq<Window>, compareToClass: string, captionTest: string -> bool, k: nat)
    requires k < |clients| && Matches(clients[k], compareToClass, captionTest)
    ensures FirstMatch(clients, compareToClass, captionTest).Some?
    ensures FirstMatch(clients, compareToClass, captionTest).value <= k
  {
  }

  /** Clients after the first match do not change the selection. */
  lemma {:induction false} FirstMatchIgnoresLater(clients: seq<Window>, more: seq<Window>, compareToClass: string, captionTest: string -> bool)
    requires FirstMatch(clients, compareToClass, captionTest).Some?
    ensures FirstMatch(clients + more, compareToClass, captionTest) == FirstMatch(clients, compareToClass, captionTest)
  {
    var i := FirstMatch(clients, compareToClass, captionTest).value;
    var r := FirstMatch(clients + more, compareToClass, captionTest);
    assert (clients + more)[i] == clients[i];
    assert forall j :: 0 <= j < |clients| ==> (clients + more)[j] == clients[j];
    FirstMatchIsLeast(clients + more, compareToClass, captionTest, i);
  }

  /**
   * One run of the script's activateWindow over workspace.clientList():
   * the client it makes workspace.activeClient (None when it leaves it
   * alone) and the receiver methods it calls, in order. compareToCaption is
   * the test of the RegExp built from the title, None when `new RegExp`
   * throws; the script then stops before its loop and calls nothing.
   */
  method ActivateFirstMatch(clients: seq<Window>, compareToClass: string, compareToCaption: Option<string -> bool>)
    returns (activated: Option<nat>, calls: seq<Notification>)
    ensures compareToCaption.None? ==> activated == None && calls == []
    ensures compareToCaption.Some? ==>
      activated == FirstMatch(clients, compareToClass, compareToCaption.value)
    ensures compareToCaption.Some? && activated.Some? ==> calls == [Found]
    ensures compareToCaption.Some? && activated.None? ==> calls == [NotFound]
  {
    if compareToCaption.None? {
      return None, [];
    }
    var captionTest := compareToCaption.value;
    var isCompareToClass := |compareToClass| > 0;
    for i := 0 to |clients|
      invariant forall j :: 0 <= j < i ==> !Matches(clients[j], compareToClass, captionTest)
    {
      var client := clients[i];
      var classCompare := isCompareToClass && client.resourceClass == compareToClass;
      var captionCompare := !isCompareToClass && captionTest(client.caption);
      if classCompare || captionCompare {
        activated := Some(i);
        calls := [Found];
        return;
      }
    }
    activated := None;
    calls := [NotFound];
  }

  /**
   * Once the caption RegExp is built, the script sends exactly one
   * notification, and it is Found exactly when some client matches.
   */
  lemma OneNotification(clients: seq<Window>, compareToClass: string, captionTest: string -> bool, initial: bool)
    ensures var n := if FirstMatch(clients, compareToClass, captionTest).Some? then Found else NotFound;
      FoundAfter(initial, [n]) <==> exists k :: 0 <= k < |clients| && Matches(clients[k], compareToClass, captionTest)
  {
    if k :| 0 <= k < |clients| && Matches(clients[k], compareToClass, captionTest) {
      FirstMatchIsLeast(clients, compareToClass, captionTest, k);
    }
  }
}
