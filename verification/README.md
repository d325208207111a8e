# Window activation through KWin scripting, in Dafny

This project models `activate.py`, the bridge that brings a desktop window to
the front by title or by class on KDE's KWin compositor. In one attempt the
bridge:

1. refuses to start without a criterion, and connects to the session bus;
2. publishes a small D-Bus receiver, `WindowManagement`, whose `found` flag
   the two handlers `WindowFound` and `WindowNotFound` overwrite;
3. generates a KWin JavaScript script (`generate_kwin_script`). The script
   embeds the title and class criteria with single quotes escaped. It builds
   a case-insensitive RegExp from the title, walks KWin's client list,
   activates the first client that matches, and calls the receiver back with
   one `WindowFound` or `WindowNotFound`. If building the RegExp throws, the
   script stops before the loop and calls nothing;
4. writes the script to a fixed file, loads it into KWin and runs it;
5. spins the GLib main loop for one millisecond, then returns the receiver's
   flag.

Every path that enters the `try` at activate.py:94 attempts one unpublish of
the receiver and one removal of the file in its `finally` block. A failure to publish or to
write the file returns before that `try`, so those paths skip the teardown.

Modules:

- `Wrappers`: `Option` and `Result`.
- `Receiver`: the bus address, the two notifications and the
  `WindowManagement` class. `FoundAfter` is the flag's value after a sequence
  of handler calls.
- `Escaping`: the missing-criterion default, the quote escaping, its inverse,
  and `ReadLiteral`. `ReadLiteral` is how a JavaScript engine reads a string
  literal back, for either quote character. With it the model can state what
  value the script actually sees in each of the places a criterion is
  spliced. A "line break" is any of the four line terminators of ECMAScript 5,
  which KWin's script engine implements: line feed, carriage return, U+2028
  and U+2029.
- `KWinScript`: the f-string as a `Template` of fixed fragments around the
  four splices, the template `KWin` of activate.py, `GenerateScript`, and
  where each criterion and each call-back lands in the generated text.
- `ScriptSelection`: the script's selection loop (`activateWindow` inside the
  template), as the first-match function `FirstMatch` and the loop method
  `ActivateFirstMatch`.
- `Activation`: `activate_window`, with every bus, file and KWin outcome as
  an input. It returns the result together with the trace of side-effecting
  calls it attempted, in order.

## Model

| member | source | states |
|---|---|---|
| `Receiver.MethodName` | activate.py:10-12 | the two notifications are the interface's `WindowFound` and `WindowNotFound` methods, one to one |
| `Receiver.FoundAfter` | activate.py:24-30 | the flag after a sequence of handler calls; `LastNotificationWins` and `AppendedNotificationWins` state its meaning, and `Dispatch` and `DispatchAll` are proved against it |
| `Receiver.WindowManagement.constructor` | activate.py:21-22 | a new receiver has `found` false |
| `Receiver.WindowManagement.WindowFound` | activate.py:24-26 | the handler sets `found` to true |
| `Receiver.WindowManagement.WindowNotFound` | activate.py:28-30 | the handler sets `found` to false |
| `Receiver.WindowManagement.Dispatch` | activate.py:24-30 | handling one notification leaves `found` as `FoundAfter` says |
| `Receiver.WindowManagement.DispatchAll` | activate.py:106-109 | handling the notifications that arrive while the loop runs, in order, leaves `found` as `FoundAfter` says |
| `Receiver.LastNotificationWins` | activate.py:24-30 | the last notification decides `found`; with none, the flag keeps its value |
| `Receiver.AppendedNotificationWins` | activate.py:24-30 | a notification after any others overrides them all |
| `Escaping.OrEmpty` | activate.py:34-35 | `criterion or ""`; `GeneratedScriptCarriesCriteria` states that a missing criterion reaches the script as the empty string |
| `Escaping.Escape` | activate.py:34-35 | the `replace("'", "\\'")`; `EscapeLength`, `EscapeAppend`, `EscapeVerbatim`, `EscapedQuotesArePreceded` and `UnescapeEscape` state what it does |
| `Escaping.EscapeLength` | activate.py:34-35 | the escaped criterion is longer by exactly the number of single quotes |
| `Escaping.EscapeAppend` | activate.py:34-35 | escaping works character by character: it distributes over concatenation |
| `Escaping.EscapeVerbatim` | activate.py:34-35 | a criterion without single quotes is embedded unchanged |
| `Escaping.EscapedQuotesArePreceded` | activate.py:34-35 | every single quote in the escaped text has a backslash right before it |
| `Escaping.UnescapeEscape` | activate.py:34-35 | turning each `\'` back into `'` recovers the criterion, so escaping loses nothing |
| `Escaping.ReadVerbatim` | activate.py:36-40 | fixed text without backslash, quote or line break reads as itself in a literal, which then reads on after it |
| `Escaping.ReadEscapedPlain` | activate.py:34-40 | in a single- or double-quoted literal, JavaScript reads an escaped criterion without backslash, double quote or line break as the criterion itself, then reads on after it |
| `Escaping.LiteralRoundTrip` | activate.py:34-40 | for a criterion without backslash, double quote or line break, a literal `'<escaped criterion>'` reads back as exactly the criterion, ending at the template's closing quote |
| `Escaping.TrailingBackslashBreaksLiteral` | activate.py:34-40 | backslashes are not escaped: a criterion `p\` with plain `p` does not read back, because its backslash turns the template's closing quote into an escaped quote |
| `Escaping.DoubleQuoteEndsLiteral` | activate.py:34-38 | double quotes are not escaped: in a double-quoted literal, the first `"` of a criterion whose text before it is plain ends the literal, and the rest of the criterion is read as script text |
| `KWinScript.GenerateScript` | activate.py:32-61 | `generate_kwin_script`, filling the template constant `KWin` (lines 36-61) with the escaped criteria; `GeneratedScriptCarriesCriteria`, `GeneratedPrintEndsInsideClass` and `GeneratedScriptCallsBack` state what its output holds |
| `KWinScript.LogLayout` | activate.py:38 | the print literal's text starts right after `print("` and is followed by the closing `"`, the RegExp part and the class part |
| `KWinScript.PatternLayout` | activate.py:39 | the title's second place directly follows `new RegExp('` and is closed by a quote |
| `KWinScript.ClassLayout` | activate.py:40 | the class's second place directly follows `var compareToClass = '` and is closed by a quote, then the fixed rest of the script |
| `KWinScript.ScriptPrintShowsCriteria` | activate.py:38 | in any filled template with escape-free print text, the print literal of plain criteria reads back as its text with the class and the title, ending where the template closes it |
| `KWinScript.ScriptPrintEndsInsideClass` | activate.py:38 | in a template whose print text before the class needs no escaping, a class `p"x` with plain `p` ends the print literal after `p` |
| `KWinScript.ScriptPatternIsTitle` | activate.py:39 | the RegExp source literal is the escaped title closed by a quote; a plain title reads back as itself |
| `KWinScript.ScriptDeclaresClass` | activate.py:40 | the class literal is the escaped class, a quote and the fixed rest of the script; a plain class reads back as itself |
| `KWinScript.ScriptCallsBack` | activate.py:41-61 | whatever is spliced in, the fixed rest after the class literal holds the `WindowFound` call and, later, the `WindowNotFound` call, unchanged |
| `KWinScript.CriteriaReadBack` | activate.py:36-40 | in any filled template with escape-free print text, all three literals read back as the plain criteria |
| `KWinScript.KWinLogVerbatim` | activate.py:38 | the fixed text of the script's print needs no escaping inside its double quotes |
| `KWinScript.GeneratedScriptCarriesCriteria` | activate.py:32-40 | in `generate_kwin_script`'s output for plain criteria, the print shows both criteria, the RegExp source is the title and `compareToClass` is the class, with a missing criterion read as empty |
| `KWinScript.GeneratedPrintEndsInsideClass` | activate.py:35-38 | in `generate_kwin_script`'s output, a class `p"x` with plain `p` makes the print literal end after `p` |
| `KWinScript.GeneratedScriptCallsBack` | activate.py:36-61 | every generated script holds the calls to the published bus name, object path and interface at offsets after the class literal: `WindowFound`, and `WindowNotFound` later |
| `ScriptSelection.Matches` | activate.py:41-48 | the match test of one client; `ClassCriterionDecides` states which criterion decides |
| `ScriptSelection.ClassCriterionDecides` | activate.py:41-48 | with a non-empty class criterion a client matches iff its class equals it, whatever the caption test; with an empty one, iff the caption test holds, whatever its class |
| `ScriptSelection.FirstMatch` | activate.py:44-56 | the selected index matches and no earlier client does; None means that no client matches |
| `ScriptSelection.FirstMatchIsLeast` | activate.py:44-56 | every matching client lies at or after the selected one, so one exists whenever some client matches |
| `ScriptSelection.FirstMatchIgnoresLater` | activate.py:49-54 | clients listed after the first match never change the selection |
| `ScriptSelection.ActivateFirstMatch` | activate.py:39-58 | when `new RegExp` throws, nothing is activated and nothing is called; otherwise the loop activates the first match and sends exactly one `WindowFound`, or activates nothing and sends exactly one `WindowNotFound` |
| `ScriptSelection.OneNotification` | activate.py:49-58 | once the RegExp is built, the single notification leaves `found` true iff some client matches |
| `Activation.Given` | activate.py:64-65 | Python truthiness of a criterion; `ActivateWindow` raises the ValueError iff neither is `Given` |
| `Activation.ReportsFound` | activate.py:94-111 | what the `try` returns: loaded with a non-zero id, ran, built its RegExp, some client matched, and the notification arrived; `LoadAndRun` is proved to return it |
| `Activation.LoadRunStepsOrder` | activate.py:94-104 | the `try` loads first; it runs the script iff the id is non-zero, and waits iff moreover the run returned; it holds no teardown step |
| `Activation.LoadAndRun` | activate.py:94-114 | the `try` body returns `ReportsFound` and attempts exactly the calls `LoadRunSteps` lists |
| `Activation.TeardownOnce` | activate.py:115-126 | a trace that ends in the teardown holds exactly one unpublish attempt and one removal attempt |
| `Activation.Setup` | activate.py:72-91 | publish comes first; a publish failure stops before the write; a write failure stops after the write, a chmod failure after the chmod; setup succeeds iff both succeed; no teardown happens here |
| `Activation.Teardown` | activate.py:115-126 | the `finally` attempts one unpublish and then one removal, whatever their outcome, and their failures do not escape |
| `Activation.TryLoadAndRun` | activate.py:94-126 | the `try` with its `finally`: the block's calls, then the teardown, and the block's result |
| `Activation.PublishAndActivate` | activate.py:72-126 | after connecting: a publish failure returns false after that call alone; a write or chmod failure returns false after exactly those calls, with neither an unpublish nor a removal attempted; otherwise `ReportsFound`, with the full trace and one unpublish attempt and one removal attempt |
| `Activation.ActivateWindow` | activate.py:63-126 | the ValueError iff neither criterion is given, and the session-bus error iff one is given but the bus is unavailable, both before any call; otherwise as `PublishAndActivate` says for `generate_kwin_script`'s output |
| `Activation.PublishAndActivateIntended` | activate.py:84-126 | the corrected flow after connecting: once published, exactly one unpublish and one removal are attempted on every path, and the result is the one as written |
| `Activation.ActivateWindowIntended` | activate.py:63-126 | the corrected `activate_window`: the same errors and results as written, and exactly one unpublish and one removal attempted on every published path |

## Left out

- `talker.py` is not part of this model. It holds the GUI wiring, a dictation call and an editor subprocess.
- `pydbus.SessionBus`, pydbus `publish`, `get` and `unpublish`, KWin's `loadScript` and `run`, the file write, `chmod` and `os.remove` are I/O. Each is an outcome in `Activation.Environment`, and the trace records which of the calls after the bus connection were attempted. The two `bus.get` calls (activate.py:95 and :101) have no action of their own: the first is folded into `LoadScript` and the second into `RunScript`, so when the second `bus.get` raises the trace shows a `RunScript` whose `run()` was never issued.
- The GLib main loop and its 1 ms timer are timing. They become one input: whether the script's notification arrived before the loop quit. The script sends at most one notification, so a dispatched sequence is that one or empty.
- JavaScript `RegExp` semantics are not modelled. This covers the title used as a pattern and the case-insensitive flag. The caption test and whether `new RegExp` throws are the input `compareToCaption`; the model does not tie that outcome to the title's text.
- All `print` diagnostics and the messages written to stderr are left out. The print's literal is modelled only as text the script must parse.
- `Activation.LoadAndRun` and `Activation.ActivateWindow` take the script's class criterion as `OrEmpty(cls)`. `KWinScript.GeneratedScriptCarriesCriteria` proves this is the value the script's literals hold whenever the criteria contain no backslash, double quote or line break. For other criteria a literal holds something else or ends early (`Escaping.TrailingBackslashBreaksLiteral`, `KWinScript.GeneratedPrintEndsInsideClass`), and the model does not follow the script into that case.
- `Escaping.ReadLiteral` treats a backslash as "the next character stands for itself". That is right for `\'`, `\"` and `\\`. The other JavaScript escape sequences are not distinguished, and a backslash followed by a line break reads as an unterminated literal (None), where JavaScript reads a line continuation.
- The trace records which teardown calls were attempted, not whether they took effect. An `unpublish` or `os.remove` whose exception is swallowed (activate.py:117-126) may leave the receiver published or the file in place; `Activation.UnpublishSkipped` means only that no unpublish was attempted.
- Exceptions the source does not catch are not modelled: a non-`OSError` from the write block, or a non-`OSError` from `os.remove`.
- `workspace.activeClient = client` is modelled as the index `ActivateFirstMatch` returns. KWin's actual focus change is not modelled.
- The script id is modelled as an integer, and Python's `not script_id` as `scriptId == 0`.
- `Activation.ActivateWindow` generates the script before publishing rather than after; generating it has no effect, so no trace differs.
- On a write or chmod failure, the code skips what its `try`/`finally` evidently intends: once published, the receiver is unpublished and the file removed whatever the outcome. The corrected flow attempts the removal on a write failure too, because `open` may already have created the file and a failing `os.remove` is swallowed. `Activation.ActivateWindow` follows the code, and the Findings table below records the difference.

## Findings

| source | as written | input that shows it | evidently intended | confidence | as-written member | corrected member |
|---|---|---|---|---|---|---|
| activate.py:89-91 | an `OSError` while writing or chmod'ing the script returns False before the `try`/`finally`, so the published receiver is never unpublished and a file already written stays at `/tmp/kwin_activate_window.js` | any given criterion, publish succeeds, the file write raises `OSError` | once published, the service is unpublished and the script file removed on every exit path | medium, not executed | `Activation.ActivateWindow` | `Activation.ActivateWindowIntended` |
