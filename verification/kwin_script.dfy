/**
 * The KWin script text that activate.py synthesises for one activation
 * attempt (generate_kwin_script): the fixed template and where the escaped
 * criteria land in it.
 */
module KWinScript {
  import opened Wrappers
  import opened Receiver
  import opened Escaping

  // The f-string splices the escaped class and title in four places: class
  // and title inside the double-quoted literal of the opening diagnostic
  // print, the title as the single-quoted RegExp source and the class as
  // the single-quoted class to compare against.

  /** The fixed fragments of the f-string, in order, around the splices. */
  datatype Template = Template(
    head: string,          // up to the opening print
    logLead: string,       // the print's text up to the class
    logMid: string,        // the print's text between class and title
    logEnd: string,        // the print's text after the title
    patternLead: string,   // from the end of the print up to the RegExp construction
    classLead: string,     // from the RegExp literal's closing quote up to the class declaration
    loopStart: string,     // from the class literal's closing quote to the WindowFound call
    foundCall: string,     // the WindowFound call inside the loop
    afterFound: string,    // from there to the WindowNotFound call after the loop
    notFoundCall: string,  // the WindowNotFound call
    scriptEnd: string)     // the end of the function and its invocation
  {
    /** Everything after the class literal's closing quote. */
    function Rest(): string
    {
      loopStart + foundCall + afterFound + notFoundCall + scriptEnd
    }
  }

  /** Opens the double-quoted literal of the opening print. */
  const PrintOpen := "print(\""
  /** Closes it. */
  const PrintClose := "\""
  /** Opens the RegExp whose source is the title. */
  const RegExpOpen := "new RegExp('"
  /** Opens the class to compare against. */
  const ClassDecl := "var compareToClass = '"

  /**
   * Fills the template with an escaped title `t` and an escaped class `c`:
   * the opening print, the RegExp construction, and the class declaration
   * followed by the loop.
   */
  function Render(tpl: Template, t: string, c: string): string
  {
    LogPart(tpl, t, c) + PatternPart(tpl, t) + ClassPart(tpl, c)
  }

  /** The text of the opening print's literal. */
  function LogText(tpl: Template, t: string, c: string): string
  {
    tpl.logLead + (c + (tpl.logMid + (t + tpl.logEnd)))
  }

  /** From the start of the script to the print literal's closing quote. */
  function LogPart(tpl: Template, t: string, c: string): string
  {
    tpl.head + PrintOpen + LogText(tpl, t, c) + PrintClose
  }

  /** From the end of the print literal to the RegExp literal's closing quote. */
  function PatternPart(tpl: Template, t: string): string
  {
    tpl.patternLead + RegExpOpen + t + "'"
  }

  /** From the end of the RegExp literal to the end of the script. */
  function ClassPart(tpl: Template, c: string): string
  {
    tpl.classLead + ClassDecl + c + "'" + tpl.Rest()
  }

  /** A `callDBus` statement addressed to the published receiver. */
  function CallBack(n: Notification): string
  {
    "callDBus(\"" + BusName + "\", \"" + ObjectPath + "\", \"" + InterfaceName + "\", \"" + MethodName(n) + "\");"
  }

  /** The script body from the class literal to the WindowFound call inside the loop. */
  const LoopStart :=
    ";\n" +
    "        var isCompareToClass = compareToClass.length > 0;\n" +
    "        var clients = workspace.clientList();\n" +
    "        print(\"Found \" + clients.length + \" clients\");\n" +
    "        for (var i = 0; i < clients.length; i++) {\n" +
    "            var client = clients[i];\n" +
    "            print(\"Client \" + i + \": caption='\" + client.caption + \"', class='\" + client.resourceClass + \"'\");\n" +
    "            var classCompare = (isCompareToClass && client.resourceClass == compareToClass);\n" +
    "            var captionCompare = (!isCompareToClass && compareToCaption.test(client.caption));\n" +
    "            if (classCompare || captionCompare) {\n" +
    "                print(\"Activating window: \" + client.caption);\n" +
    "                workspace.activeClient = client;\n" +
    "                "

  /** From the WindowFound call to the WindowNotFound call after the loop. */
  const AfterFound :=
    "\n" +
    "                print(\"WindowFound signal sent\");\n" +
    "                return;\n" +
    "            }\n" +
    "        }\n" +
    "        print(\"No matching window found\");\n" +
    "        "

  /** After the WindowNotFound call: the end of the function and its invocation. */
  const ScriptEnd :=
    "\n" +
    "    }\n" +
    "    activateWindow();\n" +
    "    "

  /** The opening print's text up to the class. */
  const LogLead := "Starting " + "KWin " + "script " + "for " + "class='"
  /** The opening print's text between class and title. */
  const LogMid := "', " + "title='"
  /** The opening print's text after the title. */
  const LogEnd := "'"

  /** The template of activate.py. */
  const KWin := Template(
    "\n    function activateWindow() {\n        ",
    LogLead,
    LogMid,
    LogEnd,
    ");\n        var compareToCaption = ",
    " || '', 'i');\n        ",
    LoopStart,
    CallBack(Found),
    AfterFound,
    CallBack(NotFound),
    ScriptEnd)

  /** generate_kwin_script(window_title, window_class). */
  function GenerateScript(title: Option<string>, cls: Option<string>): string
  {
    Render(KWin, Escape(OrEmpty(title)), Escape(OrEmpty(cls)))
  }

  /** Where the print literal's text starts in a rendered script. */
  function PrintAt(tpl: Template): nat
  {
    |tpl.head| + |PrintOpen|
  }

  /** Where the RegExp source literal's text starts in a rendered script. */
  function PatternAt(tpl: Template, t: string, c: string): nat
  {
    |LogPart(tpl, t, c)| + |tpl.patternLead| + |RegExpOpen|
  }

  /** Where the compareToClass literal's text starts in a rendered script. */
  function ClassAt(tpl: Template, t: string, c: string): nat
  {
    |LogPart(tpl, t, c)| + |PatternPart(tpl, t)| + |tpl.classLead| + |ClassDecl|
  }

  /** Where the fixed part after the class literal starts in a rendered script. */
  function RestAt(tpl: Template, t: string, c: string): nat
  {
    ClassAt(tpl, t, c) + |c| + 1
  }

  /** Where the WindowFound call starts in a rendered script. */
  function FoundCallAt(tpl: Template, t: string, c: string): nat
  {
    RestAt(tpl, t, c) + |tpl.loopStart|
  }

  /** Where the WindowNotFound call starts in a rendered script. */
  function NotFoundCallAt(tpl: Template, t: string, c: string): nat
  {
    FoundCallAt(tpl, t, c) + |tpl.foundCall| + |tpl.afterFound|
  }

  /** Locating a piece in a concatenation. */
  lemma SpliceAt(pre: string, open: string, x: string, post: string)
    ensures var s, k := pre + open + x + post, |pre| + |open|;
      k + |x| <= |s| && s[k - |open|..k] == open && s[k..k + |x|] == x && s[k..] == x + post
  {
  }

  /** A slice of the second part of a concatenation. */
  lemma Shift(x: string, y: string, z: string, i: nat, j: nat)
    requires i <= j <= |y|
    ensures |x| + j <= |x + y + z|
      && (x + y + z)[|x| + i..|x| + j] == y[i..j]
      && (x + y + z)[|x| + i..] == y[i..] + z
  {
    assert (x + y + z)[|x|..] == y + z;
  }

  /** A slice of the second of two parts. */
  lemma ShiftLast(x: string, y: string, i: nat, j: nat)
    requires i <= j <= |y|
    ensures |x| + j <= |x + y|
      && (x + y)[|x| + i..|x| + j] == y[i..j]
      && (x + y)[|x| + i..] == y[i..]
  {
    assert (x + y)[|x|..] == y;
  }

  /** The place right after `open` in a concatenation whose last part starts with `lead + open`. */
  lemma SpliceAfter(before: string, lead: string, open: string, x: string, q: string, rest: string)
    ensures var s, k := before + (lead + open + x + q + rest), |before| + |lead| + |open|;
      |open| <= k <= |s| && s[k - |open|..k] == open && s[k..] == x + q + rest
      && k + |x| + |q| <= |s| && s[k + |x| + |q|..] == rest
  {
    var part := lead + open + x + q + rest;
    var i := |lead| + |open|;
    assert part == lead + open + x + (q + rest);
    SpliceAt(lead, open, x, q + rest);
    ShiftLast(before, part, i - |open|, i);
    ShiftLast(before, part, i, i);
    ShiftLast(before, part, i + |x| + |q|, i + |x| + |q|);
    assert x + (q + rest) == x + q + rest;
    assert part[i + |x| + |q|..] == rest;
  }

  /** A slice of a suffix is a slice of the whole. */
  lemma SliceOfSuffix(s: string, m: nat, r: string, i: nat, j: nat)
    requires m <= |s| && s[m..] == r && i <= j <= |r|
    ensures m + j <= |s| && s[m + i..m + j] == r[i..j]
  {
    assert |s[m + i..m + j]| == |r[i..j]|;
    forall k | 0 <= k < j - i
      ensures s[m + i..m + j][k] == r[i..j][k]
    {
      assert s[m..][i + k] == s[m + i + k];
    }
  }

  /** A literal whose text is an escaped plain criterion reads back as that criterion. */
  lemma ReadBack(s: string, k: nat, criterion: string, rest: string)
    requires k <= |s| && s[k..] == Escape(criterion) + "'" + rest && Plain(criterion)
    ensures ReadLiteral('\'', s[k..]) == Some((criterion, rest))
  {
    LiteralRoundTrip(criterion, rest);
  }

  /** The layout around the print literal. */
  lemma LogLayout(tpl: Template, t: string, c: string)
    ensures var s, k := Render(tpl, t, c), PrintAt(tpl);
      |PrintOpen| <= k <= |s|
      && s[k - |PrintOpen|..k] == PrintOpen
      && s[k..] == LogText(tpl, t, c) + (PrintClose + (PatternPart(tpl, t) + ClassPart(tpl, c)))
  {
    var z := PatternPart(tpl, t) + ClassPart(tpl, c);
    var front := tpl.head + PrintOpen + LogText(tpl, t, c);
    assert Render(tpl, t, c) == LogPart(tpl, t, c) + z;
    assert (front + PrintClose) + z == front + (PrintClose + z);
    SpliceAt(tpl.head, PrintOpen, LogText(tpl, t, c), PrintClose + z);
  }

  /**
   * The title's second place directly follows `new RegExp('` and is closed
   * by a quote, after which the class part follows.
   */
  lemma PatternLayout(tpl: Template, t: string, c: string)
    ensures var s, k := Render(tpl, t, c), PatternAt(tpl, t, c);
      |RegExpOpen| <= k <= |s|
      && s[k - |RegExpOpen|..k] == RegExpOpen
      && s[k..] == t + "'" + ClassPart(tpl, c)
  {
    var log := LogPart(tpl, t, c);
    var pat := PatternPart(tpl, t);
    var i := |tpl.patternLead| + |RegExpOpen|;
    SpliceAt(tpl.patternLead, RegExpOpen, t, "'");
    Shift(log, pat, ClassPart(tpl, c), i - |RegExpOpen|, i);
    Shift(log, pat, ClassPart(tpl, c), i, i);
    assert pat[i..] == t + "'";
  }

  /**
   * The class's second place directly follows `var compareToClass = '` and
   * is closed by a quote, after which the fixed rest of the script follows.
   */
  lemma ClassLayout(tpl: Template, t: string, c: string)
    ensures var s, k := Render(tpl, t, c), ClassAt(tpl, t, c);
      |ClassDecl| <= k <= |s|
      && s[k - |ClassDecl|..k] == ClassDecl
      && s[k..] == c + "'" + tpl.Rest()
  {
    SpliceAfter(LogPart(tpl, t, c) + PatternPart(tpl, t), tpl.classLead, ClassDecl, c, "'", tpl.Rest());
  }

  /** The fixed part after the class literal is the template's rest, unchanged. */
  lemma RestLayout(tpl: Template, t: string, c: string)
    ensures var s, m := Render(tpl, t, c), RestAt(tpl, t, c);
      m <= |s| && s[m..] == tpl.Rest()
  {
    SpliceAfter(LogPart(tpl, t, c) + PatternPart(tpl, t), tpl.classLead, ClassDecl, c, "'", tpl.Rest());
  }

  /** The second and fourth parts of a five-part concatenation. */
  lemma FiveParts(a: string, b: string, c: string, d: string, e: string)
    ensures var r, j := a + b + c + d + e, |a| + |b| + |c|;
      j + |d| <= |r| && r[|a|..|a| + |b|] == b && r[j..j + |d|] == d
  {
    var r := a + b + c + d + e;
    assert r == a + (b + (c + d + e));
    assert r == (a + b + c) + (d + e);
  }

  /** Where the two calls sit in the template's rest. */
  lemma RestCalls(tpl: Template)
    ensures var r, i := tpl.Rest(), |tpl.loopStart|;
      var j := i + |tpl.foundCall| + |tpl.afterFound|;
      j + |tpl.notFoundCall| <= |r|
      && r[i..i + |tpl.foundCall|] == tpl.foundCall
      && r[j..j + |tpl.notFoundCall|] == tpl.notFoundCall
  {
    FiveParts(tpl.loopStart, tpl.foundCall, tpl.afterFound, tpl.notFoundCall, tpl.scriptEnd);
  }

  /** Reading the print literal's text, made of fixed text around two escaped plain criteria. */
  lemma ReadLog(a: string, cls: string, b: string, title: string, e: string, rest: string)
    requires Verbatim('"', a) && Verbatim('"', b) && Verbatim('"', e) && Plain(cls) && Plain(title)
    ensures ReadLiteral('"', (a + (Escape(cls) + (b + (Escape(title) + e)))) + (PrintClose + rest))
      == Some((a + (cls + (b + (title + e))), rest))
  {
    var y := PrintClose + rest;
    assert ReadLiteral('"', [] + y) == Some(([], rest)) by {
      assert [] + y == y && y[0] == '"' && y[1..] == rest;
    }
    ReadVerbatimThen('"', e, [], y, [], rest);
    assert e + [] == e;
    ReadEscapedThen('"', title, e, y, e, rest);
    ReadVerbatimThen('"', b, Escape(title) + e, y, title + e, rest);
    ReadEscapedThen('"', cls, b + (Escape(title) + e), y, b + (title + e), rest);
    ReadVerbatimThen('"', a, Escape(cls) + (b + (Escape(title) + e)), y, cls + (b + (title + e)), rest);
  }

  /** The print's fixed text holds no backslash, double quote or line break. */
  predicate LogVerbatim(tpl: Template)
  {
    Verbatim('"', tpl.logLead) && Verbatim('"', tpl.logMid) && Verbatim('"', tpl.logEnd)
  }

  /**
   * The print literal holds the fixed text with the class and the title
   * spliced in; with plain criteria it reads back as that text with the
   * criteria themselves, ending where the template closes it.
   */
  lemma ScriptPrintShowsCriteria(tpl: Template, title: string, cls: string)
    requires LogVerbatim(tpl) && Plain(title) && Plain(cls)
    ensures var t, c := Escape(title), Escape(cls);
      var s, k := Render(tpl, t, c), PrintAt(tpl);
      k <= |s|
      && ReadLiteral('"', s[k..]) == Some((LogText(tpl, title, cls), PatternPart(tpl, t) + ClassPart(tpl, c)))
  {
    var t, c := Escape(title), Escape(cls);
    LogLayout(tpl, t, c);
    ReadLog(tpl.logLead, cls, tpl.logMid, title, tpl.logEnd, PatternPart(tpl, t) + ClassPart(tpl, c));
  }

  /**
   * Double quotes are not escaped: with a class that holds `"`, the print
   * literal ends inside the class, so what follows the `"` in the class is
   * read as script code.
   */
  lemma ScriptPrintEndsInsideClass(tpl: Template, t: string, p: string, x: string)
    requires Verbatim('"', tpl.logLead) && Plain(p)
    ensures var s, k := Render(tpl, t, Escape(p + "\"" + x)), PrintAt(tpl);
      k <= |s| && ReadLiteral('"', s[k..]).Some? && ReadLiteral('"', s[k..]).value.0 == tpl.logLead + p
  {
    var c := Escape(p + "\"" + x);
    var w := tpl.logMid + (t + tpl.logEnd);
    var y := PrintClose + (PatternPart(tpl, t) + ClassPart(tpl, c));
    LogLayout(tpl, t, c);
    assert (c + w) + y == c + (w + y);
    DoubleQuoteEndsLiteral(p, x, w + y);
    ReadVerbatimThen('"', tpl.logLead, c + w, y, p, Escape(x) + (w + y));
  }

  /**
   * The RegExp's source literal, at the place PatternLayout shows follows
   * `new RegExp('`, is the escaped title closed by a quote; when the title
   * is plain the literal's value is the title itself.
   */
  lemma ScriptPatternIsTitle(tpl: Template, title: string, c: string)
    ensures var s, k := Render(tpl, Escape(title), c), PatternAt(tpl, Escape(title), c);
      k <= |s| && s[k..] == Escape(title) + "'" + ClassPart(tpl, c)
      && (Plain(title) ==> ReadLiteral('\'', s[k..]) == Some((title, ClassPart(tpl, c))))
  {
    var t := Escape(title);
    PatternLayout(tpl, t, c);
    if Plain(title) {
      ReadBack(Render(tpl, t, c), PatternAt(tpl, t, c), title, ClassPart(tpl, c));
    }
  }

  /**
   * The class literal, at the place ClassLayout shows follows
   * `var compareToClass = '`, is the escaped class followed by a quote and
   * the fixed rest of the script; when the class is plain the literal's
   * value is the class itself.
   */
  lemma ScriptDeclaresClass(tpl: Template, t: string, cls: string)
    ensures var s, k := Render(tpl, t, Escape(cls)), ClassAt(tpl, t, Escape(cls));
      k <= |s| && s[k..] == Escape(cls) + "'" + tpl.Rest()
      && (Plain(cls) ==> ReadLiteral('\'', s[k..]) == Some((cls, tpl.Rest())))
  {
    var c := Escape(cls);
    ClassLayout(tpl, t, c);
    if Plain(cls) {
      ReadBack(Render(tpl, t, c), ClassAt(tpl, t, c), cls, tpl.Rest());
    }
  }

  /**
   * In script `s`, rendered from `tpl` with `t` and `c`, the template's
   * WindowFound call and, after it, its WindowNotFound call appear
   * unchanged, both after the compareToClass literal.
   */
  predicate CallsBack(tpl: Template, s: string, t: string, c: string)
  {
    var f, n := FoundCallAt(tpl, t, c), NotFoundCallAt(tpl, t, c);
    ClassAt(tpl, t, c) + |c| < f && f + |tpl.foundCall| <= n && n + |tpl.notFoundCall| <= |s|
    && s[f..f + |tpl.foundCall|] == tpl.foundCall
    && s[n..n + |tpl.notFoundCall|] == tpl.notFoundCall
  }

  /** Whatever is spliced in, the fixed rest after the class literal holds both calls unchanged. */
  lemma ScriptCallsBack(tpl: Template, t: string, c: string)
    ensures CallsBack(tpl, Render(tpl, t, c), t, c)
  {
    var s, m := Render(tpl, t, c), RestAt(tpl, t, c);
    var i := |tpl.loopStart|;
    var j := i + |tpl.foundCall| + |tpl.afterFound|;
    RestLayout(tpl, t, c);
    RestCalls(tpl);
    SliceOfSuffix(s, m, tpl.Rest(), i, i + |tpl.foundCall|);
    SliceOfSuffix(s, m, tpl.Rest(), j, j + |tpl.notFoundCall|);
  }

  /**
   * In script `s`, rendered from `tpl` with the escaped `title` and `cls`,
   * the print literal reads back as its fixed text with both criteria, the
   * RegExp source literal as `title` and the compareToClass literal as
   * `cls`, each followed by the rest of the template.
   */
  predicate CarriesCriteria(tpl: Template, s: string, title: string, cls: string)
  {
    var t, c := Escape(title), Escape(cls);
    var q, p, k := PrintAt(tpl), PatternAt(tpl, t, c), ClassAt(tpl, t, c);
    q <= |s| && p <= |s| && k <= |s|
    && ReadLiteral('"', s[q..]) == Some((LogText(tpl, title, cls), PatternPart(tpl, t) + ClassPart(tpl, c)))
    && ReadLiteral('\'', s[p..]) == Some((title, ClassPart(tpl, c)))
    && ReadLiteral('\'', s[k..]) == Some((cls, tpl.Rest()))
  }

  /** All three literals of a template filled with two escaped plain criteria read back. */
  lemma CriteriaReadBack(tpl: Template, title: string, cls: string)
    requires LogVerbatim(tpl) && Plain(title) && Plain(cls)
    ensures CarriesCriteria(tpl, Render(tpl, Escape(title), Escape(cls)), title, cls)
  {
    ScriptPrintShowsCriteria(tpl, title, cls);
    ScriptPatternIsTitle(tpl, title, Escape(cls));
    ScriptDeclaresClass(tpl, Escape(title), cls);
  }

  /** The first words of the print's text need no escaping. */
  lemma LogOpeningVerbatim()
    ensures Verbatim('"', "Starting " + "KWin ")
  {
    VerbatimAppend('"', "Starting ", "KWin ");
  }

  /** The last words before the class need no escaping. */
  lemma LogClassLabelVerbatim()
    ensures Verbatim('"', "script " + "for " + "class='")
  {
    VerbatimAppend('"', "script ", "for ");
    VerbatimAppend('"', "script " + "for ", "class='");
  }

  /** The print's text before the class needs no escaping. */
  lemma LogLeadVerbatim()
    ensures Verbatim('"', LogLead)
  {
    LogOpeningVerbatim();
    LogClassLabelVerbatim();
    VerbatimAppend('"', "Starting " + "KWin ", "script " + "for " + "class='");
    assert LogLead == ("Starting " + "KWin ") + ("script " + "for " + "class='");
  }

  /** The script's print text needs no escaping. */
  lemma KWinLogVerbatim()
    ensures LogVerbatim(KWin)
  {
    LogLeadVerbatim();
    VerbatimAppend('"', "', ", "title='");
    assert Verbatim('"', LogEnd);
  }

  /**
   * generate_kwin_script with plain criteria: the script's print shows
   * both, its RegExp source literal reads back as the title and its
   * compareToClass literal as the class, a missing criterion in each place
   * being the empty string.
   */
  lemma GeneratedScriptCarriesCriteria(title: Option<string>, cls: Option<string>)
    requires Plain(OrEmpty(title)) && Plain(OrEmpty(cls))
    ensures CarriesCriteria(KWin, GenerateScript(title, cls), OrEmpty(title), OrEmpty(cls))
  {
    KWinLogVerbatim();
    CriteriaReadBack(KWin, OrEmpty(title), OrEmpty(cls));
  }

  /** The value of the print literal of script `s`, when it has one. */
  function PrintLiteral(tpl: Template, s: string): Option<string>
  {
    if PrintAt(tpl) <= |s| then
      match ReadLiteral('"', s[PrintAt(tpl)..])
      case None => None
      case Some(r) => Some(r.0)
    else None
  }

  /**
   * generate_kwin_script does not escape double quotes: for a class that
   * holds one, the print literal stops at it, and the class's remainder
   * becomes script code.
   */
  lemma GeneratedPrintEndsInsideClass(title: Option<string>, p: string, x: string)
    requires Plain(p)
    ensures PrintLiteral(KWin, GenerateScript(title, Some(p + "\"" + x))) == Some(KWin.logLead + p)
  {
    KWinLogVerbatim();
    ScriptPrintEndsInsideClass(KWin, Escape(OrEmpty(title)), p, x);
  }

  /** The template's two calls are addressed to the published receiver. */
  predicate AddressesReceiver(tpl: Template)
  {
    tpl.foundCall == CallBack(Found) && tpl.notFoundCall == CallBack(NotFound)
  }

  /**
   * Every generated script, whatever its criteria, calls back the published
   * receiver: `WindowFound` first, then `WindowNotFound`, both after the
   * compareToClass literal.
   */
  lemma GeneratedScriptCallsBack(title: Option<string>, cls: Option<string>)
    ensures AddressesReceiver(KWin)
    ensures CallsBack(KWin, GenerateScript(title, cls), Escape(OrEmpty(title)), Escape(OrEmpty(cls)))
  {
    ScriptCallsBack(KWin, Escape(OrEmpty(title)), Escape(OrEmpty(cls)));
  }
}
