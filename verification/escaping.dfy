/**
 * How generate_kwin_script in activate.py prepares a match criterion for
 * the script text: the missing-criterion default, the single-quote
 * escaping, and how a JavaScript engine reads the single- and double-quoted
 * literals the criterion is spliced into back.
 */
module Escaping {
  import opened Wrappers

  /** Python's `criterion or ""`: a missing criterion becomes the empty string. */
  function OrEmpty(criterion: Option<string>): string
  {
    match criterion
    case None => ""
    case Some(s) => s
  }

  /** Python's `s.replace("'", "\\'")`: every single quote gets a backslash in front. */
  function Escape(s: string): string
  {
    if s == [] then [] else EscapeChar(s[0]) + Escape(s[1..])
  }

  function EscapeChar(ch: char): string
  {
    if ch == '\'' then "\\'" else [ch]
  }

  /** The escaped text is longer than the criterion by its number of single quotes. */
  lemma {:induction false} EscapeLength(s: string)
    ensures |Escape(s)| == |s| + multiset(s)['\'']
    decreases |s|
  {
    if s != [] {
      assert s == [s[0]] + s[1..];
      EscapeLength(s[1..]);
    }
  }

  /** The inverse of the replacement: every `\'` pair becomes a single quote. */
  function Unescape(t: string): string
    decreases |t|
  {
    if |t| >= 2 && t[0] == '\\' && t[1] == '\'' then "'" + Unescape(t[2..])
    else if t == [] then []
    else [t[0]] + Unescape(t[1..])
  }

  /** Escaping distributes over concatenation. */
  lemma {:induction false} EscapeAppend(a: string, b: string)
    ensures Escape(a + b) == Escape(a) + Escape(b)
    decreases |a|
  {
    if a == [] {
      assert a + b == b;
    } else {
      var head := EscapeChar(a[0]);
      assert (a + b)[0] == a[0];
      assert (a + b)[1..] == a[1..] + b;
      EscapeAppend(a[1..], b);
      calc {
        Escape(a + b);
        head + Escape(a[1..] + b);
        head + (Escape(a[1..]) + Escape(b));
        (head + Escape(a[1..])) + Escape(b);
        Escape(a) + Escape(b);
      }
    }
  }

  /** A criterion without single quotes is embedded verbatim. */
  lemma {:induction false} EscapeVerbatim(s: string)
    requires '\'' !in s
    ensures Escape(s) == s
    decreases |s|
  {
    if s != [] {
      assert s == [s[0]] + s[1..];
      EscapeVerbatim(s[1..]);
    }
  }

  /** Every single quote of the escaped text is directly preceded by a backslash. */
  lemma {:induction false} EscapedQuotesArePreceded(s: string, i: nat)
    requires i < |Escape(s)| && Escape(s)[i] == '\''
    ensures 0 < i && Escape(s)[i - 1] == '\\'
    decreases |s|
  {
    var head := EscapeChar(s[0]);
    assert Escape(s) == head + Escape(s[1..]);
    if i >= |head| {
      EscapedQuotesArePreceded(s[1..], i - |head|);
    }
  }

  /** An escaped text never starts with a bare quote. */
  lemma EscapeNoLeadingQuote(s: string)
    ensures Escape(s) == [] || Escape(s)[0] != '\''
  {
    if s != [] {
      assert Escape(s)[0] == EscapeChar(s[0])[0];
    }
  }

  /** Undoing the replacement on one escaped character in front of a text without a leading quote. */
  lemma UnescapeEscapedChar(ch: char, x: string)
    requires x == [] || x[0] != '\''
    ensures Unescape(EscapeChar(ch) + x) == [ch] + Unescape(x)
  {
    var y := EscapeChar(ch) + x;
    if ch == '\'' {
      assert y[0] == '\\' && y[1] == '\'' && y[2..] == x;
    } else {
      assert y[0] == ch && y[1..] == x;
    }
  }

  /** Undoing the replacement gives back the criterion: escaping loses nothing. */
  lemma {:induction false} UnescapeEscape(s: string)
    ensures Unescape(Escape(s)) == s
    decreases |s|
  {
    if s != [] {
      UnescapeEscape(s[1..]);
      EscapeNoLeadingQuote(s[1..]);
      UnescapeEscapedChar(s[0], Escape(s[1..]));
      assert s == [s[0]] + s[1..];
    }
  }

  /**
   * The line terminators of ECMAScript 5, which KWin's script engine
   * implements: line feed, carriage return, line separator and paragraph
   * separator. One inside a string literal leaves it unterminated.
   */
  predicate IsLineBreak(c: char)
  {
    c == '\n' || c == '\r' || c == '\U{2028}' || c == '\U{2029}'
  }

  /** The two characters that open and close a JavaScript string literal. */
  predicate IsQuote(q: char)
  {
    q == '\'' || q == '"'
  }

  /**
   * Reads the rest of a JavaScript string literal delimited by `q` whose
   * opening quote has been consumed: its value and the text after the
   * closing quote, or None when the literal is not terminated on its line.
   * A backslash makes the next character stand for itself, which is
   * JavaScript's reading of `\'`, `\"` and `\\`; the other escape sequences
   * are not distinguished.
   */
  function ReadLiteral(q: char, t: string): Option<(string, string)>
    decreases |t|
  {
    if t == [] || IsLineBreak(t[0]) then None
    else if t[0] == q then Some(([], t[1..]))
    else if t[0] == '\\' then
      if |t| < 2 || IsLineBreak(t[1]) then None else Prepend([t[1]], ReadLiteral(q, t[2..]))
    else Prepend([t[0]], ReadLiteral(q, t[1..]))
  }

  function Prepend(p: string, read: Option<(string, string)>): Option<(string, string)>
  {
    match read
    case None => None
    case Some(r) => Some((p + r.0, r.1))
  }

  /** Text that a literal delimited by `q` holds as itself: no backslash, no `q`, no line break. */
  predicate Verbatim(q: char, s: string)
  {
    '\\' !in s && q !in s && '\n' !in s && '\r' !in s && '\U{2028}' !in s && '\U{2029}' !in s
  }

  /** Dropping the first character keeps text verbatim. */
  lemma VerbatimTail(q: char, s: string)
    requires Verbatim(q, s) && s != []
    ensures Verbatim(q, s[1..]) && s[0] != '\\' && s[0] != q && !IsLineBreak(s[0])
  {
    assert s == [s[0]] + s[1..];
  }

  /** Verbatim text joined to verbatim text is verbatim. */
  lemma VerbatimAppend(q: char, a: string, b: string)
    requires Verbatim(q, a) && Verbatim(q, b)
    ensures Verbatim(q, a + b)
  {
  }

  /**
   * A criterion the escaping makes safe to embed in both the single-quoted
   * literals and the double-quoted print of the script: no backslash, no
   * double quote and no line break. Single quotes are allowed.
   */
  predicate Plain(s: string)
  {
    Verbatim('"', s)
  }

  lemma PrependPrepend(a: string, b: string, read: Option<(string, string)>)
    ensures Prepend(a, Prepend(b, read)) == Prepend(a + b, read)
  {
    match read {
      case None =>
      case Some(r) => assert a + (b + r.0) == (a + b) + r.0;
    }
  }

  /** Reading text that holds no backslash, quote `q` or line break yields it and goes on after it. */
  lemma {:induction false} ReadVerbatim(q: char, v: string, t: string)
    requires Verbatim(q, v)
    ensures ReadLiteral(q, v + t) == Prepend(v, ReadLiteral(q, t))
    decreases |v|
  {
    if v == [] {
      assert v + t == t;
      match ReadLiteral(q, t) {
        case None =>
        case Some(r) => assert v + r.0 == r.0;
      }
    } else {
      VerbatimTail(q, v);
      assert (v + t)[0] == v[0] && (v + t)[1..] == v[1..] + t;
      ReadVerbatim(q, v[1..], t);
      PrependPrepend([v[0]], v[1..], ReadLiteral(q, t));
      assert [v[0]] + v[1..] == v;
    }
  }

  /** Reading one escaped plain character yields that character and goes on after it. */
  lemma ReadEscapedChar(q: char, ch: char, x: string)
    requires IsQuote(q) && ch != '\\' && ch != '"' && !IsLineBreak(ch)
    ensures ReadLiteral(q, EscapeChar(ch) + x) == Prepend([ch], ReadLiteral(q, x))
  {
    var y := EscapeChar(ch) + x;
    if ch == '\'' {
      assert y[0] == '\\' && y[1] == '\'' && y[2..] == x;
    } else {
      assert y[0] == ch && y[1..] == x;
    }
  }

  /** Reading an escaped plain criterion, in either kind of literal, yields the criterion and goes on after it. */
  lemma {:induction false} ReadEscapedPlain(q: char, s: string, t: string)
    requires IsQuote(q) && Plain(s)
    ensures ReadLiteral(q, Escape(s) + t) == Prepend(s, ReadLiteral(q, t))
    decreases |s|
  {
    if s == [] {
      assert Escape(s) + t == t;
      match ReadLiteral(q, t) {
        case None =>
        case Some(r) => assert s + r.0 == r.0;
      }
    } else {
      var x := Escape(s[1..]) + t;
      VerbatimTail('"', s);
      ReadEscapedPlain(q, s[1..], t);
      assert Escape(s) + t == EscapeChar(s[0]) + x;
      ReadEscapedChar(q, s[0], x);
      PrependPrepend([s[0]], s[1..], ReadLiteral(q, t));
      assert [s[0]] + s[1..] == s;
    }
  }

  /**
   * The escaping keeps a plain criterion's single-quoted literal intact:
   * the literal `'<escaped>'` reads back as exactly the criterion. A double
   * quote would be harmless here; Plain excludes it because the same
   * criterion is also spliced into the double-quoted print.
   */
  lemma LiteralRoundTrip(s: string, rest: string)
    requires Plain(s)
    ensures ReadLiteral('\'', Escape(s) + "'" + rest) == Some((s, rest))
  {
    ReadEscapedPlain('\'', s, "'" + rest);
    assert Escape(s) + "'" + rest == Escape(s) + ("'" + rest);
    assert s + [] == s;
  }

  /**
   * Backslashes are not escaped: a criterion ending in a backslash turns
   * the closing quote into an escaped quote, so the literal does not end
   * where the template closes it.
   */
  lemma TrailingBackslashBreaksLiteral(p: string, rest: string)
    requires Plain(p)
    ensures ReadLiteral('\'', Escape(p + "\\") + "'" + rest) != Some((p + "\\", rest))
  {
    var x := "\\'" + rest;
    assert Escape(p + "\\") + "'" + rest == Escape(p) + x by {
      EscapeVerbatim("\\");
      EscapeAppend(p, "\\");
    }
    ReadEscapedPlain('\'', p, x);
    assert x[0] == '\\' && x[1] == '\'' && x[2..] == rest;
    var inner := ReadLiteral('\'', rest);
    assert ReadLiteral('\'', x) == Prepend("'", inner);
    match inner {
      case None =>
      case Some(r) =>
        PrependPrepend(p, "'", inner);
        assert (p + "'" + r.0)[|p|] == '\'';
        assert (p + "\\")[|p|] == '\\';
    }
  }

  /** Reading fixed verbatim text in front of a literal's remainder. */
  lemma ReadVerbatimThen(q: char, a: string, w: string, y: string, v: string, rest: string)
    requires Verbatim(q, a) && ReadLiteral(q, w + y) == Some((v, rest))
    ensures ReadLiteral(q, (a + w) + y) == Some((a + v, rest))
  {
    assert (a + w) + y == a + (w + y);
    ReadVerbatim(q, a, w + y);
  }

  /** Reading an escaped plain criterion in front of a literal's remainder. */
  lemma ReadEscapedThen(q: char, s: string, w: string, y: string, v: string, rest: string)
    requires IsQuote(q) && Plain(s) && ReadLiteral(q, w + y) == Some((v, rest))
    ensures ReadLiteral(q, (Escape(s) + w) + y) == Some((s + v, rest))
  {
    assert (Escape(s) + w) + y == Escape(s) + (w + y);
    ReadEscapedPlain(q, s, w + y);
  }

  /**
   * Double quotes are not escaped: inside a double-quoted literal, a
   * criterion's first `"` ends the literal, and what follows it in the
   * criterion is read as script text.
   */
  lemma DoubleQuoteEndsLiteral(p: string, x: string, rest: string)
    requires Plain(p)
    ensures ReadLiteral('"', Escape(p + "\"" + x) + rest) == Some((p, Escape(x) + rest))
  {
    var ep, ex := Escape(p), Escape(x);
    assert Escape(p + "\"" + x) == (ep + "\"") + ex by {
      assert Escape("\"") == "\"";
      EscapeAppend(p, "\"");
      EscapeAppend(p + "\"", x);
    }
    assert ((ep + "\"") + ex) + rest == (ep + "\"") + (ex + rest);
    var y := "\"" + (ex + rest);
    assert ReadLiteral('"', y) == Some(([], ex + rest)) by {
      assert y[0] == '"' && y[1..] == ex + rest;
    }
    assert p + [] == p;
    ReadEscapedThen('"', p, "\"", ex + rest, [], ex + rest);
  }
}
