/** Quoting for a POSIX shell, against the shell's own reading of a command line (IEEE Std 1003.1,
    Shell Command Language, sections 2.2 and 2.3). */
module ShellLexer {
  import opened Options

  /** `live` marks a word holding a character the shell may expand. */
  datatype Token = Word(text: string, live: bool) | Operator(text: string)

  datatype Mode = Bare | Single | Double

  /** The word being read, if one has begun. */
  datatype Pending = Nothing | Partial(text: string, live: bool)

  function Stick(p: Pending, text: string, live: bool): Pending {
    match p
    case Nothing => Partial(text, live)
    case Partial(before, was) => Partial(before + text, was || live)
  }

  function Flush(p: Pending): seq<Token> {
    if p.Nothing? then [] else [Word(p.text, p.live)]
  }

  function Prepend(tokens: seq<Token>, rest: Option<seq<Token>>): Option<seq<Token>> {
    if rest.None? then None else Some(tokens + rest.value)
  }

  predicate IsOperatorChar(c: char) {
    c == '|' || c == '&' || c == ';' || c == '<' || c == '>' || c == '(' || c == ')' || c == '\n'
  }

  predicate IsPair(c: char, d: char) {
    || (c == d && (c == '&' || c == '|' || c == ';' || c == '<' || c == '>'))
    || (c == '<' && (d == '&' || d == '>'))
    || (c == '>' && (d == '&' || d == '|'))
  }

  function OperatorLength(s: string): (n: nat)
    requires s != ""
    ensures 1 <= n <= |s|
  {
    if |s| > 1 && IsPair(s[0], s[1]) then 2 else 1
  }

  predicate Expands(c: char) {
    c == '$' || c == '*' || c == '?' || c == '[' || c == '~'
  }

  /** A dollar sign that opens more than a plain parameter name. */
  predicate OpensMore(s: string)
    requires s != ""
  {
    s[0] == '$' && |s| > 1 && (s[1] == '(' || s[1] == '{' || s[1] == '\'')
  }

  /** The tokens of a command line. None: a quote is left open, or the line holds a command
      substitution, a braced parameter or a comment, which this reader does not follow. */
  function Lex(s: string, mode: Mode, p: Pending): Option<seq<Token>>
    decreases |s|
  {
    match mode
    case Single =>
      if s == "" then None
      else if s[0] == '\'' then Lex(s[1..], Bare, p)
      else Lex(s[1..], Single, Stick(p, [s[0]], false))
    case Double =>
      if s == "" || s[0] == '`' || OpensMore(s) then None
      else if s[0] == '"' then Lex(s[1..], Bare, p)
      else if s[0] == '\\' && |s| > 1 && (s[1] == '$' || s[1] == '`' || s[1] == '"' || s[1] == '\\') then
        Lex(s[2..], Double, Stick(p, [s[1]], false))
      else if s[0] == '\\' && |s| > 1 && s[1] == '\n' then Lex(s[2..], Double, p)
      else Lex(s[1..], Double, Stick(p, [s[0]], s[0] == '$'))
    case Bare =>
      if s == "" then Some(Flush(p))
      else if s[0] == '\'' then Lex(s[1..], Single, Stick(p, "", false))
      else if s[0] == '"' then Lex(s[1..], Double, Stick(p, "", false))
      else if s[0] == '\\' then
        if |s| == 1 then None
        else if s[1] == '\n' then Lex(s[2..], Bare, p)
        else Lex(s[2..], Bare, Stick(p, [s[1]], false))
      else if s[0] == ' ' || s[0] == '\t' then Prepend(Flush(p), Lex(s[1..], Bare, Nothing))
      else if IsOperatorChar(s[0]) then
        var n := OperatorLength(s);
        Prepend(Flush(p) + [Operator(s[..n])], Lex(s[n..], Bare, Nothing))
      else if s[0] == '`' || OpensMore(s) || (s[0] == '#' && p.Nothing?) then None
      else Lex(s[1..], Bare, Stick(p, [s[0]], Expands(s[0])))
  }

  /** What the shell makes of a whole line. */
  function Tokens(line: string): Option<seq<Token>> {
    Lex(line, Bare, Nothing)
  }
}

module ShellQuoting {
  import opened Options
  import opened ShellLexer

  function Escaped(value: string): string {
    if value == "" then "" else (if value[0] == '\'' then "'\\''" else [value[0]]) + Escaped(value[1..])
  }

  /** shell_quote */
  function ShellQuote(value: string): string {
    "'" + Escaped(value) + "'"
  }

  /** Inside single quotes, the escaped value reads as the value, up to and including the closing quote. */
  lemma {:induction false} EscapedReads(value: string, rest: string, p: Pending)
    requires p.Partial?
    ensures Lex(Escaped(value) + "'" + rest, Single, p) == Lex(rest, Bare, Stick(p, value, false))
  {
    var s := Escaped(value) + "'" + rest;
    if value == "" {
      assert s == "'" + rest;
      assert s[1..] == rest;
      assert Stick(p, value, false) == p;
    } else {
      var tail := Escaped(value[1..]) + "'" + rest;
      var q := Stick(p, [value[0]], false);
      EscapedReads(value[1..], rest, q);
      assert p.text + [value[0]] + value[1..] == p.text + value;
      if value[0] == '\'' {
        QuoteReads(tail, p);
        assert s == "'\\''" + tail;
      } else {
        assert s == [value[0]] + tail;
        assert s[1..] == tail;
      }
    }
  }

  /** Out of the quotes, a protected quote, and back in. */
  lemma QuoteReads(tail: string, p: Pending)
    requires p.Partial?
    ensures Lex("'\\''" + tail, Single, p) == Lex(tail, Single, Stick(p, "'", false))
  {
    var s := "'\\''" + tail;
    var t := "\\''" + tail;
    var u := "'" + tail;
    assert s[1..] == t && t[2..] == u && u[1..] == tail;
    assert t[0] == '\\' && t[1] == '\'' && u[0] == '\'';
    assert Lex(s, Single, p) == Lex(t, Bare, p);
    assert Lex(t, Bare, p) == Lex(u, Bare, Stick(p, "'", false));
    assert p.text + "'" + "" == p.text + "'";
  }

  /** Wherever a quoted value stands outside quotes, it adds exactly the value to the word being read. */
  lemma QuotedReads(value: string, rest: string, p: Pending)
    ensures Lex(ShellQuote(value) + rest, Bare, p) == Lex(rest, Bare, Stick(p, value, false))
  {
    var s := ShellQuote(value) + rest;
    assert s[0] == '\'' && s[1..] == Escaped(value) + "'" + rest;
    EscapedReads(value, rest, Stick(p, "", false));
    assert "" + value == value;
    if p.Partial? {
      assert p.text + "" + value == p.text + value;
    }
  }

  /** A quoted value is one word, equal to the value, with nothing in it to expand. */
  lemma QuoteRoundTrip(value: string)
    ensures Tokens(ShellQuote(value)) == Some([Word(value, false)])
  {
    QuotedReads(value, "", Nothing);
    assert ShellQuote(value) + "" == ShellQuote(value);
  }

  // ---- command lines assembled from fixed text and quoted values ----

  /** Plain text, a value passed through shell_quote, text in double quotes, a blank, an operator. */
  datatype Piece = Plain(text: string) | Quoted(value: string) | InDouble(text: string) | Blank | Op(text: string)

  datatype Line = End | Then(first: Piece, rest: Line)

  function Show(piece: Piece): string {
    match piece
    case Plain(text) => text
    case Quoted(value) => ShellQuote(value)
    case InDouble(text) => "\"" + text + "\""
    case Blank => " "
    case Op(text) => text
  }

  function Render(line: Line): string {
    match line
    case End => ""
    case Then(first, rest) => Show(first) + Render(rest)
  }

  predicate Ordinary(c: char) {
    !IsOperatorChar(c) && c != '\'' && c != '"' && c != '\\' && c != ' ' && c != '\t' && c != '`' && c != '$'
        && c != '#'
  }

  predicate OrdinaryInDouble(c: char) {
    c != '"' && c != '\\' && c != '`' && c != '$'
  }

  /** A parameter name in double quotes, or plain text there. */
  predicate DoubleOk(text: string) {
    || (forall i :: 0 <= i < |text| ==> OrdinaryInDouble(text[i]))
    || (|text| > 1 && text[0] == '$' && text[1] != '(' && text[1] != '{' && text[1] != '\''
        && forall i :: 1 <= i < |text| ==> OrdinaryInDouble(text[i]))
  }

  predicate OpOk(text: string, next: string) {
    && (next != "" ==> !IsOperatorChar(next[0]))
    && ((|text| == 1 && IsOperatorChar(text[0]))
        || (|text| == 2 && IsOperatorChar(text[0]) && IsPair(text[0], text[1])))
  }

  predicate PieceOk(piece: Piece, next: string) {
    match piece
    case Plain(text) => text != "" && forall i :: 0 <= i < |text| ==> Ordinary(text[i])
    case Quoted(_) => true
    case InDouble(text) => DoubleOk(text)
    case Blank => true
    case Op(text) => OpOk(text, next)
  }

  predicate LineOk(line: Line) {
    line.Then? ==> PieceOk(line.first, Render(line.rest)) && LineOk(line.rest)
  }

  function HasLive(text: string): bool {
    exists i :: 0 <= i < |text| && Expands(text[i])
  }

  /** What a line means, piece by piece: every quoted value is part of a word as it is. */
  function Meaning(line: Line, p: Pending): seq<Token> {
    match line
    case End => Flush(p)
    case Then(Plain(text), rest) => Meaning(rest, Stick(p, text, HasLive(text)))
    case Then(Quoted(value), rest) => Meaning(rest, Stick(p, value, false))
    case Then(InDouble(text), rest) => Meaning(rest, Stick(p, text, text != "" && text[0] == '$'))
    case Then(Blank, rest) => Flush(p) + Meaning(rest, Nothing)
    case Then(Op(text), rest) => Flush(p) + [Operator(text)] + Meaning(rest, Nothing)
  }

  lemma {:induction false} PlainReads(text: string, next: string, p: Pending)
    requires text != "" && forall i :: 0 <= i < |text| ==> Ordinary(text[i])
    ensures Lex(text + next, Bare, p) == Lex(next, Bare, Stick(p, text, HasLive(text)))
  {
    var s := text + next;
    var q := Stick(p, [text[0]], Expands(text[0]));
    assert s[1..] == text[1..] + next;
    assert Lex(s, Bare, p) == Lex(s[1..], Bare, q);
    if |text| == 1 {
      assert text == [text[0]] && text[1..] + next == next;
    } else {
      PlainReads(text[1..], next, q);
      LiveSplits(text);
      StickTwice(p, text, Expands(text[0]), HasLive(text[1..]));
    }
  }

  lemma LiveSplits(text: string)
    requires text != ""
    ensures HasLive(text) <==> Expands(text[0]) || HasLive(text[1..])
  {
    if HasLive(text[1..]) {
      var i :| 0 <= i < |text[1..]| && Expands(text[1..][i]);
      assert Expands(text[i + 1]);
    }
    if i :| 0 < i < |text| && Expands(text[i]) {
      assert text[1..][i - 1] == text[i];
    }
  }

  lemma StickTwice(p: Pending, text: string, one: bool, more: bool)
    requires text != ""
    ensures Stick(Stick(p, [text[0]], one), text[1..], more) == Stick(p, text, one || more)
  {
    assert [text[0]] + text[1..] == text;
    if p.Partial? {
      assert p.text + [text[0]] + text[1..] == p.text + text;
    }
  }

  lemma {:induction false} DoubleReads(text: string, next: string, p: Pending)
    requires p.Partial? && forall i :: 0 <= i < |text| ==> OrdinaryInDouble(text[i])
    ensures Lex(text + "\"" + next, Double, p) == Lex(next, Bare, Stick(p, text, false))
  {
    var s := text + "\"" + next;
    if text == "" {
      assert s == "\"" + next;
      assert s[1..] == next;
      assert Stick(p, text, false) == p;
    } else {
      assert s[1..] == text[1..] + "\"" + next;
      DoubleReads(text[1..], next, Stick(p, [text[0]], false));
      StickTwice(p, text, false, false);
    }
  }

  lemma InDoubleReads(text: string, next: string, p: Pending)
    requires DoubleOk(text)
    ensures Lex("\"" + text + "\"" + next, Bare, p) == Lex(next, Bare, Stick(p, text, text != "" && text[0] == '$'))
  {
    var s := "\"" + text + "\"" + next;
    var inside := text + "\"" + next;
    assert s[0] == '"' && s[1..] == inside;
    var q := Stick(p, "", false);
    assert Lex(s, Bare, p) == Lex(inside, Double, q);
    StickNothing(p, text);
    if text != "" && text[0] == '$' {
      assert inside[1] == text[1];
      assert inside[1..] == text[1..] + "\"" + next;
      DoubleReads(text[1..], next, Stick(q, "$", true));
      assert [text[0]] == "$";
      StickTwice(q, text, true, false);
    } else {
      DoubleReads(text, next, q);
    }
  }

  lemma StickNothing(p: Pending, text: string)
    ensures forall live :: Stick(Stick(p, "", false), text, live) == Stick(p, text, live)
  {
    assert "" + text == text;
    if p.Partial? {
      assert p.text + "" + text == p.text + text;
    }
  }

  lemma OpReads(text: string, next: string, p: Pending)
    requires OpOk(text, next)
    ensures Lex(text + next, Bare, p) == Prepend(Flush(p) + [Operator(text)], Lex(next, Bare, Nothing))
  {
    var s := text + next;
    assert s[..|text|] == text && s[|text|..] == next;
    if |text| == 1 && next != "" {
      assert s[1] == next[0];
    }
  }

  /** Every line assembled this way is read as exactly what was assembled. */
  lemma {:induction false} LineReads(line: Line, p: Pending)
    requires LineOk(line)
    ensures Lex(Render(line), Bare, p) == Some(Meaning(line, p))
  {
    match line
    case End =>
    case Then(piece, rest) =>
      var next := Render(rest);
      match piece
      case Plain(text) =>
        PlainReads(text, next, p);
        LineReads(rest, Stick(p, text, HasLive(text)));
      case Quoted(value) =>
        QuotedReads(value, next, p);
        LineReads(rest, Stick(p, value, false));
      case InDouble(text) =>
        InDoubleReads(text, next, p);
        LineReads(rest, Stick(p, text, text != "" && text[0] == '$'));
      case Blank =>
        assert (" " + next)[1..] == next;
        LineReads(rest, Nothing);
      case Op(text) =>
        OpReads(text, next, p);
        LineReads(rest, Nothing);
  }
}
