/** The project marker commands: a value quoted for a shell inside a command quoted for a shell. */
module Markers {
  import opened Options
  import opened ShellLexer
  import opened ShellQuoting

  const MARKER_FILENAME := ".ccsync-project"
  const PRESENT := "MARKER-PRESENT"
  const ABSENT := "MARKER-ABSENT"
  const UNREADABLE := "MARKER-UNREADABLE"
  const READ_RC := "9"
  const WRITTEN := "marker written: " + MARKER_FILENAME
  const SUDO_SH := "echo \"$SUDO_PW\" | " + "sudo -S -p \"\" sh -c "

  function MarkerPath(base: string): string {
    base + "/" + MARKER_FILENAME
  }

  lemma MarkerPathIs(base: string)
    ensures MarkerPath(base) == base + "/.ccsync-project"
  {
    assert "/" + MARKER_FILENAME == "/.ccsync-project";
    assert base + "/" + MARKER_FILENAME == base + ("/" + MARKER_FILENAME);
  }

  function WriteScript(path: string, payload: string): string {
    "printf '%s' " + ShellQuote(payload) + " > " + ShellQuote(path)
  }

  /** build_marker_write_cmd; `payload` is the marker's JSON. */
  function MarkerWriteCmd(base: string, payload: string): string {
    SUDO_SH + ShellQuote(WriteScript(MarkerPath(base), payload)) + " && echo \"" + WRITTEN + "\""
  }

  function ReadScript(path: string): string {
    "if [ -e " + ShellQuote(path) + " ]; then echo " + PRESENT + "; cat " + ShellQuote(path) + "; else echo "
        + ABSENT + "; fi"
  }

  /** build_marker_read_cmd */
  function MarkerReadCmd(base: string): string {
    SUDO_SH + ShellQuote(ReadScript(MarkerPath(base))) + " || { echo " + UNREADABLE + " >&2; exit " + READ_RC + "; }"
  }

  // ---- the same lines, assembled ----

  /** A word and the blank after it. */
  function Spaced(word: string, rest: Line): Line {
    Then(Plain(word), Then(Blank, rest))
  }

  /** Plain text with nothing in it to expand. */
  ghost predicate WordOk(word: string) {
    word != "" && !HasLive(word) && forall i :: 0 <= i < |word| ==> Ordinary(word[i])
  }

  lemma SpacedReads(word: string, rest: Line)
    requires WordOk(word)
    ensures Render(Spaced(word, rest)) == word + (" " + Render(rest))
    ensures LineOk(rest) ==> LineOk(Spaced(word, rest))
    ensures Meaning(Spaced(word, rest), Nothing) == [Word(word, false)] + Meaning(rest, Nothing)
  {
    var tail := Then(Blank, rest);
    assert Render(tail) == " " + Render(rest);
    assert Meaning(tail, Partial(word, false)) == [Word(word, false)] + Meaning(rest, Nothing);
  }

  function QuotedThenBlank(value: string, rest: Line): Line {
    Then(Quoted(value), Then(Blank, rest))
  }

  lemma QuotedThenBlankReads(value: string, rest: Line)
    ensures Render(QuotedThenBlank(value, rest)) == ShellQuote(value) + (" " + Render(rest))
    ensures LineOk(rest) ==> LineOk(QuotedThenBlank(value, rest))
    ensures Meaning(QuotedThenBlank(value, rest), Nothing) == [Word(value, false)] + Meaning(rest, Nothing)
  {
    var tail := Then(Blank, rest);
    assert Render(tail) == " " + Render(rest);
    assert Meaning(tail, Partial(value, false)) == [Word(value, false)] + Meaning(rest, Nothing);
  }

  function OpThenBlank(op: string, rest: Line): Line {
    Then(Op(op), Then(Blank, rest))
  }

  lemma OpThenBlankReads(op: string, rest: Line, p: Pending)
    requires OpOk(op, "")
    ensures Render(OpThenBlank(op, rest)) == op + (" " + Render(rest))
    ensures LineOk(rest) ==> LineOk(OpThenBlank(op, rest))
    ensures Meaning(OpThenBlank(op, rest), p) == Flush(p) + [Operator(op)] + Meaning(rest, Nothing)
  {
    var tail := Then(Blank, rest);
    assert Render(tail) == " " + Render(rest);
    assert Render(tail)[0] == ' ';
    assert Meaning(tail, Nothing) == Meaning(rest, Nothing);
  }

  function LastQuoted(value: string): Line {
    Then(Quoted(value), End)
  }

  lemma LastQuotedReads(value: string)
    ensures Render(LastQuoted(value)) == ShellQuote(value)
    ensures LineOk(LastQuoted(value))
    ensures Meaning(LastQuoted(value), Nothing) == [Word(value, false)]
  {
    hide ShellQuote;
    assert Meaning(End, Partial(value, false)) == [Word(value, false)];
  }

  lemma RedirectIsAnOperator()
    ensures OpOk(">", "")
  {
  }

  lemma WriteWordsOk()
    ensures WordOk("printf")
  {
  }

  function WriteLine(path: string, payload: string): Line {
    Spaced("printf", QuotedThenBlank("%s", QuotedThenBlank(payload, OpThenBlank(">", LastQuoted(path)))))
  }

  /** The inner shell: printf gets the payload, the output goes to the path, and nothing is expanded. */
  lemma WriteScriptReads(path: string, payload: string)
    ensures Tokens(WriteScript(path, payload)) ==
            Some([Word("printf", false), Word("%s", false), Word(payload, false), Operator(">"), Word(path, false)])
  {
    WriteWordsOk();
    hide LineOk, Meaning, Render, Show, ShellQuote, Lex;
    RedirectIsAnOperator();
    hide OpOk, Spaced, QuotedThenBlank, OpThenBlank, LastQuoted;
    var last := OpThenBlank(">", LastQuoted(path));
    var one := QuotedThenBlank(payload, last);
    var two := QuotedThenBlank("%s", one);
    LastQuotedReads(path);
    OpThenBlankReads(">", LastQuoted(path), Nothing);
    QuotedThenBlankReads(payload, last);
    QuotedThenBlankReads("%s", one);
    SpacedReads("printf", two);
    LineReads(WriteLine(path, payload), Nothing);
    PercentQuoted();
    WriteText(ShellQuote(payload), ShellQuote(path));
    assert Render(WriteLine(path, payload)) == WriteScript(path, payload);
    assert Meaning(WriteLine(path, payload), Nothing) ==
        [Word("printf", false), Word("%s", false), Word(payload, false), Operator(">"), Word(path, false)];
  }

  lemma PercentQuoted()
    ensures ShellQuote("%s") == "'%s'"
  {
    assert Escaped("%s") == "%s";
  }

  lemma WriteText(payload: string, path: string)
    ensures "printf" + (" " + ("'%s'" + (" " + (payload + (" " + (">" + (" " + path))))))) == "printf '%s' "
            + payload + " > " + path
  {
    assert "printf" + (" " + ("'%s'" + " ")) == "printf '%s' ";
    assert " " + (">" + " ") == " > ";
  }

  // ---- the outer line ----

  function InDoubleThenBlank(text: string, rest: Line): Line {
    Then(InDouble(text), Then(Blank, rest))
  }

  lemma InDoubleThenBlankReads(text: string, rest: Line)
    requires DoubleOk(text)
    ensures Render(InDoubleThenBlank(text, rest)) == "\"" + text + "\"" + (" " + Render(rest))
    ensures LineOk(rest) ==> LineOk(InDoubleThenBlank(text, rest))
    ensures Meaning(InDoubleThenBlank(text, rest), Nothing) == [Word(text, text != "" && text[0] == '$')]
            + Meaning(rest, Nothing)
  {
    var tail := Then(Blank, rest);
    var live := text != "" && text[0] == '$';
    assert Render(tail) == " " + Render(rest);
    assert Meaning(tail, Partial(text, live)) == [Word(text, live)] + Meaning(rest, Nothing);
  }

  const SUDO_SH_TOKENS := [
    Word("echo", false), Word("$SUDO_PW", true), Operator("|"), Word("sudo", false), Word("-S", false),
    Word("-p", false), Word("", false), Word("sh", false), Word("-c", false)]

  function SudoShLine(rest: Line): Line {
    Spaced("echo", InDoubleThenBlank("$SUDO_PW", OpThenBlank("|", SudoLine(rest))))
  }

  function SudoLine(rest: Line): Line {
    Spaced("sudo", Spaced("-S", Spaced("-p", InDoubleThenBlank("", Spaced("sh", Spaced("-c", rest))))))
  }

  lemma SudoWordsOk()
    ensures WordOk("echo") && WordOk("sudo") && WordOk("-S") && WordOk("-p") && WordOk("sh") && WordOk("-c")
  {
  }

  lemma PasswordVariableOk()
    ensures DoubleOk("$SUDO_PW") && DoubleOk("") && OpOk("|", "")
  {
  }

  lemma SudoReads(rest: Line)
    requires LineOk(rest)
    ensures LineOk(SudoLine(rest))
    ensures Render(SudoLine(rest)) == "sudo -S -p \"\" sh -c " + Render(rest)
    ensures Meaning(SudoLine(rest), Nothing) ==
            [Word("sudo", false), Word("-S", false), Word("-p", false), Word("", false), Word("sh", false),
                Word("-c", false)] + Meaning(rest, Nothing)
  {
    SudoWordsOk();
    PasswordVariableOk();
    hide LineOk, Meaning, Render, OpOk, DoubleOk, WordOk, Spaced, InDoubleThenBlank;
    var five := Spaced("-c", rest);
    var four := Spaced("sh", five);
    var three := InDoubleThenBlank("", four);
    var two := Spaced("-p", three);
    var one := Spaced("-S", two);
    SpacedReads("-c", rest);
    SpacedReads("sh", five);
    InDoubleThenBlankReads("", four);
    SpacedReads("-p", three);
    SpacedReads("-S", two);
    SpacedReads("sudo", one);
    SudoText(Render(rest));
  }

  lemma SudoText(rest: string)
    ensures "sudo" + (" " + ("-S" + (" "
            + ("-p" + (" " + ("\"" + "" + "\"" + (" " + ("sh" + (" " + ("-c" + (" " + rest)))))))))))
            == "sudo -S -p \"\" sh -c " + rest
  {
    assert "sudo" + (" " + ("-S" + (" " + ("-p" + " ")))) == "sudo -S -p ";
    assert "\"" + "" + "\"" + (" " + ("sh" + (" " + ("-c" + " ")))) == "\"\" sh -c ";
  }

  /** Up to the script, the outer line is a sudo shell fed the password variable. */
  lemma SudoShReads(rest: Line)
    requires LineOk(rest)
    ensures Tokens(SUDO_SH + Render(rest)) == Some(SUDO_SH_TOKENS + Meaning(rest, Nothing))
  {
    SudoWordsOk();
    PasswordVariableOk();
    hide LineOk, Meaning, Render, OpOk, DoubleOk, WordOk, Spaced, InDoubleThenBlank, OpThenBlank, SudoLine, Lex;
    var two := OpThenBlank("|", SudoLine(rest));
    var one := InDoubleThenBlank("$SUDO_PW", two);
    SudoReads(rest);
    OpThenBlankReads("|", SudoLine(rest), Nothing);
    InDoubleThenBlankReads("$SUDO_PW", two);
    SpacedReads("echo", one);
    LineReads(SudoShLine(rest), Nothing);
    SudoShText(Render(rest));
    assert Render(SudoShLine(rest)) == SUDO_SH + Render(rest);
    assert Meaning(SudoShLine(rest), Nothing) == SUDO_SH_TOKENS + Meaning(rest, Nothing);
  }

  lemma SudoShText(rest: string)
    ensures "echo" + (" " + ("\"" + "$SUDO_PW" + "\""
            + (" " + ("|" + (" " + ("sudo -S -p \"\" sh -c " + rest)))))) == SUDO_SH + rest
  {
    var quoted := "\"" + "$SUDO_PW" + "\"";
    assert quoted == "\"$SUDO_PW\"";
    assert "echo" + (" " + (quoted + (" " + ("|" + " ")))) == "echo \"$SUDO_PW\" | ";
    assert "echo \"$SUDO_PW\" | " + "sudo -S -p \"\" sh -c " == SUDO_SH;
  }

  // ---- the end of the write command ----

  function LastInDouble(text: string): Line {
    Then(InDouble(text), End)
  }

  lemma LastInDoubleReads(text: string)
    requires forall i :: 0 <= i < |text| ==> OrdinaryInDouble(text[i])
    ensures LineOk(LastInDouble(text))
    ensures Render(LastInDouble(text)) == "\"" + text + "\""
    ensures Meaning(LastInDouble(text), Nothing) == [Word(text, false)]
  {
    assert Meaning(End, Partial(text, false)) == [Word(text, false)];
  }

  function WrittenLine(script: string): Line {
    QuotedThenBlank(script, OpThenBlank("&&", Spaced("echo", LastInDouble(WRITTEN))))
  }

  lemma WrittenOk()
    ensures forall i :: 0 <= i < |WRITTEN| ==> OrdinaryInDouble(WRITTEN[i])
    ensures OpOk("&&", "")
  {
  }

  lemma WrittenReads(script: string)
    ensures LineOk(WrittenLine(script))
    ensures Render(WrittenLine(script)) == ShellQuote(script) + " && echo \"" + WRITTEN + "\""
    ensures Meaning(WrittenLine(script), Nothing) ==
            [Word(script, false), Operator("&&"), Word("echo", false), Word(WRITTEN, false)]
  {
    WrittenOk();
    SudoWordsOk();
    hide LineOk, Meaning, Render, OpOk, WordOk, Spaced, LastInDouble, OpThenBlank, QuotedThenBlank, ShellQuote,
        OrdinaryInDouble;
    var two := Spaced("echo", LastInDouble(WRITTEN));
    var one := OpThenBlank("&&", two);
    LastInDoubleReads(WRITTEN);
    SpacedReads("echo", LastInDouble(WRITTEN));
    OpThenBlankReads("&&", two, Nothing);
    QuotedThenBlankReads(script, one);
    WrittenText(ShellQuote(script), WRITTEN);
    assert Flush(Nothing) == [];
  }

  lemma WrittenText(script: string, text: string)
    ensures script + (" " + ("&&" + (" " + ("echo" + (" " + ("\"" + text + "\"")))))) == script + " && echo \""
            + text + "\""
  {
    assert " " + ("&&" + (" " + ("echo" + (" " + "\"")))) == " && echo \"";
  }

  lemma WrittenWords()
    ensures WRITTEN == "marker written: .ccsync-project"
  {
    assert WRITTEN == "marker written: " + ".ccsync-project";
  }

  /** The marker write survives two shells: the outer one hands `sh -c` the script as one word, and the
      inner one hands printf the exact payload and writes to the exact path. */
  lemma WriteTakesTwoParses(base: string, payload: string)
    ensures Tokens(MarkerWriteCmd(base, payload)) ==
            Some(SUDO_SH_TOKENS + [Word(WriteScript(base + "/.ccsync-project", payload), false), Operator("&&"),
                Word("echo", false), Word("marker written: .ccsync-project", false)])
    ensures Tokens(WriteScript(base + "/.ccsync-project", payload)) ==
            Some([Word("printf", false), Word("%s", false), Word(payload, false), Operator(">"),
                Word(base + "/.ccsync-project", false)])
  {
    var script := WriteScript(MarkerPath(base), payload);
    MarkerPathIs(base);
    WrittenWords();
    hide LineOk, Meaning, Render, Lex, ShellQuote, WrittenLine, Tokens, WriteScript, MarkerPath;
    WriteScriptReads(MarkerPath(base), payload);
    WrittenReads(script);
    SudoShReads(WrittenLine(script));
    assert MarkerWriteCmd(base, payload) == SUDO_SH + Render(WrittenLine(script));
  }

  // ---- the read command ----

  lemma BracketReads(rest: Line)
    ensures Render(Spaced("[", rest)) == "[" + (" " + Render(rest))
    ensures LineOk(rest) ==> LineOk(Spaced("[", rest))
    ensures Meaning(Spaced("[", rest), Nothing) == [Word("[", true)] + Meaning(rest, Nothing)
  {
    var tail := Then(Blank, rest);
    assert "["[0] == '[' && HasLive("[");
    assert Render(tail) == " " + Render(rest);
    assert Meaning(tail, Partial("[", true)) == [Word("[", true)] + Meaning(rest, Nothing);
  }

  /** A word, or a quoted value, with a semicolon after it. */
  function WordSemicolon(word: string, rest: Line): Line {
    Then(Plain(word), OpThenBlank(";", rest))
  }

  function QuotedSemicolon(value: string, rest: Line): Line {
    Then(Quoted(value), OpThenBlank(";", rest))
  }

  lemma SemicolonReads(rest: Line, p: Pending)
    ensures Render(OpThenBlank(";", rest)) == "; " + Render(rest)
    ensures LineOk(rest) ==> LineOk(OpThenBlank(";", rest))
    ensures Meaning(OpThenBlank(";", rest), p) == Flush(p) + [Operator(";")] + Meaning(rest, Nothing)
  {
    SemicolonIsAnOperator();
    hide Render, LineOk, Meaning, OpOk, OpThenBlank, Flush;
    OpThenBlankReads(";", rest, p);
    SemicolonText(Render(rest));
  }

  lemma SemicolonIsAnOperator()
    ensures OpOk(";", "")
  {
  }

  lemma SemicolonText(rest: string)
    ensures ";" + (" " + rest) == "; " + rest
  {
    assert ";" + " " == "; ";
  }

  lemma WordSemicolonReads(word: string, rest: Line)
    requires WordOk(word)
    ensures Render(WordSemicolon(word, rest)) == word + ("; " + Render(rest))
    ensures LineOk(rest) ==> LineOk(WordSemicolon(word, rest))
    ensures Meaning(WordSemicolon(word, rest), Nothing) == [Word(word, false), Operator(";")] + Meaning(rest, Nothing)
  {
    SemicolonReads(rest, Partial(word, false));
    hide OpThenBlank;
  }

  lemma QuotedSemicolonReads(value: string, rest: Line)
    ensures Render(QuotedSemicolon(value, rest)) == ShellQuote(value) + ("; " + Render(rest))
    ensures LineOk(rest) ==> LineOk(QuotedSemicolon(value, rest))
    ensures Meaning(QuotedSemicolon(value, rest), Nothing) == [Word(value, false), Operator(";")]
            + Meaning(rest, Nothing)
  {
    SemicolonReads(rest, Partial(value, false));
    hide OpThenBlank, ShellQuote;
  }

  lemma LastWordReads(word: string)
    requires WordOk(word)
    ensures Render(Then(Plain(word), End)) == word
    ensures LineOk(Then(Plain(word), End))
    ensures Meaning(Then(Plain(word), End), Nothing) == [Word(word, false)]
  {
    assert Meaning(End, Partial(word, false)) == [Word(word, false)];
  }

  lemma TestWordsOk()
    ensures WordOk("if") && WordOk("-e") && WordOk("]") && WordOk("then") && WordOk("cat") && WordOk("else")
            && WordOk("fi")
  {
  }

  lemma AnswerWordsOk()
    ensures WordOk(PRESENT) && WordOk(ABSENT)
  {
  }

  function ElseLine(): Line {
    Spaced("else", Spaced("echo", WordSemicolon(ABSENT, Then(Plain("fi"), End))))
  }

  function ThenLine(path: string): Line {
    Spaced("then", Spaced("echo", WordSemicolon(PRESENT, Spaced("cat", QuotedSemicolon(path, ElseLine())))))
  }

  function TestLine(path: string): Line {
    Spaced("if", Spaced("[", Spaced("-e", QuotedThenBlank(path, WordSemicolon("]", ThenLine(path))))))
  }

  const ELSE_TOKENS := [
    Word("else", false), Word("echo", false), Word("MARKER-ABSENT", false), Operator(";"), Word("fi", false)]

  lemma ElseReads()
    ensures LineOk(ElseLine())
    ensures Render(ElseLine()) == "else echo " + ABSENT + "; fi"
    ensures Meaning(ElseLine(), Nothing) == ELSE_TOKENS
  {
    TestWordsOk();
    AnswerWordsOk();
    SudoWordsOk();
    hide LineOk, Meaning, Render, WordOk, Spaced, WordSemicolon;
    var last := Then(Plain("fi"), End);
    var two := WordSemicolon(ABSENT, last);
    var one := Spaced("echo", two);
    LastWordReads("fi");
    WordSemicolonReads(ABSENT, last);
    SpacedReads("echo", two);
    SpacedReads("else", one);
    ElseText(ABSENT);
  }

  lemma ElseText(answer: string)
    ensures "else" + (" " + ("echo" + (" " + (answer + ("; " + "fi"))))) == "else echo " + answer + "; fi"
  {
    assert "else" + (" " + ("echo" + " ")) == "else echo ";
    assert "; " + "fi" == "; fi";
  }

  const READ_TOKENS := [
    Word("then", false), Word("echo", false), Word("MARKER-PRESENT", false), Operator(";"), Word("cat", false)]

  lemma ThenReads(path: string)
    ensures LineOk(ThenLine(path))
    ensures Render(ThenLine(path)) == "then echo " + PRESENT + "; cat " + ShellQuote(path) + "; else echo " + ABSENT
            + "; fi"
    ensures Meaning(ThenLine(path), Nothing) ==
            READ_TOKENS + [Word(path, false), Operator(";")] + ELSE_TOKENS
  {
    ElseReads();
    TestWordsOk();
    AnswerWordsOk();
    SudoWordsOk();
    hide LineOk, Meaning, Render, WordOk, Spaced, WordSemicolon, QuotedSemicolon, ShellQuote, ElseLine;
    var four := QuotedSemicolon(path, ElseLine());
    var three := Spaced("cat", four);
    var two := WordSemicolon(PRESENT, three);
    var one := Spaced("echo", two);
    QuotedSemicolonReads(path, ElseLine());
    SpacedReads("cat", four);
    WordSemicolonReads(PRESENT, three);
    SpacedReads("echo", two);
    SpacedReads("then", one);
    ThenText(PRESENT, ShellQuote(path), ABSENT);
  }

  lemma ThenText(answer: string, path: string, other: string)
    ensures "then" + (" " + ("echo" + (" "
            + (answer + ("; " + ("cat" + (" " + (path + ("; " + ("else echo " + other + "; fi"))))))))))
            == "then echo " + answer + "; cat " + path + "; else echo " + other + "; fi"
  {
    assert "then" + (" " + ("echo" + " ")) == "then echo ";
    assert "; " + ("cat" + " ") == "; cat ";
    assert "; " + "else echo " == "; else echo ";
  }

  /** The inner shell: the test and the cat get the exact path. */
  lemma ReadScriptReads(path: string)
    ensures Tokens(ReadScript(path)) ==
            Some([Word("if", false), Word("[", true), Word("-e", false), Word(path, false), Word("]", false),
                Operator(";")]
                 + (READ_TOKENS + [Word(path, false), Operator(";")] + ELSE_TOKENS))
  {
    ThenReads(path);
    TestWordsOk();
    hide LineOk, Meaning, Render, WordOk, Spaced, WordSemicolon, QuotedThenBlank, ShellQuote, ThenLine, Lex;
    var four := WordSemicolon("]", ThenLine(path));
    var three := QuotedThenBlank(path, four);
    var two := Spaced("-e", three);
    var one := Spaced("[", two);
    WordSemicolonReads("]", ThenLine(path));
    QuotedThenBlankReads(path, four);
    SpacedReads("-e", three);
    BracketReads(two);
    SpacedReads("if", one);
    LineReads(TestLine(path), Nothing);
    TestText(PRESENT, ShellQuote(path), ABSENT);
    assert Render(TestLine(path)) == ReadScript(path);
    assert Meaning(TestLine(path), Nothing) ==
           [Word("if", false), Word("[", true), Word("-e", false), Word(path, false), Word("]", false),
               Operator(";")] + Meaning(ThenLine(path), Nothing);
  }

  lemma TestText(answer: string, path: string, other: string)
    ensures "if" + (" " + ("[" + (" " + ("-e"
            + (" " + (path + (" " + ("]"
            + ("; " + ("then echo " + answer + "; cat " + path + "; else echo " + other + "; fi"))))))))))
            == "if [ -e " + path + " ]; then echo " + answer + "; cat " + path + "; else echo " + other + "; fi"
  {
    assert "if" + (" " + ("[" + (" " + ("-e" + " ")))) == "if [ -e ";
    assert " " + ("]" + ("; " + "then echo ")) == " ]; then echo ";
    var rest := answer + "; cat " + path + "; else echo " + other + "; fi";
    assert "then echo " + answer + "; cat " + path + "; else echo " + other + "; fi" == "then echo " + rest;
    assert "if [ -e " + path + " ]; then echo " + rest == "if [ -e " + path + " ]; then echo " + answer + "; cat "
        + path + "; else echo " + other + "; fi";
  }

  // ---- its outer line ----

  function RefusalLine(): Line {
    OpThenBlank("||", Spaced("{", Spaced("echo", Spaced(UNREADABLE, ToStderr(ExitLine())))))
  }

  function ToStderr(rest: Line): Line {
    Then(Op(">&"), WordSemicolon("2", rest))
  }

  function ExitLine(): Line {
    Spaced("exit", WordSemicolon(READ_RC, Then(Plain("}"), End)))
  }

  const REFUSAL_TOKENS := [
    Operator("||"), Word("{", false), Word("echo", false), Word("MARKER-UNREADABLE", false), Operator(">&"),
    Word("2", false), Operator(";"), Word("exit", false), Word("9", false), Operator(";"), Word("}", false)]

  lemma RefusalWordsOk()
    ensures WordOk("{") && WordOk(UNREADABLE) && WordOk("2") && WordOk("exit") && WordOk(READ_RC) && WordOk("}")
    ensures OpOk("||", "")
  {
  }

  lemma ToStderrReads(rest: Line)
    requires LineOk(rest) && WordOk("2")
    ensures LineOk(ToStderr(rest))
    ensures Render(ToStderr(rest)) == ">&2" + ("; " + Render(rest))
    ensures Meaning(ToStderr(rest), Nothing) == [Operator(">&"), Word("2", false), Operator(";")]
            + Meaning(rest, Nothing)
  {
    var tail := WordSemicolon("2", rest);
    hide WordSemicolon, WordOk, OpOk;
    WordSemicolonReads("2", rest);
    StderrOk("; " + Render(rest));
    assert LineOk(ToStderr(rest)) by { assert PieceOk(Op(">&"), Render(tail)); }
    assert Render(ToStderr(rest)) == ">&" + Render(tail);
  }

  lemma StderrOk(rest: string)
    ensures OpOk(">&", "2" + rest)
    ensures ">&" + ("2" + rest) == ">&2" + rest
  {
    assert ("2" + rest)[0] == '2';
    assert ">&" + "2" == ">&2";
  }

  lemma ExitReads()
    ensures LineOk(ExitLine())
    ensures Render(ExitLine()) == "exit" + (" " + (READ_RC + ("; " + "}")))
    ensures Meaning(ExitLine(), Nothing) == [Word("exit", false), Word(READ_RC, false), Operator(";"), Word("}", false)]
  {
    RefusalWordsOk();
    hide LineOk, Meaning, Render, WordOk, OpOk, Spaced, WordSemicolon;
    var last := Then(Plain("}"), End);
    LastWordReads("}");
    WordSemicolonReads(READ_RC, last);
    SpacedReads("exit", WordSemicolon(READ_RC, last));
  }

  lemma RefusalReads()
    ensures LineOk(RefusalLine())
    ensures Render(RefusalLine()) ==
            "||" + (" " + ("{" + (" " + ("echo"
                + (" " + (UNREADABLE + (" " + (">&2" + ("; " + ("exit" + (" " + (READ_RC + ("; " + "}")))))))))))))
    ensures Meaning(RefusalLine(), Nothing) == REFUSAL_TOKENS
  {
    ExitReads();
    RefusalWordsOk();
    SudoWordsOk();
    hide LineOk, Meaning, Render, WordOk, OpOk, Spaced, OpThenBlank, ToStderr, ExitLine;
    var three := Spaced(UNREADABLE, ToStderr(ExitLine()));
    var two := Spaced("echo", three);
    var one := Spaced("{", two);
    ToStderrReads(ExitLine());
    SpacedReads(UNREADABLE, ToStderr(ExitLine()));
    SpacedReads("echo", three);
    SpacedReads("{", two);
    OpThenBlankReads("||", one, Nothing);
    assert Flush(Nothing) == [];
  }

  lemma RefusalText(answer: string, code: string)
    ensures " " + ("||" + (" " + ("{" + (" "
            + ("echo" + (" " + (answer + (" " + (">&2; " + ("exit" + (" " + (code + ("; " + "}")))))))))))))
            == " || { echo " + answer + " >&2; exit " + code + "; }"
  {
    assert " " + ("||" + (" " + ("{" + (" " + ("echo" + " "))))) == " || { echo ";
    assert " " + (">&2" + ("; " + ("exit" + " "))) == " >&2; exit ";
    assert "; " + "}" == "; }";
  }

  lemma RefusalRenders()
    ensures LineOk(RefusalLine()) && Meaning(RefusalLine(), Nothing) == REFUSAL_TOKENS
    ensures " " + Render(RefusalLine()) == " || { echo " + UNREADABLE + " >&2; exit " + READ_RC + "; }"
  {
    RefusalReads();
    RefusalText(UNREADABLE, READ_RC);
    hide LineOk, Meaning, Render, RefusalLine;
  }

  /** The marker read survives two shells, and a failure of the first is a refusal of its own. */
  lemma ReadTakesTwoParses(base: string)
    ensures Tokens(MarkerReadCmd(base)) ==
            Some(SUDO_SH_TOKENS + ([Word(ReadScript(base + "/.ccsync-project"), false)] + REFUSAL_TOKENS))
    ensures Tokens(ReadScript(base + "/.ccsync-project")) ==
            Some([Word("if", false), Word("[", true), Word("-e", false), Word(base + "/.ccsync-project", false),
                Word("]", false), Operator(";")]
                 + (READ_TOKENS + [Word(base + "/.ccsync-project", false), Operator(";")] + ELSE_TOKENS))
  {
    var script := ReadScript(MarkerPath(base));
    MarkerPathIs(base);
    hide LineOk, Meaning, Render, Lex, ShellQuote, Tokens, ReadScript, QuotedThenBlank, RefusalLine, MarkerPath;
    ReadScriptReads(MarkerPath(base));
    RefusalRenders();
    var line := QuotedThenBlank(script, RefusalLine());
    QuotedThenBlankReads(script, RefusalLine());
    SudoShReads(line);
    assert MarkerReadCmd(base) == SUDO_SH + Render(line);
  }
}
