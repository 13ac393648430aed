// Quoting for sh -c against a lexer for the Shell Command Language of POSIX
// (IEEE Std 1003.1): section 2.3 (token recognition), 2.2.1 (backslash), 2.2.2
// (single quotes). The lexer refuses what the modelled commands do not use:
// double quotes, expansions, comments, and most redirections.
module Shell {
  import opened Basics

  // Words are given after quote removal.
  datatype Token = Word(text: string) | AndIf | OrIf | Pipe | Background | Semicolon | Newline | Redirect(c: char) | Paren(c: char)

  // ----- The printer -----

  // strings.ReplaceAll(s, "'", "'\\''").
  function EscapeQuotes(s: string): string {
    if s == "" then "" else (if s[0] == '\'' then "'\\''" else [s[0]]) + EscapeQuotes(s[1..])
  }

  function ShellQuote(s: string): string { "'" + EscapeQuotes(s) + "'" }

  // ----- The lexer -----

  // Between tokens, inside a word (with its text so far), or inside single quotes.
  datatype Mode = Between | InWord(text: string) | InQuotes(text: string)

  function Flush(mode: Mode): seq<Token> {
    match mode
    case InWord(text) => [Word(text)]
    case _ => []
  }

  function TextOf(mode: Mode): string {
    match mode
    case Between => ""
    case InWord(text) => text
    case InQuotes(text) => text
  }

  predicate IsBlank(c: char) { c == ' ' || c == '\t' }

  predicate Digits(text: string) { text != "" && forall i :: 0 <= i < |text| ==> '0' <= text[i] <= '9' }

  // The two-character operators that are not read here: ;; << <& <> >> >& >|
  predicate OtherOperator(s: string)
    requires s != ""
  {
    |s| > 1 && ((s[0] == ';' && s[1] == ';') || (s[0] == '<' && s[1] in {'<', '&', '>'})
                || (s[0] == '>' && s[1] in {'>', '&', '|'}))
  }

  // What is left to sections this lexer does not cover: expansions, comments, the
  // operators above, and a redirection of a numbered descriptor.
  predicate Unsupported(s: string, mode: Mode)
    requires s != ""
  {
    || s[0] in {'"', '$', '`'} || (s[0] == '#' && mode == Between)
    || OtherOperator(s)
    || (s[0] in {'<', '>'} && mode.InWord? && Digits(mode.text))
  }

  // Operators are taken greedily.
  function Operator(s: string): Option<(Token, nat)>
    requires s != ""
  {
    if s[0] == '&' then if |s| > 1 && s[1] == '&' then Some((AndIf, 2)) else Some((Background, 1))
    else if s[0] == '|' then if |s| > 1 && s[1] == '|' then Some((OrIf, 2)) else Some((Pipe, 1))
    else if s[0] == ';' then Some((Semicolon, 1))
    else if s[0] == '\n' then Some((Newline, 1))
    else if s[0] in {'<', '>'} then Some((Redirect(s[0]), 1))
    else if s[0] in {'(', ')'} then Some((Paren(s[0]), 1))
    else None
  }

  function Prepend(xs: seq<Token>, r: Option<seq<Token>>): Option<seq<Token>> {
    match r
    case Some(ys) => Some(xs + ys)
    case None => None
  }

  // None: an unterminated quote, a trailing backslash, or something unsupported.
  function Lex(s: string, mode: Mode): Option<seq<Token>>
    decreases |s|
  {
    if s == "" then if mode.InQuotes? then None else Some(Flush(mode))
    else if mode.InQuotes? then
      if s[0] == '\'' then Lex(s[1..], InWord(mode.text)) else Lex(s[1..], InQuotes(mode.text + [s[0]]))
    else if s[0] == '\'' then Lex(s[1..], InQuotes(TextOf(mode)))
    else if s[0] == '\\' then
      if |s| == 1 then None
      else if s[1] == '\n' then Lex(s[2..], mode)
      else Lex(s[2..], InWord(TextOf(mode) + [s[1]]))
    else if Unsupported(s, mode) then None
    else if IsBlank(s[0]) then Prepend(Flush(mode), Lex(s[1..], Between))
    else match Operator(s)
      case Some(op) => if op.1 <= |s| then Prepend(Flush(mode) + [op.0], Lex(s[op.1..], Between)) else None
      case None => Lex(s[1..], InWord(TextOf(mode) + [s[0]]))
  }

  function Tokens(s: string): Option<seq<Token>> { Lex(s, Between) }

  // ----- Round trip -----

  // Inside quotes, an escaped string followed by the closing quote comes back as
  // written, appended to the word so far.
  lemma {:induction false} EscapedRoundTrip(s: string, text: string, rest: string)
    ensures Lex(EscapeQuotes(s) + "'" + rest, InQuotes(text)) == Lex(rest, InWord(text + s))
    decreases |s|
  {
    if s == "" {
      assert EscapeQuotes(s) + "'" + rest == "'" + rest;
      assert ("'" + rest)[1..] == rest && text + s == text;
    } else {
      var tail := EscapeQuotes(s[1..]) + "'" + rest;
      EscapedRoundTrip(s[1..], text + [s[0]], rest);
      assert text + [s[0]] + s[1..] == text + s;
      if s[0] == '\'' {
        var q := "'\\''" + tail;
        assert EscapeQuotes(s) + "'" + rest == q;
        QuoteInQuotes(text, tail);
      } else {
        assert EscapeQuotes(s) + "'" + rest == [s[0]] + tail;
        assert ([s[0]] + tail)[1..] == tail;
      }
    }
  }

  // Close the quotes, escape one quote, open them again.
  lemma QuoteInQuotes(text: string, tail: string)
    ensures Lex("'\\''" + tail, InQuotes(text)) == Lex(tail, InQuotes(text + "'"))
  {
    var s := "'\\''" + tail;
    assert s[1..] == "\\''" + tail;
    assert ("\\''" + tail)[2..] == "'" + tail;
    assert ("'" + tail)[1..] == tail;
    assert Lex(s, InQuotes(text)) == Lex("\\''" + tail, InWord(text));
    assert Lex("\\''" + tail, InWord(text)) == Lex("'" + tail, InWord(text + "'"));
  }

  // A quoted string continues the current word by exactly its text.
  lemma QuotedContinuesWord(s: string, mode: Mode, rest: string)
    requires !mode.InQuotes?
    ensures Lex(ShellQuote(s) + rest, mode) == Lex(rest, InWord(TextOf(mode) + s))
  {
    var q := ShellQuote(s) + rest;
    assert q[1..] == EscapeQuotes(s) + "'" + rest;
    EscapedRoundTrip(s, TextOf(mode), rest);
  }

  // sh reads ShellQuote(s) as exactly one word equal to s.
  lemma QuotedIsOneWord(s: string)
    ensures Tokens(ShellQuote(s)) == Some([Word(s)])
  {
    assert ShellQuote(s) + "" == ShellQuote(s);
    QuotedContinuesWord(s, Between, "");
    assert "" + s == s;
  }

  // ----- Command lines of quoted arguments -----

  function QuotedLine(args: seq<string>): string {
    if args == [] then "" else " " + ShellQuote(args[0]) + QuotedLine(args[1..])
  }

  function Words(args: seq<string>): seq<Token> {
    if args == [] then [] else [Word(args[0])] + Words(args[1..])
  }

  // Any list of arguments survives quoting, spacing and lexing.
  lemma {:induction false} QuotedLineIsItsWords(args: seq<string>, mode: Mode)
    requires !mode.InQuotes?
    ensures Lex(QuotedLine(args), mode) == Some(Flush(mode) + Words(args))
    decreases |args|
  {
    if args == [] {
      assert Flush(mode) + Words(args) == Flush(mode);
    } else {
      var rest := QuotedLine(args[1..]);
      assert QuotedLine(args) == " " + (ShellQuote(args[0]) + rest);
      assert QuotedLine(args)[1..] == ShellQuote(args[0]) + rest;
      QuotedContinuesWord(args[0], Between, rest);
      assert "" + args[0] == args[0];
      QuotedLineIsItsWords(args[1..], InWord(args[0]));
      assert Lex(QuotedLine(args), mode) == Prepend(Flush(mode), Lex(ShellQuote(args[0]) + rest, Between));
    }
  }

  // ----- The crane init container -----

  datatype EnvVar = EnvVar(name: string, value: string)

  datatype Container = Container(name: string, command: seq<string>, env: seq<EnvVar>)

  function CraneCommand(ref: string, destPath: string): string {
    "mkdir -p " + ShellQuote(destPath) + " && crane export " + ShellQuote(ref)
    + " - | tar -xf - -C " + ShellQuote(destPath)
  }

  // mkdir -p <path> && crane export <ref> - | tar -xf - -C <path>, as tokens.
  function CraneTokens(ref: string, destPath: string): seq<Token> {
    [Word("mkdir"), Word("-p")]
    + ([Word(destPath), AndIf, Word("crane"), Word("export")]
       + ([Word(ref), Word("-"), Pipe]
          + ([Word("tar"), Word("-xf"), Word("-"), Word("-C")] + [Word(destPath)])))
  }

  // The branch without a pull secret.
  method BuildCraneInitContainer(name: string, ref: string, destPath: string) returns (c: Container)
    ensures c.name == name && |c.command| == 3 && c.command[0] == "sh" && c.command[1] == "-c"
    ensures Tokens(c.command[2]) == Some(CraneTokens(ref, destPath))
    ensures c.env == [EnvVar("HOME", "/tmp")]
  {
    var cmd := "mkdir -p " + ShellQuote(destPath) + " && crane export " + ShellQuote(ref)
               + " - | tar -xf - -C " + ShellQuote(destPath);
    CraneCommandLexes(ref, destPath);
    c := Container(name, ["sh", "-c", cmd], [EnvVar("HOME", "/tmp")]);
  }

  // A plain word followed by a blank is read as itself.
  predicate Plain(w: string) {
    forall c :: c in w ==> !IsBlank(c) && c !in {'\'', '\\', '"', '$', '`', '#', '&', '|', ';', '\n', '<', '>', '(', ')'}
  }

  lemma {:induction false} PlainContinuesWord(w: string, mode: Mode, rest: string)
    requires Plain(w) && w != "" && !mode.InQuotes?
    ensures Lex(w + rest, mode) == Lex(rest, InWord(TextOf(mode) + w))
    decreases |w|
  {
    var s := w + rest;
    assert w[0] in w;
    assert s[1..] == w[1..] + rest;
    assert Operator(s) == None;
    if |w| == 1 {
      assert w[1..] + rest == rest && TextOf(mode) + [w[0]] == TextOf(mode) + w;
    } else {
      PlainContinuesWord(w[1..], InWord(TextOf(mode) + [w[0]]), rest);
      assert TextOf(mode) + [w[0]] + w[1..] == TextOf(mode) + w;
    }
  }

  // ... so from between tokens it makes one token, and lexing goes on behind the blank.
  lemma PlainWord(w: string, rest: string)
    requires Plain(w) && w != ""
    ensures Lex(w + " " + rest, Between) == Prepend([Word(w)], Lex(rest, Between))
  {
    PlainContinuesWord(w, Between, " " + rest);
    assert w + " " + rest == w + (" " + rest) && (" " + rest)[1..] == rest;
    assert "" + w == w;
  }

  lemma OperatorWord(op: string, t: Token, rest: string)
    requires (op == "&&" && t == AndIf) || (op == "|" && t == Pipe)
    ensures Lex(op + " " + rest, Between) == Prepend([t], Lex(rest, Between))
  {
    var s := op + " " + rest;
    assert s[|op|..] == " " + rest && (" " + rest)[1..] == rest;
    assert Operator(s) == Some((t, |op|));
    PrependNothing(Lex(rest, Between));
    assert Lex(" " + rest, Between) == Lex(rest, Between);
    assert [] + [t] == [t];
  }

  // A blank ends the word so far.
  lemma BlankEndsWord(text: string, rest: string)
    ensures Lex(" " + rest, InWord(text)) == Prepend([Word(text)], Lex(rest, Between))
  {
    assert (" " + rest)[1..] == rest;
  }

  lemma PrependNothing(r: Option<seq<Token>>)
    ensures Prepend([], r) == r
  {
    if r.Some? {
      assert [] + r.value == r.value;
    }
  }

  lemma MkdirPart(rest: string)
    ensures Lex("mkdir -p " + rest, Between) == Prepend([Word("mkdir")], Prepend([Word("-p")], Lex(rest, Between)))
  {
    assert "mkdir -p " + rest == "mkdir" + " " + ("-p" + " " + rest);
    PlainWord("mkdir", "-p" + " " + rest);
    PlainWord("-p", rest);
  }

  lemma ExportPart(text: string, rest: string)
    ensures Lex(" && crane export " + rest, InWord(text))
         == Prepend([Word(text)], Prepend([AndIf], Prepend([Word("crane")], Prepend([Word("export")], Lex(rest, Between)))))
  {
    var s1 := "crane export " + rest;
    assert " && crane export " + rest == " " + ("&&" + " " + s1);
    BlankEndsWord(text, "&&" + " " + s1);
    OperatorWord("&&", AndIf, s1);
    CranePart(rest);
  }

  lemma CranePart(rest: string)
    ensures Lex("crane export " + rest, Between) == Prepend([Word("crane")], Prepend([Word("export")], Lex(rest, Between)))
  {
    var s2 := "export" + " " + rest;
    assert "crane export " + rest == "crane" + " " + s2;
    PlainWord("crane", s2);
    PlainWord("export", rest);
  }

  lemma PipePart(text: string, rest: string)
    ensures Lex(" - | " + rest, InWord(text))
         == Prepend([Word(text)], Prepend([Word("-")], Prepend([Pipe], Lex(rest, Between))))
  {
    var s1 := "|" + " " + rest;
    assert " - | " + rest == " " + ("-" + " " + s1);
    BlankEndsWord(text, "-" + " " + s1);
    PlainWord("-", s1);
    OperatorWord("|", Pipe, rest);
  }

  lemma TarPart(rest: string)
    ensures Lex("tar -xf - -C " + rest, Between)
         == Prepend([Word("tar")], Prepend([Word("-xf")], Prepend([Word("-")], Prepend([Word("-C")], Lex(rest, Between)))))
  {
    var s5 := "-C" + " " + rest;
    var s4 := "-" + " " + s5;
    var s3 := "-xf" + " " + s4;
    assert "tar -xf - -C " + rest == "tar" + " " + s3;
    PlainWord("tar", s3);
    PlainWord("-xf", s4);
    PlainWord("-", s5);
    PlainWord("-C", rest);
  }

  // The whole command lexes to the intended tokens, whatever the path and the
  // image reference contain.
  lemma CraneCommandLexes(ref: string, destPath: string)
    ensures Tokens(CraneCommand(ref, destPath)) == Some(CraneTokens(ref, destPath))
  {
    var d, r := ShellQuote(destPath), ShellQuote(ref);
    var s3 := "tar -xf - -C " + d;
    var s2 := " - | " + s3;
    var s1 := " && crane export " + (r + s2);
    CraneCommandParts(d, r);
    MkdirPart(d + s1);
    QuotedContinuesWord(destPath, Between, s1);
    assert "" + destPath == destPath && "" + ref == ref;
    ExportPart(destPath, r + s2);
    QuotedContinuesWord(ref, Between, s2);
    PipePart(ref, s3);
    TarPart(d);
    QuotedIsOneWord(destPath);
    Flatten4(Word("tar"), Word("-xf"), Word("-"), Word("-C"), [Word(destPath)]);
    var tar := [Word("tar"), Word("-xf"), Word("-"), Word("-C")] + [Word(destPath)];
    Flatten3(Word(ref), Word("-"), Pipe, tar);
    var pipe := [Word(ref), Word("-"), Pipe] + tar;
    Flatten4(Word(destPath), AndIf, Word("crane"), Word("export"), pipe);
    var exports := [Word(destPath), AndIf, Word("crane"), Word("export")] + pipe;
    Flatten2(Word("mkdir"), Word("-p"), exports);
  }

  lemma CraneCommandParts(d: string, r: string)
    ensures "mkdir -p " + d + " && crane export " + r + " - | tar -xf - -C " + d
         == "mkdir -p " + (d + (" && crane export " + (r + (" - | " + ("tar -xf - -C " + d)))))
  {
    assert " - | tar -xf - -C " == " - | " + "tar -xf - -C ";
    Associate("mkdir -p ", d, " && crane export ", r, " - | ", "tar -xf - -C ", d);
  }

  lemma Associate(a: string, b: string, c: string, d: string, e: string, f: string, g: string)
    ensures a + b + c + d + (e + f) + g == a + (b + (c + (d + (e + (f + g)))))
  {
  }

  lemma Flatten2(a: Token, b: Token, xs: seq<Token>)
    ensures Prepend([a], Prepend([b], Some(xs))) == Some([a, b] + xs)
  {
    assert [a] + ([b] + xs) == [a, b] + xs;
  }

  lemma Flatten3(a: Token, b: Token, c: Token, xs: seq<Token>)
    ensures Prepend([a], Prepend([b], Prepend([c], Some(xs)))) == Some([a, b, c] + xs)
  {
    assert [a] + ([b] + ([c] + xs)) == [a, b, c] + xs;
  }

  lemma Flatten4(a: Token, b: Token, c: Token, d: Token, xs: seq<Token>)
    ensures Prepend([a], Prepend([b], Prepend([c], Prepend([d], Some(xs))))) == Some([a, b, c, d] + xs)
  {
    assert [a] + ([b] + ([c] + ([d] + xs))) == [a, b, c, d] + xs;
  }
}
