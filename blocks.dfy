/** The per-block emitters: each maps a block's parameters and an indent to
    the Ren'Py lines for that block, every line ending in a newline. A
    required parameter that is blank gives no output; missing optional
    parameters fall back to fixed defaults; optional clauses follow in a
    fixed order.

    Each emitter reads its parameters with `Param` and hands the stripped
    strings to a line builder over plain strings; the builders' contracts
    describe the line. */
module GeneratorBlocks {
  import opened Wrappers
  import opened Seqs
  import opened Text
  import opened Numeric
  import opened Model
  import opened GeneratorUtils

  /** `block.params.get(key, default).strip()`. */
  function Param(b: Block, key: string, default: string): string {
    Strip(GetStr(b.params, key, default))
  }

  /** The output is empty or a sequence of whole lines. */
  predicate Terminated(r: string) {
    r == "" || r[|r| - 1] == '\n'
  }

  lemma TerminatedAppend(a: string, b: string)
    requires Terminated(a) && Terminated(b)
    ensures Terminated(a + b)
  {
    if b != "" {
      assert (a + b)[|a + b| - 1] == b[|b| - 1];
    } else {
      assert a + b == a;
    }
  }

  /** An optional clause: the separator (such as `" at "`) and the value,
      absent when the value is blank. */
  function Clause(sep: string, v: string): string {
    if v == "" then "" else sep + v
  }

  /** `if v: line += f"{sep}{v}"`: the line followed by the clause. */
  function AddClause(line: string, sep: string, v: string): (r: string)
    ensures r == line + Clause(sep, v)
  {
    if v != "" then line + (sep + v) else line
  }

  /** A double-quoted Ren'Py string holding `text`: the `\"{text}\"` of the
      emitters' format strings after `escape_text`. */
  function Quoted(text: string): string {
    "\"" + EscapeText(text) + "\""
  }

  /** The quoted text reads back as the text, and text without double
      quotes is written unchanged between the quotes. */
  lemma QuotedReadsBack(text: string)
    ensures Unescape(Quoted(text)[1..|Quoted(text)| - 1]) == text
    ensures '"' !in text ==> Quoted(text) == "\"" + text + "\""
  {
    assert Quoted(text)[1..|Quoted(text)| - 1] == EscapeText(text);
    UnescapeEscape(text);
    EscapeTextLength(text);
  }

  /** `generate_label(scene)`: the scene's label line. */
  function GenerateLabel(scene: Scene): (r: string)
    reads scene
    ensures Terminated(r)
  {
    "label " + scene.sceneLabel + ":\n"
  }

  // ---------------------------------------------------------------------
  // Dialogue and text

  /** The attributes `generate_say` collects after the quoted text. */
  function SayAttrs(atPos: string, withTrans: string): seq<string> {
    (if atPos != "" then ["at " + atPos] else []) + (if withTrans != "" then ["with " + withTrans] else [])
  }

  /** `" " + " ".join(attrs)` is the `at` clause followed by the `with`
      clause. */
  lemma SayAttrsClauses(atPos: string, withTrans: string)
    ensures SayAttrs(atPos, withTrans) == [] <==> atPos == "" && withTrans == ""
    ensures SayAttrs(atPos, withTrans) != [] ==>
      " " + Join(SayAttrs(atPos, withTrans), ' ') == Clause(" at ", atPos) + Clause(" with ", withTrans)
  {
    var attrs := SayAttrs(atPos, withTrans);
    if atPos != "" && withTrans != "" {
      assert attrs == ["at " + atPos, "with " + withTrans];
      assert Join(attrs, ' ') == "at " + atPos + " " + "with " + withTrans;
    } else if atPos != "" {
      assert attrs == ["at " + atPos];
    } else if withTrans != "" {
      assert attrs == ["with " + withTrans];
    }
  }

  /** The line of `generate_say` for stripped parameters: nothing for blank
      text, and otherwise whole lines. */
  function SayLine(who: string, expression: string, text: string, atPos: string, withTrans: string,
                   indent: string): (r: string)
    ensures r == "" <==> text == ""
    ensures Terminated(r)
  {
    if text == "" then ""
    else if who != "" then
      var speaker := if expression != "" then who + (" " + expression) else who;
      var attrs := SayAttrs(atPos, withTrans);
      var result := indent + speaker + " " + Quoted(text);
      (if attrs != [] then result + (" " + Join(attrs, ' ')) else result) + "\n"
    else
      indent + Quoted(text) + "\n"
  }

  /** A say line with text is the speaker with its expression, the quoted
      text, then `at` before `with`. Without a speaker only the quoted text
      is written and both clauses are dropped. */
  lemma SayLineShape(who: string, expression: string, text: string, atPos: string, withTrans: string,
                     indent: string)
    requires text != ""
    ensures who == "" ==> SayLine(who, expression, text, atPos, withTrans, indent) == indent + Quoted(text) + "\n"
    ensures who != "" ==>
      (SayLine(who, expression, text, atPos, withTrans, indent)
         == indent + who + Clause(" ", expression) + " " + Quoted(text)
           + Clause(" at ", atPos) + Clause(" with ", withTrans) + "\n")
  {
    if who != "" {
      var speaker := if expression != "" then who + (" " + expression) else who;
      assert speaker == who + Clause(" ", expression);
      AppendAssoc(indent, who, Clause(" ", expression));
      var result := indent + speaker + " " + Quoted(text);
      assert SayLine(who, expression, text, atPos, withTrans, indent)
        == (if SayAttrs(atPos, withTrans) != [] then result + (" " + Join(SayAttrs(atPos, withTrans), ' ')) else result)
          + "\n";
      SayLineClauses(result, atPos, withTrans);
    }
  }

  lemma SayLineClauses(result: string, atPos: string, withTrans: string)
    ensures (if SayAttrs(atPos, withTrans) != [] then result + (" " + Join(SayAttrs(atPos, withTrans), ' ')) else result)
      == result + Clause(" at ", atPos) + Clause(" with ", withTrans)
  {
    SayAttrsClauses(atPos, withTrans);
    AppendAssoc(result, Clause(" at ", atPos), Clause(" with ", withTrans));
  }

  /** `generate_say`. */
  function GenerateSay(b: Block, indent: string): (r: string)
    ensures r == "" <==> Param(b, "text", "") == ""
    ensures Terminated(r)
  {
    SayLine(Param(b, "who", ""), Param(b, "expression", ""), Param(b, "text", ""),
            Param(b, "at", ""), Param(b, "with_transition", ""), indent)
  }

  /** The line of `generate_narration`: the quoted text, then an optional
      `with`. */
  function NarrationLine(text: string, withTrans: string, indent: string): (r: string)
    ensures r == "" <==> text == ""
    ensures Terminated(r)
  {
    if text == "" then ""
    else if withTrans != "" then indent + Quoted(text) + (" with " + withTrans) + "\n"
    else indent + Quoted(text) + "\n"
  }

  /** Narration with text is the quoted text, then an optional `with`. */
  lemma NarrationLineShape(text: string, withTrans: string, indent: string)
    requires text != ""
    ensures NarrationLine(text, withTrans, indent) == indent + Quoted(text) + Clause(" with ", withTrans) + "\n"
  {
  }

  /** `generate_narration`. */
  function GenerateNarration(b: Block, indent: string): (r: string)
    ensures r == "" <==> Param(b, "text", "") == ""
    ensures Terminated(r)
  {
    NarrationLine(Param(b, "text", ""), Param(b, "with_transition", ""), indent)
  }

  /** The line of `generate_center`. */
  function CenterLine(text: string, indent: string): (r: string)
    ensures r == "" <==> text == ""
    ensures Terminated(r)
  {
    if text == "" then "" else indent + "centered " + Quoted(text) + "\n"
  }

  lemma CenterLineShape(text: string, indent: string)
    requires text != ""
    ensures CenterLine(text, indent) == indent + "centered " + Quoted(text) + "\n"
  {
  }

  /** `generate_center`. */
  function GenerateCenter(b: Block, indent: string): (r: string)
    ensures r == "" <==> Param(b, "text", "") == ""
    ensures Terminated(r)
  {
    CenterLine(Param(b, "text", ""), indent)
  }

  /** The line of `generate_text`: the quoted text, then `xpos` before
      `ypos`. */
  function TextLine(text: string, xpos: string, ypos: string, indent: string): (r: string)
    ensures r == "" <==> text == ""
    ensures Terminated(r)
  {
    if text == "" then ""
    else
      var line0 := indent + "text " + Quoted(text);
      var line1 := if xpos != "" then line0 + (" xpos " + xpos) else line0;
      var line2 := if ypos != "" then line1 + (" ypos " + ypos) else line1;
      line2 + "\n"
  }

  /** A text line is the quoted text, then `xpos` before `ypos`. */
  lemma TextLineShape(text: string, xpos: string, ypos: string, indent: string)
    requires text != ""
    ensures TextLine(text, xpos, ypos, indent)
      == indent + "text " + Quoted(text) + Clause(" xpos ", xpos) + Clause(" ypos ", ypos) + "\n"
  {
  }

  /** `generate_text`. */
  function GenerateText(b: Block, indent: string): (r: string)
    ensures r == "" <==> Param(b, "text", "") == ""
    ensures Terminated(r)
  {
    TextLine(Param(b, "text", ""), Param(b, "xpos", ""), Param(b, "ypos", ""), indent)
  }

  // ---------------------------------------------------------------------
  // Menus

  /** A choice given as a plain string falls back to comma-separated pieces:
      each non-blank piece becomes a choice with that text and no jump. */
  function FallbackChoices(pieces: seq<string>): (r: seq<Value>)
    ensures |r| <= |pieces|
    ensures forall i :: 0 <= i < |r| ==>
      (r[i].Dict? && "text" in r[i].entries && r[i].entries["text"].Str?
       && Strip(r[i].entries["text"].s) != "")
  {
    if pieces == [] then []
    else
      var c := pieces[|pieces| - 1];
      var r := FallbackChoices(pieces[..|pieces| - 1]);
      if Strip(c) != "" then
        StripIdempotent(c);
        r + [FallbackChoice(Strip(c))]
      else r
  }

  /** The choice made of one comma-separated piece: its text and an empty
      jump. */
  function FallbackChoice(text: string): (v: Value)
    ensures v.Dict? && "text" in v.entries && v.entries["text"] == Str(text)
  {
    Dict(map["text" := Str(text), "jump" := Str("")])
  }

  /** The choices of a menu block: a list is used as it is, a string takes the
      comma-separated fallback, anything else gives no choices. */
  function ChoiceValues(b: Block): seq<Value> {
    if "choices" !in b.params then []
    else match b.params["choices"]
      case List(items) => items
      case Str(s) => FallbackChoices(Split(s, ','))
      case _ => []
  }

  function ChoiceText(c: Value): string {
    match c
    case Dict(d) => Strip(GetStr(d, "text", ""))
    case Str(s) => Strip(s)
    case _ => ""
  }

  function ChoiceJump(c: Value): string {
    if c.Dict? then Strip(GetStr(c.entries, "jump", "")) else ""
  }

  function ChoiceCondition(c: Value): string {
    if c.Dict? then Strip(GetStr(c.entries, "condition", "")) else ""
  }

  /** The lines of one menu choice for its stripped text, jump and
      condition: none for blank text; otherwise two, or three with a
      condition, the last being `jump <target>` or `pass`. */
  function ChoiceBlock(text: string, jump: string, condition: string, indent: string): (r: seq<string>)
    ensures text == "" ==> r == []
    ensures text != "" ==> |r| == (if condition != "" then 3 else 2)
    ensures text != "" ==>
      (r[|r| - 1] == indent + INDENT + INDENT + (if jump != "" then "jump " + jump else "pass") + "\n")
    ensures text != "" && condition != "" ==>
      (r[0] == indent + INDENT + "if " + condition + ":\n"
       && r[1] == indent + INDENT + INDENT + Quoted(text) + ":\n")
    ensures text != "" && condition == "" ==> r[0] == indent + INDENT + Quoted(text) + ":\n"
    ensures forall i :: 0 <= i < |r| ==> Terminated(r[i])
  {
    if text == "" then []
    else
      var head :=
        if condition != "" then
          [indent + INDENT + "if " + condition + ":\n", indent + INDENT + INDENT + Quoted(text) + ":\n"]
        else [indent + INDENT + Quoted(text) + ":\n"];
      head + (if jump != "" then [indent + INDENT + INDENT + "jump " + jump + "\n"]
              else [indent + INDENT + INDENT + "pass\n"])
  }

  /** The lines of one choice of a menu block. */
  function ChoiceLines(c: Value, indent: string): seq<string> {
    ChoiceBlock(ChoiceText(c), ChoiceJump(c), ChoiceCondition(c), indent)
  }

  /** The lines of all the choices, in order. */
  function ChoicesLines(cs: seq<Value>, indent: string): seq<string> {
    FlatMap(cs, ChoiceLinesAt(indent))
  }

  function ChoiceLinesAt(indent: string): Value -> seq<string> {
    (c: Value) => ChoiceLines(c, indent)
  }

  lemma ChoicesLinesSnoc(cs: seq<Value>, c: Value, indent: string)
    ensures ChoicesLines(cs + [c], indent) == ChoicesLines(cs, indent) + ChoiceLines(c, indent)
  {
    assert (cs + [c])[..|cs|] == cs;
  }

  function HasText(c: Value): bool { ChoiceText(c) != "" }

  /** Choices with blank text contribute nothing: the menu is the same as
      for the choices that have text. */
  lemma BlankChoicesSkipped(cs: seq<Value>, indent: string)
    ensures ChoicesLines(cs, indent) == ChoicesLines(Filter(cs, HasText), indent)
  {
    FlatMapFilter(cs, ChoiceLinesAt(indent), HasText);
  }

  /** The question line, when the stripped question is not blank. */
  function QuestionLines(question: string, indent: string): (r: seq<string>)
    ensures |r| == (if question != "" then 1 else 0)
  {
    if question != "" then [indent + Quoted(question) + "\n"] else []
  }

  /** The lines `generate_menu` collects for the stripped question and the
      choices. */
  function MenuLines(question: string, choices: seq<Value>, indent: string): seq<string> {
    QuestionLines(question, indent) + [indent + "menu:\n"] + ChoicesLines(choices, indent)
  }

  /** `generate_menu`, as the text of its lines. */
  function MenuText(b: Block, indent: string): (r: string)
    ensures Terminated(r)
  {
    MenuTerminated(Param(b, "question", ""), ChoiceValues(b), indent);
    Concat(MenuLines(Param(b, "question", ""), ChoiceValues(b), indent))
  }

  /** A menu always has its `menu:` line, preceded by the question line
      exactly when the question is not blank, and followed by the lines of
      the choices. */
  lemma MenuShape(question: string, choices: seq<Value>, indent: string)
    ensures var q := if question != "" then 1 else 0;
      && MenuLines(question, choices, indent)[q] == indent + "menu:\n"
      && (q == 1 ==> MenuLines(question, choices, indent)[0] == indent + Quoted(question) + "\n")
      && MenuLines(question, choices, indent)[q + 1..] == ChoicesLines(choices, indent)
  {
  }

  /** The body of the choice loop of `generate_menu` for one choice with
      non-blank text: the optional condition line, the quoted choice and its
      jump or `pass`. */
  method AppendChoice(lines: seq<string>, text: string, jump: string, condition: string, indent: string)
    returns (out: seq<string>)
    requires text != ""
    ensures out == lines + ChoiceBlock(text, jump, condition, indent)
  {
    var block: seq<string> := [];
    if condition != "" {
      block := block + [indent + INDENT + "if " + condition + ":\n"];
      block := block + [indent + INDENT + INDENT + Quoted(text) + ":\n"];
    } else {
      block := block + [indent + INDENT + Quoted(text) + ":\n"];
    }
    if jump != "" {
      block := block + [indent + INDENT + INDENT + "jump " + jump + "\n"];
    } else {
      block := block + [indent + INDENT + INDENT + "pass\n"];
    }
    out := lines + block;
  }

  /** The choice loop of `generate_menu`: choices with blank text are
      skipped, the lines of the others are appended in order. */
  method AppendChoices(lines: seq<string>, choices: seq<Value>, indent: string) returns (out: seq<string>)
    ensures out == lines + ChoicesLines(choices, indent)
  {
    out := lines;
    var i := 0;
    while i < |choices|
      invariant 0 <= i <= |choices|
      invariant out == lines + ChoicesLines(choices[..i], indent)
    {
      var choice := choices[i];
      ChoicesLinesSnoc(choices[..i], choice, indent);
      TakeSnoc(choices, i);
      AppendAssoc(lines, ChoicesLines(choices[..i], indent), ChoiceLines(choice, indent));
      var text := ChoiceText(choice);
      if text != "" {
        out := AppendChoice(out, text, ChoiceJump(choice), ChoiceCondition(choice), indent);
      } else {
        assert out == out + ChoiceLines(choice, indent);
      }
      i := i + 1;
    }
    assert choices[..|choices|] == choices;
  }

  /** `generate_menu`. */
  method GenerateMenu(b: Block, indent: string) returns (r: string)
    ensures r == MenuText(b, indent)
  {
    var lines: seq<string> := [];
    var question := Param(b, "question", "");
    if question != "" {
      lines := lines + [indent + Quoted(question) + "\n"];
    }
    lines := lines + [indent + "menu:\n"];
    assert lines == QuestionLines(question, indent) + [indent + "menu:\n"];
    lines := AppendChoices(lines, ChoiceValues(b), indent);
    r := Concat(lines);
  }

  // ---------------------------------------------------------------------
  // Indented bodies: if, while, for, python

  /** One piece of a body: a non-blank piece gets the prefix and a newline,
      a blank one becomes a bare newline. */
  function IndentLine(line: string, prefix: string): string {
    if Blank(line) then "\n" else prefix + line + "\n"
  }

  /** The lines of a body, one per piece of `body.split('\n')`. */
  function IndentBody(body: string, prefix: string): (r: seq<string>)
    ensures |r| == Count('\n', body) + 1
  {
    SplitLength(body, '\n');
    Map(Split(body, '\n'), (line: string) => IndentLine(line, prefix))
  }

  /** Removes the prefix and the newline of a non-blank body line again. */
  function Dedent(line: string, prefix: string): string {
    if |line| >= |prefix| + 1 then line[|prefix|..|line| - 1] else ""
  }

  /** A body without blank pieces can be read back from its lines: removing
      the prefix and newline of each and joining with newlines gives the
      body again. */
  lemma IndentBodyReadsBack(body: string, prefix: string)
    requires forall i :: 0 <= i < |Split(body, '\n')| ==> !Blank(Split(body, '\n')[i])
    ensures Join(Map(IndentBody(body, prefix), (line: string) => Dedent(line, prefix)), '\n') == body
  {
    var pieces := Split(body, '\n');
    var lines := IndentBody(body, prefix);
    var back := Map(lines, (line: string) => Dedent(line, prefix));
    forall i | 0 <= i < |lines|
      ensures back[i] == pieces[i]
    {
      assert lines[i] == prefix + pieces[i] + "\n";
    }
    assert back == pieces;
    JoinSplit(body, '\n');
  }

  /** `lines.append` of every body line, in order. */
  method AppendBody(lines: seq<string>, body: string, prefix: string) returns (out: seq<string>)
    ensures out == lines + IndentBody(body, prefix)
  {
    out := lines;
    var pieces := Split(body, '\n');
    var f := (line: string) => IndentLine(line, prefix);
    var i := 0;
    while i < |pieces|
      invariant 0 <= i <= |pieces|
      invariant out == lines + Map(pieces[..i], f)
    {
      var line := pieces[i];
      MapSnoc(pieces[..i], line, f);
      TakeSnoc(pieces, i);
      out := AppendLine(out, line, prefix);
      i := i + 1;
    }
    assert pieces[..|pieces|] == pieces;
  }

  /** One iteration of the body loop: a line that is not blank after
      `strip()` is written after the prefix, a blank one as an empty line. */
  method AppendLine(lines: seq<string>, line: string, prefix: string) returns (out: seq<string>)
    ensures out == lines + [IndentLine(line, prefix)]
  {
    StripEmptyIffBlank(line);
    if Strip(line) != "" {
      out := lines + [prefix + line + "\n"];
    } else {
      out := lines + ["\n"];
    }
  }

  /** A rendered body, or a single `pass` line when it is empty. */
  function BodyOrPass(body: string, prefix: string): seq<string> {
    if body != "" then IndentBody(body, prefix) else [prefix + "pass\n"]
  }

  /** The lines `generate_if` collects for a stripped condition. */
  function IfLines(condition: string, indent: string, trueBranch: string, falseBranch: string): seq<string> {
    if condition == "" then []
    else
      [indent + "if " + condition + ":\n"]
      + BodyOrPass(trueBranch, indent + INDENT)
      + (if falseBranch != "" then [indent + "else:\n"] + IndentBody(falseBranch, indent + INDENT) else [])
  }

  /** `generate_if`, as the text of its lines. */
  function IfText(b: Block, indent: string, trueBranch: string, falseBranch: string): string {
    Concat(IfLines(Param(b, "condition", ""), indent, trueBranch, falseBranch))
  }

  /** A concatenation of lines whose first line is not empty is not empty. */
  lemma ConcatNonEmpty(lines: seq<string>)
    requires lines != [] && lines[0] != ""
    ensures Concat(lines) != ""
  {
    ConcatAppend([lines[0]], lines[1..]);
    assert [lines[0]] + lines[1..] == lines;
    assert Concat([lines[0]]) == lines[0] by {
      assert [lines[0]][..0] == [];
    }
  }

  /** A body line one level deeper than `indent`, or a blank line, is never
      the `else:` line at `indent`. */
  lemma IndentLineIsNotElse(line: string, indent: string)
    ensures IndentLine(line, indent + INDENT) != indent + "else:\n"
  {
    var e := indent + "else:\n";
    assert e[|indent|] == 'e';
    if !Blank(line) {
      var l := indent + INDENT + line + "\n";
      assert l[|indent|] == ' ';
    }
  }

  lemma BodyLineIsNotElse(body: string, indent: string)
    ensures indent + "else:\n" !in BodyOrPass(body, indent + INDENT)
  {
    var lines := BodyOrPass(body, indent + INDENT);
    var e := indent + "else:\n";
    assert e[|indent|] == 'e';
    if body != "" {
      forall k | 0 <= k < |lines| ensures lines[k] != e {
        IndentLineIsNotElse(Split(body, '\n')[k], indent);
      }
    } else {
      assert lines[0][|indent|] == ' ';
    }
  }

  /** `generate_if` for a stripped condition: nothing for a blank one;
      otherwise the `if` line, the true body or a single `pass` line, and an
      `else:` line exactly when there is a false body. */
  lemma IfShape(condition: string, indent: string, trueBranch: string, falseBranch: string)
    ensures Concat(IfLines(condition, indent, trueBranch, falseBranch)) == "" <==> condition == ""
    ensures condition != "" ==>
      var lines := IfLines(condition, indent, trueBranch, falseBranch);
      && lines[0] == indent + "if " + condition + ":\n"
      && (trueBranch == "" ==> lines[1] == indent + INDENT + "pass\n")
      && (trueBranch == "" && falseBranch == "" ==> |lines| == 2)
      && (indent + "else:\n" in lines <==> falseBranch != "")
  {
    var lines := IfLines(condition, indent, trueBranch, falseBranch);
    if condition != "" {
      ConcatNonEmpty(lines);
      var e := indent + "else:\n";
      var header := indent + "if " + condition + ":\n";
      var first := BodyOrPass(trueBranch, indent + INDENT);
      assert header != e by {
        assert header[|indent|] == 'i';
        assert e[|indent|] == 'e';
      }
      BodyLineIsNotElse(trueBranch, indent);
      if falseBranch != "" {
        assert lines[1 + |first|] == e;
      } else {
        assert lines == [header] + first;
      }
    }
  }

  /** The body of a compound statement, or `pass` when it is empty. */
  method AppendBodyOrPass(lines: seq<string>, body: string, prefix: string) returns (out: seq<string>)
    ensures out == lines + BodyOrPass(body, prefix)
  {
    if body != "" {
      out := AppendBody(lines, body, prefix);
    } else {
      out := lines + [prefix + "pass\n"];
    }
  }

  /** `generate_if`. */
  method GenerateIf(b: Block, indent: string, trueBranch: string, falseBranch: string) returns (r: string)
    ensures r == IfText(b, indent, trueBranch, falseBranch)
  {
    var condition := Param(b, "condition", "");
    if condition == "" {
      return "";
    }
    var lines := [indent + "if " + condition + ":\n"];
    lines := AppendBodyOrPass(lines, trueBranch, indent + INDENT);
    ghost var afterTrue := lines;
    if falseBranch != "" {
      lines := lines + [indent + "else:\n"];
      lines := AppendBody(lines, falseBranch, indent + INDENT);
      AppendAssoc(afterTrue, [indent + "else:\n"], IndentBody(falseBranch, indent + INDENT));
    } else {
      assert lines == afterTrue + [];
    }
    r := Concat(lines);
  }

  /** The lines `generate_while` collects for a stripped condition. */
  function WhileLines(condition: string, indent: string, body: string): seq<string> {
    if condition == "" then [] else [indent + "while " + condition + ":\n"] + BodyOrPass(body, indent + INDENT)
  }

  /** `generate_while`, as the text of its lines. */
  function WhileText(b: Block, indent: string, body: string): string {
    Concat(WhileLines(Param(b, "condition", ""), indent, body))
  }

  /** `generate_while`. */
  method GenerateWhile(b: Block, indent: string, body: string) returns (r: string)
    ensures r == WhileText(b, indent, body)
  {
    var condition := Param(b, "condition", "");
    if condition == "" {
      return "";
    }
    var lines := [indent + "while " + condition + ":\n"];
    lines := AppendBodyOrPass(lines, body, indent + INDENT);
    r := Concat(lines);
  }

  /** The lines `generate_for` collects for the stripped variable and
      iterable. */
  function ForLines(variable: string, iterable: string, indent: string, body: string): seq<string> {
    if variable == "" || iterable == "" then []
    else [indent + "for " + variable + " in " + iterable + ":\n"] + BodyOrPass(body, indent + INDENT)
  }

  /** `generate_for`, as the text of its lines. */
  function ForText(b: Block, indent: string, body: string): string {
    Concat(ForLines(Param(b, "variable", ""), Param(b, "iterable", ""), indent, body))
  }

  /** `generate_for`. */
  method GenerateFor(b: Block, indent: string, body: string) returns (r: string)
    ensures r == ForText(b, indent, body)
  {
    var variable := Param(b, "variable", "");
    var iterable := Param(b, "iterable", "");
    if variable == "" || iterable == "" {
      return "";
    }
    var lines := [indent + "for " + variable + " in " + iterable + ":\n"];
    lines := AppendBodyOrPass(lines, body, indent + INDENT);
    r := Concat(lines);
  }

  /** `generate_while` and `generate_for`: nothing when the header's
      parameters are blank; otherwise the header line followed by the body
      lines, or a single `pass` line for an empty body. */
  lemma LoopShape(condition: string, variable: string, iterable: string, indent: string, body: string)
    ensures Concat(WhileLines(condition, indent, body)) == "" <==> condition == ""
    ensures Concat(ForLines(variable, iterable, indent, body)) == "" <==> variable == "" || iterable == ""
    ensures condition != "" ==>
      (WhileLines(condition, indent, body)[0] == indent + "while " + condition + ":\n"
       && WhileLines(condition, indent, body)[1..] == BodyOrPass(body, indent + INDENT))
    ensures variable != "" && iterable != "" ==>
      (ForLines(variable, iterable, indent, body)[0] == indent + "for " + variable + " in " + iterable + ":\n"
       && ForLines(variable, iterable, indent, body)[1..] == BodyOrPass(body, indent + INDENT))
    ensures body == "" && condition != "" ==> |WhileLines(condition, indent, body)| == 2
  {
    if condition != "" {
      ConcatNonEmpty(WhileLines(condition, indent, body));
    }
    if variable != "" && iterable != "" {
      ConcatNonEmpty(ForLines(variable, iterable, indent, body));
    }
  }

  /** The lines `generate_python` collects for the stripped code. */
  function PythonLines(code: string, indent: string): seq<string> {
    if code == "" then [] else [indent + "python:\n"] + IndentBody(code, indent + INDENT)
  }

  /** `generate_python`, as the text of its lines. */
  function PythonText(b: Block, indent: string): (r: string)
    ensures Terminated(r)
  {
    PythonTerminated(Param(b, "code", ""), indent);
    Concat(PythonLines(Param(b, "code", ""), indent))
  }

  /** `generate_python`: nothing for blank code; otherwise `python:` and one
      line per line of the code. */
  lemma PythonShape(code: string, indent: string)
    ensures Concat(PythonLines(code, indent)) == "" <==> code == ""
    ensures code != "" ==>
      (PythonLines(code, indent)[0] == indent + "python:\n"
       && |PythonLines(code, indent)| == Count('\n', code) + 2)
  {
    if code != "" {
      ConcatNonEmpty(PythonLines(code, indent));
    }
  }

  /** `generate_python`. */
  method GeneratePython(b: Block, indent: string) returns (r: string)
    ensures r == PythonText(b, indent)
  {
    var code := Param(b, "code", "");
    if code == "" {
      return "";
    }
    var lines := [indent + "python:\n"];
    lines := AppendBody(lines, code, indent + INDENT);
    r := Concat(lines);
  }

  // ---------------------------------------------------------------------
  // Flow

  /** `generate_jump`. */
  function GenerateJump(b: Block, indent: string): (r: string)
    ensures r == "" <==> Param(b, "target", "") == ""
    ensures r != "" ==> r == indent + "jump " + Param(b, "target", "") + "\n"
    ensures Terminated(r)
  {
    var target := Param(b, "target", "");
    if target == "" then "" else indent + "jump " + target + "\n"
  }

  /** `generate_call`. */
  function GenerateCall(b: Block, indent: string): (r: string)
    ensures r == "" <==> Param(b, "label", "") == ""
    ensures r != "" ==> r == indent + "call " + Param(b, "label", "") + "\n"
    ensures Terminated(r)
  {
    var target := Param(b, "label", "");
    if target == "" then "" else indent + "call " + target + "\n"
  }

  /** `generate_return`: always one line, whatever the parameters. */
  function GenerateReturn(b: Block, indent: string): (r: string)
    ensures r == indent + "return\n"
  {
    indent + "return\n"
  }

  // ---------------------------------------------------------------------
  // Staging

  /** The line of `generate_scene` for the stripped background, layer and
      transition: a blank background becomes `black`; `onlayer` comes
      before `with`. */
  function SceneLine(bg: string, layer: string, trans: string, indent: string): (r: string)
    ensures Terminated(r)
  {
    var bg0 := if bg == "" then "black" else bg;
    var bg1 := if layer != "" then bg0 + (" onlayer " + layer) else bg0;
    var line0 := indent + "scene " + bg1;
    var line1 := if trans != "" then line0 + (" with " + trans) else line0;
    line1 + "\n"
  }

  /** A blank background becomes `black`; `onlayer` comes before `with`. */
  lemma SceneLineShape(bg: string, layer: string, trans: string, indent: string)
    ensures SceneLine(bg, layer, trans, indent) == indent + "scene " + (if bg == "" then "black" else bg)
      + Clause(" onlayer ", layer) + Clause(" with ", trans) + "\n"
  {
  }

  /** `generate_scene`: the background parameter defaults to `black`. */
  function GenerateScene(b: Block, indent: string): (r: string)
    ensures Terminated(r)
  {
    SceneLine(Param(b, "background", "black"), Param(b, "layer", ""), Param(b, "transition", ""), indent)
  }

  /** A scene block without a `background` parameter shows `black`. */
  lemma SceneBackgroundDefault(b: Block)
    requires "background" !in b.params
    ensures Param(b, "background", "black") == "black"
  {
    StripUnchanged("black");
  }

  /** The line of `generate_show`: the image name and expression, then the
      clauses `at`, `behind`, `zorder`, `onlayer`, `with` in this order. */
  function ShowLine(image: string, expr: string, at: string, behind: string, zorder: string, layer: string,
                    trans: string, indent: string): (r: string)
    ensures r == "" <==> image == ""
    ensures Terminated(r)
  {
    if image == "" then ""
    else
      var parts := [image] + (if expr != "" then [expr] else []);
      var line0 := indent + "show " + Join(parts, ' ');
      var line1 := AddClause(line0, " at ", at);
      var line2 := AddClause(line1, " behind ", behind);
      var line3 := AddClause(line2, " zorder ", zorder);
      var line4 := AddClause(line3, " onlayer ", layer);
      var line5 := AddClause(line4, " with ", trans);
      line5 + "\n"
  }

  /** A show line is the image name and expression, then the clauses `at`,
      `behind`, `zorder`, `onlayer`, `with` in this order. */
  lemma ShowLineShape(image: string, expr: string, at: string, behind: string, zorder: string, layer: string,
                      trans: string, indent: string)
    requires image != ""
    ensures ShowLine(image, expr, at, behind, zorder, layer, trans, indent)
      == indent + "show " + image + Clause(" ", expr)
         + Clause(" at ", at) + Clause(" behind ", behind) + Clause(" zorder ", zorder)
         + Clause(" onlayer ", layer) + Clause(" with ", trans) + "\n"
  {
    var parts := [image] + (if expr != "" then [expr] else []);
    assert Join(parts, ' ') == image + Clause(" ", expr) by {
      if expr != "" {
        assert parts == [image, expr];
      }
    }
    AppendAssoc(indent + "show ", image, Clause(" ", expr));
  }

  /** `generate_show`. */
  function GenerateShow(b: Block, indent: string): (r: string)
    ensures r == "" <==> Param(b, "character", "") == ""
    ensures Terminated(r)
  {
    ShowLine(Param(b, "character", ""), Param(b, "expression", ""), Param(b, "at", ""),
             Param(b, "behind", ""), Param(b, "zorder", ""), Param(b, "layer", ""),
             Param(b, "transition", ""), indent)
  }

  /** The line of `generate_hide`: the image name, then `onlayer` before
      `with`. */
  function HideLine(image: string, layer: string, trans: string, indent: string): (r: string)
    ensures r == "" <==> image == ""
    ensures Terminated(r)
  {
    if image == "" then ""
    else
      var line0 := indent + "hide " + image;
      var line1 := if layer != "" then line0 + (" onlayer " + layer) else line0;
      var line2 := if trans != "" then line1 + (" with " + trans) else line1;
      line2 + "\n"
  }

  /** A hide line is the image name, then `onlayer` before `with`. */
  lemma HideLineShape(image: string, layer: string, trans: string, indent: string)
    requires image != ""
    ensures HideLine(image, layer, trans, indent)
      == indent + "hide " + image + Clause(" onlayer ", layer) + Clause(" with ", trans) + "\n"
  {
  }

  /** `generate_hide`. */
  function GenerateHide(b: Block, indent: string): (r: string)
    ensures r == "" <==> Param(b, "character", "") == ""
    ensures Terminated(r)
  {
    HideLine(Param(b, "character", ""), Param(b, "layer", ""), Param(b, "transition", ""), indent)
  }

  /** `generate_image`: both the name and the path are required. */
  function GenerateImage(b: Block, indent: string): (r: string)
    ensures r == "" <==> Param(b, "name", "") == "" || Param(b, "path", "") == ""
    ensures r != "" ==> r == indent + "image " + Param(b, "name", "") + " = \"" + Param(b, "path", "") + "\"\n"
    ensures Terminated(r)
  {
    var name := Param(b, "name", "");
    var path := Param(b, "path", "");
    if name == "" || path == "" then "" else indent + "image " + name + " = \"" + path + "\"\n"
  }

  /** The line of `generate_pause` for the unstripped duration: the duration
      itself when `float` accepts it, and `1.0` otherwise. */
  function PauseLine(duration: string, indent: string): (r: string)
    ensures Terminated(r)
  {
    if IsNumeric(duration) then indent + "$ renpy.pause(" + duration + ")\n"
    else indent + "$ renpy.pause(1.0)\n"
  }

  /** The duration itself when `float` accepts it, and `1.0` otherwise. */
  lemma PauseLineShape(duration: string, indent: string)
    ensures IsNumeric(duration) ==> PauseLine(duration, indent) == indent + "$ renpy.pause(" + duration + ")\n"
    ensures !IsNumeric(duration) ==> PauseLine(duration, indent) == indent + "$ renpy.pause(1.0)\n"
  {
  }

  /** `generate_pause`: the duration parameter defaults to `1.0`. */
  function GeneratePause(b: Block, indent: string): (r: string)
    ensures Terminated(r)
  {
    PauseLine(GetStr(b.params, "duration", "1.0"), indent)
  }

  /** `generate_transition` and `generate_with`: the transition defaults to
      `dissolve` when missing or blank. */
  function TransitionName(b: Block): (r: string)
    ensures r != ""
    ensures Param(b, "transition", "dissolve") != "" ==> r == Param(b, "transition", "dissolve")
  {
    var trans := Param(b, "transition", "dissolve");
    if trans == "" then "dissolve" else trans
  }

  /** A block without a `transition` parameter uses `dissolve`. */
  lemma TransitionDefault(b: Block)
    requires "transition" !in b.params
    ensures TransitionName(b) == "dissolve"
  {
    StripUnchanged("dissolve");
  }

  /** `generate_transition`. */
  function GenerateTransition(b: Block, indent: string): (r: string)
    ensures r == indent + "with " + TransitionName(b) + "\n"
  {
    var trans := Param(b, "transition", "dissolve");
    var trans := if trans == "" then "dissolve" else trans;
    indent + "with " + trans + "\n"
  }

  /** `generate_with`. */
  function GenerateWith(b: Block, indent: string): (r: string)
    ensures r == indent + "with " + TransitionName(b) + "\n"
  {
    var trans := Param(b, "transition", "dissolve");
    var trans := if trans == "" then "dissolve" else trans;
    indent + "with " + trans + "\n"
  }

  // ---------------------------------------------------------------------
  // Audio

  /** The `loop` test on the stripped, lower-cased parameter. */
  predicate IsLoopWord(l: string) {
    l == "true" || l == "1" || l == "yes"
  }

  /** The `loop` parameter as the audio emitters read it. */
  function LoopWord(b: Block, default: string): string {
    Lower(Param(b, "loop", default))
  }

  /** The loop suffix of `generate_sound` and `generate_queue_music`. */
  function LoopSuffix(loop: string): string {
    if IsLoopWord(loop) then " loop" else ""
  }

  /** The line of `generate_sound`: the file, then `fadein`, `fadeout` and
      `loop`. */
  function SoundLine(file: string, fadein: string, fadeout: string, loop: string, indent: string): (r: string)
    ensures r == "" <==> file == ""
    ensures Terminated(r)
  {
    if file == "" then ""
    else
      var line0 := indent + "play sound \"" + file + "\"";
      var line1 := if fadein != "" then line0 + (" fadein " + fadein) else line0;
      var line2 := if fadeout != "" then line1 + (" fadeout " + fadeout) else line1;
      var line3 := if loop == "true" || loop == "1" || loop == "yes" then line2 + " loop" else line2;
      line3 + "\n"
  }

  /** A sound line is the file, then `fadein`, `fadeout` and `loop`. */
  lemma SoundLineShape(file: string, fadein: string, fadeout: string, loop: string, indent: string)
    requires file != ""
    ensures SoundLine(file, fadein, fadeout, loop, indent)
      == indent + "play sound \"" + file + "\"" + Clause(" fadein ", fadein)
         + Clause(" fadeout ", fadeout) + LoopSuffix(loop) + "\n"
  {
  }

  /** `generate_sound`: a missing `loop` parameter means no loop. */
  function GenerateSound(b: Block, indent: string): (r: string)
    ensures r == "" <==> Param(b, "sound_file", "") == ""
    ensures Terminated(r)
  {
    SoundLine(Param(b, "sound_file", ""), Param(b, "fadein", ""), Param(b, "fadeout", ""), LoopWord(b, ""), indent)
  }

  /** The line of `generate_music`: like sound, but it always ends in
      `loop` or `noloop`. */
  function MusicLine(file: string, fadein: string, fadeout: string, loop: string, indent: string): (r: string)
    ensures r == "" <==> file == ""
    ensures Terminated(r)
  {
    if file == "" then ""
    else
      var line0 := indent + "play music \"" + file + "\"";
      var line1 := if fadein != "" then line0 + (" fadein " + fadein) else line0;
      var line2 := if fadeout != "" then line1 + (" fadeout " + fadeout) else line1;
      var line3 := if loop == "true" || loop == "1" || loop == "yes" then line2 + " loop" else line2 + " noloop";
      line3 + "\n"
  }

  /** A music line is the file, then `fadein`, `fadeout`, and `loop` or
      `noloop`. */
  lemma MusicLineShape(file: string, fadein: string, fadeout: string, loop: string, indent: string)
    requires file != ""
    ensures MusicLine(file, fadein, fadeout, loop, indent)
      == indent + "play music \"" + file + "\"" + Clause(" fadein ", fadein)
         + Clause(" fadeout ", fadeout) + (if IsLoopWord(loop) then " loop" else " noloop") + "\n"
  {
  }

  /** `generate_music`: the `loop` parameter defaults to `True`. */
  function GenerateMusic(b: Block, indent: string): (r: string)
    ensures r == "" <==> Param(b, "music_file", "") == ""
    ensures Terminated(r)
  {
    MusicLine(Param(b, "music_file", ""), Param(b, "fadein", ""), Param(b, "fadeout", ""), LoopWord(b, "True"), indent)
  }

  /** Music without a `loop` parameter loops; sound and queued music without
      one do not. */
  lemma LoopDefaults(b: Block)
    requires "loop" !in b.params
    ensures IsLoopWord(LoopWord(b, "True"))
    ensures !IsLoopWord(LoopWord(b, ""))
  {
    assert GetStr(b.params, "loop", "True") == "True";
    StripUnchanged("True");
    LowerTrue();
    assert GetStr(b.params, "loop", "") == "";
    StripEmptyIffBlank("");
  }

  lemma LowerTrue()
    ensures Lower("True") == "true"
  {
    var r := Lower("True");
    assert |r| == 4;
    assert r[0] == 't' && r[1] == 'r' && r[2] == 'u' && r[3] == 'e';
  }

  /** `generate_stop_music`. */
  function GenerateStopMusic(b: Block, indent: string): (r: string)
    ensures r == indent + "stop music" + Clause(" fadeout ", Param(b, "fadeout", "")) + "\n"
  {
    var fadeout := Param(b, "fadeout", "");
    AddClause(indent + "stop music", " fadeout ", fadeout) + "\n"
  }

  /** `generate_stop_sound`. */
  function GenerateStopSound(b: Block, indent: string): (r: string)
    ensures r == indent + "stop sound" + Clause(" fadeout ", Param(b, "fadeout", "")) + "\n"
  {
    var fadeout := Param(b, "fadeout", "");
    AddClause(indent + "stop sound", " fadeout ", fadeout) + "\n"
  }

  /** The line of `generate_queue_music`: the file, then `fadein` and
      `loop`. */
  function QueueMusicLine(file: string, fadein: string, loop: string, indent: string): (r: string)
    ensures r == "" <==> file == ""
    ensures Terminated(r)
  {
    if file == "" then ""
    else
      var line0 := indent + "queue music \"" + file + "\"";
      var line1 := if fadein != "" then line0 + (" fadein " + fadein) else line0;
      var line2 := if loop == "true" || loop == "1" || loop == "yes" then line1 + " loop" else line1;
      line2 + "\n"
  }

  /** A queued music line is the file, then `fadein` and `loop`. */
  lemma QueueMusicLineShape(file: string, fadein: string, loop: string, indent: string)
    requires file != ""
    ensures QueueMusicLine(file, fadein, loop, indent)
      == indent + "queue music \"" + file + "\"" + Clause(" fadein ", fadein) + LoopSuffix(loop) + "\n"
  {
  }

  /** `generate_queue_music`. */
  function GenerateQueueMusic(b: Block, indent: string): (r: string)
    ensures r == "" <==> Param(b, "music_file", "") == ""
    ensures Terminated(r)
  {
    QueueMusicLine(Param(b, "music_file", ""), Param(b, "fadein", ""), LoopWord(b, ""), indent)
  }

  /** The line of `generate_queue_sound`: the file, then `fadein`. */
  function QueueSoundLine(file: string, fadein: string, indent: string): (r: string)
    ensures r == "" <==> file == ""
    ensures Terminated(r)
  {
    if file == "" then ""
    else
      var line0 := indent + "queue sound \"" + file + "\"";
      var line1 := if fadein != "" then line0 + (" fadein " + fadein) else line0;
      line1 + "\n"
  }

  lemma QueueSoundLineShape(file: string, fadein: string, indent: string)
    requires file != ""
    ensures QueueSoundLine(file, fadein, indent)
      == indent + "queue sound \"" + file + "\"" + Clause(" fadein ", fadein) + "\n"
  {
  }

  /** `generate_queue_sound`. */
  function GenerateQueueSound(b: Block, indent: string): (r: string)
    ensures r == "" <==> Param(b, "sound_file", "") == ""
    ensures Terminated(r)
  {
    QueueSoundLine(Param(b, "sound_file", ""), Param(b, "fadein", ""), indent)
  }

  /** `generate_voice`. */
  function GenerateVoice(b: Block, indent: string): (r: string)
    ensures r == "" <==> Param(b, "voice_file", "") == ""
    ensures r != "" ==> r == indent + "voice \"" + Param(b, "voice_file", "") + "\"\n"
    ensures Terminated(r)
  {
    var voiceFile := Param(b, "voice_file", "");
    if voiceFile == "" then "" else indent + "voice \"" + voiceFile + "\"\n"
  }

  // ---------------------------------------------------------------------
  // Variables and definitions

  /** `generate_set_var`: the value written by `format_value`. */
  function GenerateSetVar(b: Block, indent: string): (r: string)
    ensures r == "" <==> Param(b, "variable", "") == ""
    ensures r != "" ==> r == indent + "$ " + Param(b, "variable", "") + " = " + FormatValue(Param(b, "value", "")) + "\n"
    ensures Terminated(r)
  {
    var variable := Param(b, "variable", "");
    var value := Param(b, "value", "");
    if variable == "" then "" else indent + "$ " + variable + " = " + FormatValue(value) + "\n"
  }

  /** `generate_default`. */
  function GenerateDefault(b: Block, indent: string): (r: string)
    ensures r == "" <==> Param(b, "variable", "") == ""
    ensures r != "" ==> r == indent + "default " + Param(b, "variable", "") + " = " + FormatValue(Param(b, "value", "")) + "\n"
    ensures Terminated(r)
  {
    var variable := Param(b, "variable", "");
    var value := Param(b, "value", "");
    if variable == "" then "" else indent + "default " + variable + " = " + FormatValue(value) + "\n"
  }

  /** `generate_define`. */
  function GenerateDefine(b: Block, indent: string): (r: string)
    ensures r == "" <==> Param(b, "name", "") == ""
    ensures r != "" ==> r == indent + "define " + Param(b, "name", "") + " = " + FormatValue(Param(b, "value", "")) + "\n"
    ensures Terminated(r)
  {
    var name := Param(b, "name", "");
    var value := Param(b, "value", "");
    if name == "" then "" else indent + "define " + name + " = " + FormatValue(value) + "\n"
  }

  /** A display name inside single quotes, each `'` escaped as `\'`. */
  function SingleQuoteEscape(s: string): string {
    ReplaceChar(s, '\'', "\\'")
  }

  /** The escaped display name keeps no bare `'` that would end the quoted
      name early: every `'` left is preceded by a backslash. */
  lemma SingleQuoteEscapeSafe(s: string)
    ensures '\'' !in s ==> SingleQuoteEscape(s) == s
    ensures |SingleQuoteEscape(s)| == |s| + Count('\'', s)
  {
    if '\'' !in s {
      ReplaceCharAbsent(s, '\'', "\\'");
    }
    ReplaceCharLength(s, '\'', "\\'");
  }

  /** The line of `generate_character` for the stripped name and display
      name: `Character(None)` when the display name is blank. */
  function CharacterLine(name: string, displayName: string, indent: string): (r: string)
    ensures r == "" <==> name == ""
    ensures Terminated(r)
  {
    if name == "" then ""
    else if displayName != "" then
      indent + "define " + name + " = Character(" + ("'" + SingleQuoteEscape(displayName) + "'") + ")\n"
    else indent + "define " + name + " = Character(" + "None" + ")\n"
  }

  /** The display name in single quotes, or `None` when it is blank. */
  lemma CharacterLineShape(name: string, displayName: string, indent: string)
    requires name != ""
    ensures CharacterLine(name, displayName, indent)
      == indent + "define " + name + " = Character("
         + (if displayName != "" then "'" + SingleQuoteEscape(displayName) + "'" else "None") + ")\n"
  {
  }

  /** `generate_character`. */
  function GenerateCharacter(b: Block, indent: string): (r: string)
    ensures r == "" <==> Param(b, "name", "") == ""
    ensures Terminated(r)
  {
    CharacterLine(Param(b, "name", ""), Param(b, "display_name", ""), indent)
  }

  // ---------------------------------------------------------------------
  // Dispatch

  /** `BLOCK_GENERATORS`: the emitter for each block type that has one. */
  function Generators(t: BlockType): Option<(Block, string) -> string> {
    match t
    case SAY => Some(GenerateSay)
    case NARRATION => Some(GenerateNarration)
    case MENU => Some(MenuText)
    case JUMP => Some(GenerateJump)
    case CALL => Some(GenerateCall)
    case RETURN => Some(GenerateReturn)
    case SCENE => Some(GenerateScene)
    case SHOW => Some(GenerateShow)
    case HIDE => Some(GenerateHide)
    case IMAGE => Some(GenerateImage)
    case PAUSE => Some(GeneratePause)
    case TRANSITION => Some(GenerateTransition)
    case WITH => Some(GenerateWith)
    case SOUND => Some(GenerateSound)
    case MUSIC => Some(GenerateMusic)
    case STOP_MUSIC => Some(GenerateStopMusic)
    case STOP_SOUND => Some(GenerateStopSound)
    case QUEUE_MUSIC => Some(GenerateQueueMusic)
    case QUEUE_SOUND => Some(GenerateQueueSound)
    case SET_VAR => Some(GenerateSetVar)
    case DEFAULT => Some(GenerateDefault)
    case DEFINE => Some(GenerateDefine)
    case PYTHON => Some(PythonText)
    case CHARACTER => Some(GenerateCharacter)
    case VOICE => Some(GenerateVoice)
    case CENTER => Some(GenerateCenter)
    case TEXT => Some(GenerateText)
    case _ => None
  }

  /** The table has no entry for the label, control-flow and unused types. */
  lemma GeneratorsDomain(t: BlockType)
    ensures Generators(t).None? <==> t in {LABEL, IF, ELIF, ELSE, WHILE, FOR, START, STYLE, EXTEND, INTERJECT}
  {
  }

  lemma {:induction false} ConcatTerminated(lines: seq<string>)
    requires forall i :: 0 <= i < |lines| ==> Terminated(lines[i])
    ensures Terminated(Concat(lines))
  {
    if lines != [] {
      ConcatTerminated(lines[..|lines| - 1]);
    }
  }

  lemma {:induction false} ChoicesTerminated(cs: seq<Value>, indent: string)
    ensures forall i :: 0 <= i < |ChoicesLines(cs, indent)| ==> Terminated(ChoicesLines(cs, indent)[i])
  {
    if cs != [] {
      ChoicesTerminated(cs[..|cs| - 1], indent);
      assert ChoicesLines(cs, indent) == ChoicesLines(cs[..|cs| - 1], indent) + ChoiceLines(cs[|cs| - 1], indent);
    }
  }

  /** A menu is made of whole lines. */
  lemma MenuTerminated(question: string, choices: seq<Value>, indent: string)
    ensures Terminated(Concat(MenuLines(question, choices, indent)))
  {
    var lines := MenuLines(question, choices, indent);
    var q := QuestionLines(question, indent);
    ChoicesTerminated(choices, indent);
    forall i | 0 <= i < |lines| ensures Terminated(lines[i]) {
      if i < |q| {
        assert lines[i] == indent + Quoted(question) + "\n";
      }
    }
    ConcatTerminated(lines);
  }

  /** Python code is made of whole lines. */
  lemma PythonTerminated(code: string, indent: string)
    ensures Terminated(Concat(PythonLines(code, indent)))
  {
    var lines := PythonLines(code, indent);
    if lines != [] {
      var body := IndentBody(code, indent + INDENT);
      forall i | 0 <= i < |lines| ensures Terminated(lines[i]) {
        if i > 0 {
          assert lines[i] == body[i - 1];
        }
      }
    }
    ConcatTerminated(lines);
  }

  /** Every line of an indented body, and the `pass` line that replaces an
      empty one, ends in a newline. */
  lemma BodyTerminated(body: string, prefix: string)
    ensures forall i :: 0 <= i < |BodyOrPass(body, prefix)| ==> Terminated(BodyOrPass(body, prefix)[i])
  {
  }

  /** Every line of `lines` ends in a newline. */
  predicate AllTerminated(lines: seq<string>) {
    forall i :: 0 <= i < |lines| ==> Terminated(lines[i])
  }

  lemma AllTerminatedAppend(a: seq<string>, b: seq<string>)
    requires AllTerminated(a) && AllTerminated(b)
    ensures AllTerminated(a + b)
  {
    forall i | 0 <= i < |a + b| ensures Terminated((a + b)[i]) {
      if i >= |a| {
        assert (a + b)[i] == b[i - |a|];
      }
    }
  }

  /** A statement head such as `if x:` followed by its newline. */
  lemma HeadTerminated(head: string)
    ensures AllTerminated([head + ":\n"])
  {
    assert (head + ":\n")[|head| + 1] == '\n';
  }

  /** An `if` statement is made of whole lines. */
  lemma IfTerminated(condition: string, indent: string, trueBranch: string, falseBranch: string)
    ensures Terminated(Concat(IfLines(condition, indent, trueBranch, falseBranch)))
  {
    var prefix := indent + INDENT;
    if condition != "" {
      var head := [indent + "if " + condition + ":\n"];
      HeadTerminated(indent + "if " + condition);
      BodyTerminated(trueBranch, prefix);
      AllTerminatedAppend(head, BodyOrPass(trueBranch, prefix));
      var tail := if falseBranch != "" then [indent + "else:\n"] + IndentBody(falseBranch, prefix) else [];
      if falseBranch != "" {
        HeadTerminated(indent + "else");
        assert indent + "else" + ":\n" == indent + "else:\n";
        BodyTerminated(falseBranch, prefix);
        assert BodyOrPass(falseBranch, prefix) == IndentBody(falseBranch, prefix);
        AllTerminatedAppend([indent + "else:\n"], IndentBody(falseBranch, prefix));
      }
      AllTerminatedAppend(head + BodyOrPass(trueBranch, prefix), tail);
      assert IfLines(condition, indent, trueBranch, falseBranch) == head + BodyOrPass(trueBranch, prefix) + tail;
      ConcatTerminated(head + BodyOrPass(trueBranch, prefix) + tail);
    }
  }

  /** `while` and `for` statements are made of whole lines. */
  lemma LoopTerminated(condition: string, variable: string, iterable: string, indent: string, body: string)
    ensures Terminated(Concat(WhileLines(condition, indent, body)))
    ensures Terminated(Concat(ForLines(variable, iterable, indent, body)))
  {
    var prefix := indent + INDENT;
    BodyTerminated(body, prefix);
    if condition != "" {
      HeadTerminated(indent + "while " + condition);
      AllTerminatedAppend([indent + "while " + condition + ":\n"], BodyOrPass(body, prefix));
      ConcatTerminated(WhileLines(condition, indent, body));
    }
    if variable != "" && iterable != "" {
      HeadTerminated(indent + "for " + variable + " in " + iterable);
      AllTerminatedAppend([indent + "for " + variable + " in " + iterable + ":\n"], BodyOrPass(body, prefix));
      ConcatTerminated(ForLines(variable, iterable, indent, body));
    }
  }

  /** `if`, `while` and `for` statements are made of whole lines. */
  lemma CompoundTerminated(condition: string, variable: string, iterable: string, indent: string,
                           trueBranch: string, falseBranch: string)
    ensures Terminated(Concat(IfLines(condition, indent, trueBranch, falseBranch)))
    ensures Terminated(Concat(WhileLines(condition, indent, trueBranch)))
    ensures Terminated(Concat(ForLines(variable, iterable, indent, trueBranch)))
  {
    IfTerminated(condition, indent, trueBranch, falseBranch);
    LoopTerminated(condition, variable, iterable, indent, trueBranch);
  }

  /** Every emitter in the table produces whole newline-terminated lines.
      The emitters' own contracts say so; their bodies are not needed. */
  lemma GeneratorsTerminated(t: BlockType, b: Block, indent: string)
    requires Generators(t).Some?
    ensures Terminated(Generators(t).value(b, indent))
  {
    hide GenerateSay, GenerateNarration, MenuText, GenerateJump, GenerateCall, GenerateReturn, GenerateScene,
      GenerateShow, GenerateHide, GenerateImage, GeneratePause, GenerateTransition, GenerateWith, GenerateSound,
      GenerateMusic, GenerateStopMusic, GenerateStopSound, GenerateQueueMusic, GenerateQueueSound, GenerateSetVar,
      GenerateDefault, GenerateDefine, PythonText, GenerateCharacter, GenerateVoice, GenerateCenter, GenerateText,
      Param, TransitionName, FormatValue, Clause;
  }
}
