/** The older single-file generator. Its adjacency builder, start-block
    search, traversal, scene assembly, character extraction, definitions
    preamble and script assembly are the same code as the package
    generator's, with the adjacency entries used directly as block ids; its
    emitters are the same expressions as the package's, except that set_var,
    default and define write the literal-type test out inline instead of
    calling `format_value`, and that the per-block dispatch is a chain of
    type tests instead of a table. This module models those differences and
    proves that they change nothing. */
module LegacyGenerator {
  import opened Text
  import opened Numeric
  import opened Model
  import opened GeneratorUtils
  import opened GeneratorBlocks
  import GeneratorMain

  /** The empty string is not a number: `float("")` raises. */
  lemma EmptyNotNumeric()
    ensures !IsNumeric("")
  {
    assert Unsigned("") == "" by {
      StripEmptyIffBlank("");
    }
    assert Lower("") == "";
    assert FindChar("", IsExponentMark) == 0;
    assert !IsMantissa("");
  }

  /** The inline value test of the legacy set_var, default and define:
      `float(value)` succeeds, or the value is double-quoted at both ends,
      or it starts with `[` or `{`; otherwise it is wrapped in double
      quotes. The empty value is not a number and not quoted, so it becomes
      `""` too. */
  function LegacyValue(v: string): (r: string)
    ensures r == v || r == "\"" + v + "\""
  {
    if IsNumeric(v) then v
    else if StartsWith(v, '"') && EndsWith(v, '"') then v
    else if StartsWith(v, '[') || StartsWith(v, '{') then v
    else "\"" + v + "\""
  }

  /** The inline test gives what `format_value` gives, for every value,
      the empty one included. */
  lemma LegacyValueAgrees(v: string)
    ensures LegacyValue(v) == FormatValue(v)
  {
    if v == "" {
      EmptyNotNumeric();
    }
  }

  /** The line the three legacy emitters write once the statement head
      (`$ x = `, `default x = `, `define x = `) is known: the value as it
      stands when it is a number, double-quoted at both ends or a list or
      dictionary literal, and otherwise wrapped in double quotes. */
  function LegacyLine(head: string, value: string): (r: string)
    ensures Terminated(r)
  {
    if IsNumeric(value) then head + value + "\n"
    else if StartsWith(value, '"') && EndsWith(value, '"') then head + value + "\n"
    else if StartsWith(value, '[') || StartsWith(value, '{') then head + value + "\n"
    else head + "\"" + value + "\"\n"
  }

  /** Each of the four returns is the head, the legacy value text and the
      newline. */
  lemma LegacyLineValue(head: string, value: string)
    ensures LegacyLine(head, value) == head + LegacyValue(value) + "\n"
  {
    if !IsNumeric(value) && !(StartsWith(value, '"') && EndsWith(value, '"'))
       && !StartsWith(value, '[') && !StartsWith(value, '{') {
      QuotedLine(head, value);
    }
  }

  lemma QuotedLine(head: string, value: string)
    ensures head + "\"" + value + "\"\n" == head + ("\"" + value + "\"") + "\n"
  {
    assert "\"\n" == "\"" + "\n";
  }

  /** So each line is the one the package writes with `format_value`. */
  lemma LegacyLineAgrees(head: string, value: string)
    ensures LegacyLine(head, value) == head + FormatValue(value) + "\n"
  {
    LegacyLineValue(head, value);
    LegacyValueAgrees(value);
  }

  /** `_gen_set_var`. */
  function LegacySetVar(b: Block, indent: string): (r: string)
    ensures r == "" <==> Param(b, "variable", "") == ""
  {
    var variable := Param(b, "variable", "");
    if variable == "" then "" else LegacyLine(indent + "$ " + variable + " = ", Param(b, "value", ""))
  }

  /** `_gen_default`. */
  function LegacyDefault(b: Block, indent: string): (r: string)
    ensures r == "" <==> Param(b, "variable", "") == ""
  {
    var variable := Param(b, "variable", "");
    if variable == "" then "" else LegacyLine(indent + "default " + variable + " = ", Param(b, "value", ""))
  }

  /** `_gen_define`. */
  function LegacyDefine(b: Block, indent: string): (r: string)
    ensures r == "" <==> Param(b, "name", "") == ""
  {
    var name := Param(b, "name", "");
    if name == "" then "" else LegacyLine(indent + "define " + name + " = ", Param(b, "value", ""))
  }

  lemma LegacySetVarAgrees(b: Block, indent: string)
    ensures LegacySetVar(b, indent) == GenerateSetVar(b, indent)
  {
    var variable := Param(b, "variable", "");
    if variable != "" {
      LegacyLineAgrees(indent + "$ " + variable + " = ", Param(b, "value", ""));
    }
  }

  lemma LegacyDefaultAgrees(b: Block, indent: string)
    ensures LegacyDefault(b, indent) == GenerateDefault(b, indent)
  {
    var variable := Param(b, "variable", "");
    if variable != "" {
      LegacyLineAgrees(indent + "default " + variable + " = ", Param(b, "value", ""));
    }
  }

  lemma LegacyDefineAgrees(b: Block, indent: string)
    ensures LegacyDefine(b, indent) == GenerateDefine(b, indent)
  {
    var name := Param(b, "name", "");
    if name != "" {
      LegacyLineAgrees(indent + "define " + name + " = ", Param(b, "value", ""));
    }
  }

  /** `_generate_block`: one test per block type, in the order of the
      source; the emitters it shares with the package are the package's. */
  function LegacyGenerateBlock(b: Block, indent: string): (r: string)
    ensures b.kind in {IF, WHILE, FOR} ==> r == ""
  {
    match b.kind
    case SAY => GenerateSay(b, indent)
    case NARRATION => GenerateNarration(b, indent)
    case MENU => MenuText(b, indent)
    case IF => ""
    case WHILE => ""
    case FOR => ""
    case JUMP => GenerateJump(b, indent)
    case CALL => GenerateCall(b, indent)
    case RETURN => GenerateReturn(b, indent)
    case SCENE => GenerateScene(b, indent)
    case SHOW => GenerateShow(b, indent)
    case HIDE => GenerateHide(b, indent)
    case IMAGE => GenerateImage(b, indent)
    case PAUSE => GeneratePause(b, indent)
    case TRANSITION => GenerateTransition(b, indent)
    case WITH => GenerateWith(b, indent)
    case SOUND => GenerateSound(b, indent)
    case MUSIC => GenerateMusic(b, indent)
    case STOP_MUSIC => GenerateStopMusic(b, indent)
    case STOP_SOUND => GenerateStopSound(b, indent)
    case QUEUE_MUSIC => GenerateQueueMusic(b, indent)
    case QUEUE_SOUND => GenerateQueueSound(b, indent)
    case SET_VAR => LegacySetVar(b, indent)
    case DEFAULT => LegacyDefault(b, indent)
    case DEFINE => LegacyDefine(b, indent)
    case PYTHON => PythonText(b, indent)
    case CHARACTER => GenerateCharacter(b, indent)
    case VOICE => GenerateVoice(b, indent)
    case CENTER => GenerateCenter(b, indent)
    case TEXT => GenerateText(b, indent)
    case LABEL =>
      var name := Param(b, "label", "");
      if name != "" then "label " + name + ":\n" else ""
    case _ => ""
  }

  /** The chain of type tests and the package's table give the same text
      for every block: so the legacy traversal, scene text and script, which
      call `_generate_block` where the package calls `generate_block`, are
      the package's with the adjacency read as plain ids. */
  lemma LegacyBlockAgrees(b: Block, indent: string)
    ensures LegacyGenerateBlock(b, indent) == GeneratorMain.GenerateBlock(b, indent)
  {
    GeneratorsDomain(b.kind);
    match b.kind
    case SET_VAR => LegacySetVarAgrees(b, indent);
    case DEFAULT => LegacyDefaultAgrees(b, indent);
    case DEFINE => LegacyDefineAgrees(b, indent);
    case _ =>
  }
}
