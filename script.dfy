/** The project level of the generator: the characters a project mentions,
    the definitions preamble for its images and characters, and the whole
    script (header, definitions, auto-detected characters, scenes). */
module GeneratorScript {
  import opened Seqs
  import opened Text
  import opened Model
  import opened Sorting
  import opened GeneratorBlocks
  import opened GeneratorMain

  // ---------------------------------------------------------------------
  // Characters

  /** The character a block names, stripped, or "" when it names none: the
      speaker of SAY, the character of SHOW and HIDE, the name of CHARACTER. */
  function BlockCharacter(b: Block): (r: string)
    ensures b.kind != SAY && b.kind != SHOW && b.kind != HIDE && b.kind != CHARACTER ==> r == ""
  {
    match b.kind
    case SAY => Param(b, "who", "")
    case SHOW => Param(b, "character", "")
    case HIDE => Param(b, "character", "")
    case CHARACTER => Param(b, "name", "")
    case _ => ""
  }

  /** A parameter as the emitters read it is already stripped. */
  lemma ParamStripped(b: Block, key: string, default: string)
    ensures Strip(Param(b, key, default)) == Param(b, key, default)
  {
    StripIdempotent(GetStr(b.params, key, default));
  }

  /** A character taken from a block has no white space at either end. */
  lemma BlockCharacterStripped(b: Block)
    ensures Strip(BlockCharacter(b)) == BlockCharacter(b)
  {
    StripEmptyIffBlank("");
    hide Strip, Param;
    match b.kind
    case SAY => ParamStripped(b, "who", "");
    case SHOW => ParamStripped(b, "character", "");
    case HIDE => ParamStripped(b, "character", "");
    case CHARACTER => ParamStripped(b, "name", "");
    case _ =>
  }

  /** The non-empty names `f` gives to the blocks of the scenes. */
  function ScenesNames(scenes: seq<Scene>, f: Block -> string): set<string>
    reads scenes
  {
    if scenes == [] then {}
    else ScenesNames(scenes[..|scenes| - 1], f) + Names(scenes[|scenes| - 1].blocks, f)
  }

  /** `extract_characters`: the names of the project's character
      definitions and every character a block names. */
  function Characters(defined: set<string>, scenes: seq<Scene>): set<string>
    reads scenes
  {
    defined + ScenesNames(scenes, BlockCharacter)
  }

  /** A name is extracted exactly when it is defined or a block of some
      scene names it; a name taken from a block is stripped and not empty. */
  lemma CharactersExactly(defined: set<string>, scenes: seq<Scene>, x: string)
    ensures x in Characters(defined, scenes) <==>
      (x in defined || (x != "" && exists i, j :: 0 <= i < |scenes| && 0 <= j < |scenes[i].blocks|
                                        && BlockCharacter(scenes[i].blocks[j]) == x))
    ensures x in Characters(defined, scenes) && x !in defined ==> x != "" && Strip(x) == x
  {
    ScenesNamesExactly(scenes, BlockCharacter, x);
    forall i | 0 <= i < |scenes| {
      NamesExactly(scenes[i].blocks, BlockCharacter, x);
    }
    if x in Characters(defined, scenes) && x !in defined {
      var i, j :| 0 <= i < |scenes| && 0 <= j < |scenes[i].blocks| && BlockCharacter(scenes[i].blocks[j]) == x;
      BlockCharacterStripped(scenes[i].blocks[j]);
    }
  }

  lemma {:induction false} ScenesNamesExactly(scenes: seq<Scene>, f: Block -> string, x: string)
    ensures x in ScenesNames(scenes, f) <==> exists i :: 0 <= i < |scenes| && x in Names(scenes[i].blocks, f)
  {
    if scenes != [] {
      var init := scenes[..|scenes| - 1];
      ScenesNamesExactly(init, f, x);
      if x in ScenesNames(init, f) {
        var i :| 0 <= i < |init| && x in Names(init[i].blocks, f);
        assert scenes[i] == init[i];
      }
      if exists i :: 0 <= i < |scenes| && x in Names(scenes[i].blocks, f) {
        var i :| 0 <= i < |scenes| && x in Names(scenes[i].blocks, f);
        if i < |init| {
          assert init[i] == scenes[i];
        }
      }
    }
  }

  /** `if name: characters.add(name)`. */
  method AddName(chars: set<string>, name: string) returns (out: set<string>)
    ensures out == chars + (if name != "" then {name} else {})
  {
    out := chars;
    if name != "" {
      out := out + {name};
    }
  }

  /** The inner loop of `extract_characters`: the characters of one
      scene's blocks, in order. */
  method AddSceneCharacters(chars: set<string>, blocks: seq<Block>) returns (out: set<string>)
    ensures out == chars + Names(blocks, BlockCharacter)
  {
    out := chars;
    var j := 0;
    while j < |blocks|
      invariant 0 <= j <= |blocks|
      invariant out == chars + Names(blocks[..j], BlockCharacter)
    {
      out := AddName(out, BlockCharacter(blocks[j]));
      NamesSnoc(blocks, j, BlockCharacter);
      j := j + 1;
    }
    assert blocks[..|blocks|] == blocks;
  }

  /** The first loop of `extract_characters`: every name in `names` is
      added. */
  method AddNames(chars: set<string>, names: set<string>) returns (out: set<string>)
    ensures out == chars + names
  {
    out := chars;
    var keys := names;
    while keys != {}
      invariant out + keys == chars + names
      decreases keys
    {
      var name :| name in keys;
      out := out + {name};
      keys := keys - {name};
    }
  }

  /** The second loop of `extract_characters`: the characters of every
      scene, in order. */
  method AddScenesCharacters(chars: set<string>, scenes: seq<Scene>) returns (out: set<string>)
    ensures out == chars + ScenesNames(scenes, BlockCharacter)
  {
    out := chars;
    var i := 0;
    while i < |scenes|
      invariant 0 <= i <= |scenes|
      invariant out == chars + ScenesNames(scenes[..i], BlockCharacter)
    {
      out := AddSceneCharacters(out, scenes[i].blocks);
      assert scenes[..i + 1][..i] == scenes[..i];
      i := i + 1;
    }
    assert scenes[..|scenes|] == scenes;
  }

  /** `extract_characters`. */
  method ExtractCharacters(project: Project) returns (chars: set<string>)
    ensures chars == Characters(project.characters.Keys, project.scenes)
  {
    chars := AddNames({}, project.characters.Keys);
    chars := AddScenesCharacters(chars, project.scenes);
  }

  // ---------------------------------------------------------------------
  // Definitions

  /** One line of the image section. */
  function ImageDefinition(name: string, path: string): string {
    "image " + name + " = \"" + path + "\"\n"
  }

  /** The image lines for `names`, in that order. */
  function ImageDefinitions(names: seq<string>, images: map<string, string>): (r: string)
    requires forall n :: n in names ==> n in images
    ensures Terminated(r)
    ensures r == "" <==> names == []
  {
    if names == [] then ""
    else
      var init := ImageDefinitions(names[..|names| - 1], images);
      var last := names[|names| - 1];
      TerminatedAppend(init, ImageDefinition(last, images[last]));
      init + ImageDefinition(last, images[last])
  }

  /** The display name of a character definition (unstripped). */
  function DisplayName(data: map<string, Value>): string {
    GetStr(data, "display_name", "")
  }

  /** One line of the character section: the display name in single
      quotes with its quotes escaped, or `None` when it is empty. */
  function CharacterDefinition(name: string, displayName: string): (r: string)
    ensures r != "" && r[|r| - 1] == '\n'
  {
    "define " + name + " = Character("
      + (if displayName != "" then "'" + SingleQuoteEscape(displayName) + "'" else "None") + ")\n"
  }

  /** A definition line for a non-empty name is the line a CHARACTER block
      with that name and display name gives at no indent. */
  lemma CharacterDefinitionIsBlockLine(name: string, displayName: string)
    requires name != ""
    ensures CharacterDefinition(name, displayName) == CharacterLine(name, displayName, "")
  {
    assert "" + "define " == "define ";
  }

  /** The character lines for `names`, in that order. */
  function CharacterDefinitions(names: seq<string>, characters: map<string, map<string, Value>>): (r: string)
    requires forall n :: n in names ==> n in characters
    ensures Terminated(r)
    ensures r == "" <==> names == []
  {
    if names == [] then ""
    else
      var init := CharacterDefinitions(names[..|names| - 1], characters);
      var last := names[|names| - 1];
      var line := CharacterDefinition(last, DisplayName(characters[last]));
      TerminatedAppend(init, line);
      init + line
  }

  lemma PrefixOf(a: string, b: string)
    ensures |a + b| >= |a| && (a + b)[..|a|] == a
  {
  }

  /** A section of the preamble: its heading, its lines and a blank line. */
  function Section(heading: string, lines: string): (r: string)
    requires heading != ""
    ensures |r| > |heading| && r[..|heading|] == heading
    ensures Terminated(r) && r != ""
  {
    assert (heading + lines + "\n")[..|heading|] == heading;
    heading + lines + "\n"
  }

  /** The image section, left out when there is no image. */
  function ImageSection(images: map<string, string>): (r: string)
    ensures r == "" <==> |images| == 0
    ensures Terminated(r)
    ensures |images| != 0 ==> r == Section("# Image Definitions\n", ImageDefinitions(Sorted(images.Keys), images))
  {
    if |images| == 0 then "" else Section("# Image Definitions\n", ImageDefinitions(Sorted(images.Keys), images))
  }

  /** The character section, left out when there is no definition. */
  function CharacterSection(characters: map<string, map<string, Value>>): (r: string)
    ensures r == "" <==> |characters| == 0
    ensures Terminated(r)
    ensures |characters| != 0 ==>
      r == Section("# Character Definitions\n", CharacterDefinitions(Sorted(characters.Keys), characters))
  {
    if |characters| == 0 then ""
    else Section("# Character Definitions\n", CharacterDefinitions(Sorted(characters.Keys), characters))
  }

  /** `generate_definitions`: the image section, then the character section;
      empty exactly when the project has neither images nor definitions. */
  function DefinitionsText(images: map<string, string>, characters: map<string, map<string, Value>>): (r: string)
    ensures r == "" <==> |images| == 0 && |characters| == 0
    ensures Terminated(r)
  {
    var imageSection := ImageSection(images);
    var characterSection := CharacterSection(characters);
    TerminatedAppend(imageSection, characterSection);
    imageSection + characterSection
  }

  lemma Assoc4(a: string, b: string, c: string, d: string)
    ensures a + b + c + d == a + (b + c + d)
  {
  }

  lemma ImageDefinitionsSnoc(names: seq<string>, i: int, images: map<string, string>)
    requires 0 <= i < |names| && forall n :: n in names ==> n in images
    ensures forall n :: n in names[..i] ==> n in images
    ensures ImageDefinitions(names[..i + 1], images)
      == ImageDefinitions(names[..i], images) + ImageDefinition(names[i], images[names[i]])
  {
    assert names[..i + 1][..i] == names[..i];
  }

  lemma CharacterDefinitionsSnoc(names: seq<string>, i: int, characters: map<string, map<string, Value>>)
    requires 0 <= i < |names| && forall n :: n in names ==> n in characters
    ensures forall n :: n in names[..i] ==> n in characters
    ensures CharacterDefinitions(names[..i + 1], characters)
      == CharacterDefinitions(names[..i], characters) + CharacterDefinition(names[i], DisplayName(characters[names[i]]))
  {
    assert names[..i + 1][..i] == names[..i];
  }

  /** The loop of `generate_definitions` over the images in name order. */
  method AppendImageDefinitions(lines: seq<string>, names: seq<string>, images: map<string, string>)
    returns (out: seq<string>)
    requires forall n :: n in names ==> n in images
    ensures Concat(out) == Concat(lines) + ImageDefinitions(names, images)
  {
    out := lines;
    var i := 0;
    while i < |names|
      invariant 0 <= i <= |names|
      invariant forall n :: n in names[..i] ==> n in images
      invariant Concat(out) == Concat(lines) + ImageDefinitions(names[..i], images)
    {
      var name := names[i];
      ghost var prev := ImageDefinitions(names[..i], images);
      ImageDefinitionsSnoc(names, i, images);
      var line := "image " + name + " = \"" + images[name] + "\"\n";
      assert line == ImageDefinition(name, images[name]);
      ConcatSnoc(out, line);
      AppendAssoc(Concat(lines), prev, line);
      out := out + [line];
      i := i + 1;
    }
    assert names[..|names|] == names;
  }

  /** The branches of the loop body of `generate_definitions`. */
  method DefineCharacter(name: string, displayName: string) returns (line: string)
    ensures line == CharacterDefinition(name, displayName)
  {
    if displayName != "" {
      var escaped := SingleQuoteEscape(displayName);
      line := "define " + name + " = Character('" + escaped + "')\n";
    } else {
      line := "define " + name + " = Character(None)\n";
    }
  }

  /** The loop of `generate_definitions` over the character definitions in
      name order. */
  method AppendCharacterDefinitions(lines: seq<string>, names: seq<string>,
                                    characters: map<string, map<string, Value>>)
    returns (out: seq<string>)
    requires forall n :: n in names ==> n in characters
    ensures Concat(out) == Concat(lines) + CharacterDefinitions(names, characters)
  {
    out := lines;
    var i := 0;
    while i < |names|
      invariant 0 <= i <= |names|
      invariant forall n :: n in names[..i] ==> n in characters
      invariant Concat(out) == Concat(lines) + CharacterDefinitions(names[..i], characters)
    {
      var name := names[i];
      ghost var prev := CharacterDefinitions(names[..i], characters);
      CharacterDefinitionsSnoc(names, i, characters);
      var line := DefineCharacter(name, GetStr(characters[name], "display_name", ""));
      ConcatSnoc(out, line);
      AppendAssoc(Concat(lines), prev, line);
      out := out + [line];
      i := i + 1;
    }
    assert names[..|names|] == names;
  }

  /** The image part of `generate_definitions`. */
  method AppendImageSection(lines: seq<string>, images: map<string, string>) returns (out: seq<string>)
    ensures Concat(out) == Concat(lines) + ImageSection(images)
  {
    out := lines;
    if |images| != 0 {
      var heading := "# Image Definitions\n";
      ConcatSnoc(out, heading);
      out := out + [heading];
      var names := Sorted(images.Keys);
      out := AppendImageDefinitions(out, names, images);
      ConcatSnoc(out, "\n");
      out := out + ["\n"];
      Assoc4(Concat(lines), heading, ImageDefinitions(names, images), "\n");
    }
  }

  /** The character part of `generate_definitions`. */
  method AppendCharacterSection(lines: seq<string>, characters: map<string, map<string, Value>>)
    returns (out: seq<string>)
    ensures Concat(out) == Concat(lines) + CharacterSection(characters)
  {
    out := lines;
    if |characters| != 0 {
      var heading := "# Character Definitions\n";
      ConcatSnoc(out, heading);
      out := out + [heading];
      var names := Sorted(characters.Keys);
      out := AppendCharacterDefinitions(out, names, characters);
      ConcatSnoc(out, "\n");
      out := out + ["\n"];
      Assoc4(Concat(lines), heading, CharacterDefinitions(names, characters), "\n");
    }
  }

  /** `generate_definitions`. */
  method GenerateDefinitions(project: Project) returns (r: string)
    ensures r == DefinitionsText(project.images, project.characters)
  {
    var lines: seq<string> := [];
    lines := AppendImageSection(lines, project.images);
    lines := AppendCharacterSection(lines, project.characters);
    r := Concat(lines);
  }

  // ---------------------------------------------------------------------
  // The script

  const HEADER := "# Generated by RenPy Node Editor\n# This file is auto-generated. Do not edit manually.\n\n"
  const NARRATOR := "define narrator = Character('Narrator')\n\n"

  /** The identifier of an auto-detected character: spaces and hyphens
      become underscores. */
  function Identifier(c: string): (r: string)
    ensures |r| == |c|
    ensures ' ' !in r && '-' !in r
    ensures ' ' !in c && '-' !in c ==> r == c
  {
    var spaced := ReplaceChar(c, ' ', "_");
    ReplaceCharLength(c, ' ', "_");
    ReplaceCharLength(spaced, '-', "_");
    ReplaceCharRemoves(c, ' ', "_");
    ReplaceCharKeepsAbsent(spaced, '-', "_", ' ');
    ReplaceCharRemoves(spaced, '-', "_");
    PlainIdentifier(c);
    ReplaceChar(spaced, '-', "_")
  }

  lemma PlainIdentifier(c: string)
    ensures ' ' !in c && '-' !in c ==> ReplaceChar(ReplaceChar(c, ' ', "_"), '-', "_") == c
  {
    if ' ' !in c && '-' !in c {
      ReplaceCharAbsent(c, ' ', "_");
      ReplaceCharAbsent(c, '-', "_");
    }
  }

  /** The `define` line of an auto-detected character. */
  function AutoDefine(c: string): string {
    "define " + Identifier(c) + " = Character('" + c + "')\n"
  }

  /** The `define` lines for those of `names` not in `defined`, in order. */
  function AutoDefines(names: seq<string>, defined: set<string>): (r: string)
    ensures Terminated(r)
  {
    if names == [] then ""
    else
      var init := AutoDefines(names[..|names| - 1], defined);
      var last := names[|names| - 1];
      var line := if last in defined then "" else AutoDefine(last);
      TerminatedAppend(init, line);
      init + line
  }

  /** Selects the names that have no definition. */
  function Undefined(defined: set<string>): string -> bool {
    (c: string) => c !in defined
  }

  /** The auto-detected lines are the `define` lines of exactly the
      undefined names, in their order. */
  lemma {:induction false} AutoDefinesUndefined(names: seq<string>, defined: set<string>)
    ensures AutoDefines(names, defined) == Concat(Map(Filter(names, Undefined(defined)), AutoDefine))
  {
    if names != [] {
      var p := Undefined(defined);
      var init := names[..|names| - 1];
      var last := names[|names| - 1];
      AutoDefinesUndefined(init, defined);
      assert names == init + [last];
      FilterAppend(init, [last], p);
      var kept := Filter(init, p);
      assert Filter([last], p) == (if last !in defined then [last] else []) by {
        assert [last][1..] == [];
      }
      var line := if last in defined then "" else AutoDefine(last);
      assert AutoDefines(names, defined) == AutoDefines(init, defined) + line;
      if last !in defined {
        MapSnoc(kept, last, AutoDefine);
        ConcatSnoc(Map(kept, AutoDefine), AutoDefine(last));
      } else {
        assert Filter(names, p) == kept + [];
        assert kept + [] == kept;
      }
    }
  }

  /** The section after the definitions: the auto-detected characters, or
      the default narrator when there is neither an extracted character nor
      a definition. */
  function AutoText(chars: set<string>, characters: map<string, map<string, Value>>): string {
    if chars != {} then "# Characters (auto-detected)\n" + AutoDefines(Sorted(chars), characters.Keys) + "\n"
    else if |characters| == 0 then NARRATOR
    else ""
  }

  /** Because every definition is an extracted character, the narrator line
      appears exactly when no character was extracted. */
  lemma NarratorIffNoCharacters(characters: map<string, map<string, Value>>, scenes: seq<Scene>)
    ensures AutoText(Characters(characters.Keys, scenes), characters) == NARRATOR
      <==> Characters(characters.Keys, scenes) == {}
  {
    var chars := Characters(characters.Keys, scenes);
    if chars == {} {
      assert characters.Keys == {};
      assert |characters| == 0;
    } else {
      var text := AutoText(chars, characters);
      assert text[0] == '#';
      assert NARRATOR[0] == 'd';
    }
  }

  /** The generated text of the scenes, in project order. */
  function ScenesText(scenes: seq<Scene>): (r: string)
    reads scenes
    ensures Terminated(r)
  {
    if scenes == [] then ""
    else
      var init := ScenesText(scenes[..|scenes| - 1]);
      var last := scenes[|scenes| - 1];
      var text := SceneText(last.sceneLabel, last.blocks, last.ports, last.connections);
      SceneTextShape(last.sceneLabel, last.blocks, last.ports, last.connections);
      TerminatedAppend(init, text);
      init + text
  }

  /** The scenes' texts follow each other: the text of two runs of scenes is
      the text of the first followed by that of the second. */
  lemma {:induction false} ScenesTextAppend(a: seq<Scene>, b: seq<Scene>)
    ensures ScenesText(a + b) == ScenesText(a) + ScenesText(b)
    decreases |b|
  {
    if b == [] {
      assert a + b == a;
    } else {
      var init := b[..|b| - 1];
      var last := b[|b| - 1];
      assert (a + b)[..|a + b| - 1] == a + init;
      assert (a + b)[|a + b| - 1] == last;
      var text := SceneText(last.sceneLabel, last.blocks, last.ports, last.connections);
      assert ScenesText(a + b) == ScenesText(a + init) + text;
      assert ScenesText(b) == ScenesText(init) + text;
      ScenesTextAppend(a, init);
      AppendAssoc(ScenesText(a), ScenesText(init), text);
    }
  }

  /** `generate_renpy_script`. */
  function ScriptText(project: Project): (r: string)
    reads project, project.scenes
  {
    HEADER + DefinitionsText(project.images, project.characters)
      + AutoText(Characters(project.characters.Keys, project.scenes), project.characters)
      + ScenesText(project.scenes)
  }

  /** The script starts with the header and ends with the scenes' texts in
      project order; with no images, no definitions and no character at all,
      only the narrator line stands between them. */
  lemma ScriptLayout(project: Project)
    ensures |ScriptText(project)| >= |HEADER| && ScriptText(project)[..|HEADER|] == HEADER
    ensures |project.images| == 0 && Characters(project.characters.Keys, project.scenes) == {}
      ==> ScriptText(project) == HEADER + NARRATOR + ScenesText(project.scenes)
  {
    var defs := DefinitionsText(project.images, project.characters);
    var chars := Characters(project.characters.Keys, project.scenes);
    var auto := AutoText(chars, project.characters);
    var scenes := ScenesText(project.scenes);
    assert ScriptText(project) == HEADER + defs + auto + scenes;
    AppendAssoc(HEADER, defs, auto);
    AppendAssoc(HEADER, defs + auto, scenes);
    AppendAssoc(defs, auto, scenes);
    PrefixOf(HEADER, defs + auto + scenes);
    if |project.images| == 0 && chars == {} {
      assert project.characters.Keys == {};
      assert |project.characters| == 0;
      assert defs == "";
      assert auto == NARRATOR;
      assert defs + auto == auto;
    }
  }

  /** The loop of `generate_renpy_script` over the sorted auto-detected
      characters. */
  method AppendAutoDefines(lines: seq<string>, names: seq<string>, characters: map<string, map<string, Value>>)
    returns (out: seq<string>)
    ensures Concat(out) == Concat(lines) + AutoDefines(names, characters.Keys)
  {
    out := lines;
    var i := 0;
    while i < |names|
      invariant 0 <= i <= |names|
      invariant Concat(out) == Concat(lines) + AutoDefines(names[..i], characters.Keys)
    {
      var c := names[i];
      ghost var prev := AutoDefines(names[..i], characters.Keys);
      assert names[..i + 1][..i] == names[..i];
      if c !in characters {
        var charName := ReplaceChar(ReplaceChar(c, ' ', "_"), '-', "_");
        var line := "define " + charName + " = Character('" + c + "')\n";
        assert line == AutoDefine(c);
        ConcatSnoc(out, line);
        AppendAssoc(Concat(lines), prev, line);
        out := out + [line];
      } else {
        assert AutoDefines(names[..i + 1], characters.Keys) == prev + "";
      }
      i := i + 1;
    }
    assert names[..|names|] == names;
  }

  /** The character part of `generate_renpy_script`. */
  method AppendAutoSection(lines: seq<string>, chars: set<string>, characters: map<string, map<string, Value>>)
    returns (out: seq<string>)
    ensures Concat(out) == Concat(lines) + AutoText(chars, characters)
  {
    out := lines;
    if chars != {} {
      var heading := "# Characters (auto-detected)\n";
      ConcatSnoc(out, heading);
      out := out + [heading];
      var names := Sorted(chars);
      out := AppendAutoDefines(out, names, characters);
      ConcatSnoc(out, "\n");
      out := out + ["\n"];
      Assoc4(Concat(lines), heading, AutoDefines(names, characters.Keys), "\n");
    } else if |characters| == 0 {
      ConcatSnoc(out, NARRATOR);
      out := out + [NARRATOR];
    }
  }

  lemma ScenesTextSnoc(done: seq<Scene>, scene: Scene)
    ensures ScenesText(done + [scene])
      == ScenesText(done) + SceneText(scene.sceneLabel, scene.blocks, scene.ports, scene.connections)
  {
    assert (done + [scene])[..|done|] == done;
  }

  /** One turn of the loop over the scenes: the scene's code is appended. */
  method AppendScene(lines: seq<string>, out: seq<string>, done: seq<Scene>, scene: Scene) returns (next: seq<string>)
    requires Concat(out) == Concat(lines) + ScenesText(done)
    ensures Concat(next) == Concat(lines) + ScenesText(done + [scene])
  {
    var code := GeneratorMain.GenerateScene(scene);
    ScenesTextSnoc(done, scene);
    ConcatSnoc(out, code);
    AppendAssoc(Concat(lines), ScenesText(done), code);
    next := out + [code];
  }

  /** The loop of `generate_renpy_script` over the scenes. */
  method AppendScenes(lines: seq<string>, scenes: seq<Scene>) returns (out: seq<string>)
    ensures Concat(out) == Concat(lines) + ScenesText(scenes)
  {
    out := lines;
    var i := 0;
    while i < |scenes|
      invariant 0 <= i <= |scenes|
      invariant Concat(out) == Concat(lines) + ScenesText(scenes[..i])
    {
      out := AppendScene(lines, out, scenes[..i], scenes[i]);
      TakeSnoc(scenes, i);
      i := i + 1;
    }
    assert scenes[..|scenes|] == scenes;
  }

  lemma AppendEmpty(a: string)
    ensures a + "" == a
  {
  }

  /** The header and definitions part of `generate_renpy_script`. */
  method AppendPreamble(project: Project) returns (lines: seq<string>)
    ensures Concat(lines) == HEADER + DefinitionsText(project.images, project.characters)
  {
    lines := [HEADER];
    assert Concat(lines) == HEADER by {
      assert lines[..0] == [];
    }
    var defs := GenerateDefinitions(project);
    if defs != "" {
      ConcatSnoc(lines, defs);
      lines := lines + [defs];
    } else {
      AppendEmpty(HEADER);
    }
  }

  /** `generate_renpy_script`. */
  method GenerateRenpyScript(project: Project) returns (r: string)
    ensures r == ScriptText(project)
  {
    var lines := AppendPreamble(project);
    var chars := ExtractCharacters(project);
    lines := AppendAutoSection(lines, chars, project.characters);
    lines := AppendScenes(lines, project.scenes);
    r := Concat(lines);
  }
}
