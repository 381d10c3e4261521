# Ren'Py node editor: scene graph, script generator and project dictionaries

This project models the core of a visual editor for Ren'Py visual novels. An
author draws each scene as a graph of typed blocks: say, menu, if, show,
play music and so on. Blocks carry parameter dictionaries and own ports.
Connections join ports, and the editor turns the whole project into one
Ren'Py script. The model covers five parts:

- **The data model** (`model.dfy`). Blocks, ports and connections are values.
  Scenes and projects are classes whose lists the editing methods replace or
  extend in place: find, add and remove, plus the cascade of `remove_block`.
- **The generator's helpers** (`utils.dfy`): the block→successor map built
  from connections, the start-block search, `escape_text` and `format_value`.
- **The per-block emitters and their dispatch table** (`blocks.dfy`). Each
  block type has an emitter that turns a parameter dictionary and an indent
  into newline-terminated Ren'Py lines.
- **Traversal and assembly** (`main.dfy`, `script.dfy`):
  - the recursive walk along the graph, with a visited set that cuts cycles;
  - the scene text, with its stack sweep for blocks no walk reached;
  - character extraction, the definitions preamble and the whole script.
- **The older single-file generator** (`legacy.dfy`) and **the dictionary
  form of a project** (`serialization.dfy`), with round-trip lemmas over a
  small JSON value type.

The helper modules hold general facts the proofs use:

| module | what it holds |
|---|---|
| `text.dfy` | `str.strip` over Python's whitespace set, ASCII `lower`, `split('\n')`, `join`, `replace` |
| `numeric.dfy` | which strings `float()` accepts |
| `seqs.dfy` | list comprehensions, first and last match by key |
| `sorting.dfy` | Python's string order and `sorted` of a set |
| `wrappers.dfy` | `Option` |

Where the code and its data model disagree, the model follows the code:

- **Block types.** `core/model.py` declares only six `BlockType` members. The
  generator's dispatch table (`blocks.py:514-542`) and traversal use about
  thirty. `Model.BlockType` has every member the generators name. As written,
  importing `generator/blocks.py` raises AttributeError at
  `BlockType.NARRATION` (`blocks.py:516`). The older generator raises the same
  error for every block that is not SAY (`generator_renpy.py:583`).
- **Project dictionaries.** `Project` in `core/model.py` has no `images` or
  `characters` field. The script generator reads both (`main.py:183,210,217`),
  so the modelled `Project` carries both maps. As written, every
  `generate_renpy_script` call, and every call of its older copy, raises
  AttributeError at the first read of `project.images` or `project.characters`.
- **Adjacency entries.** `get_block_connections` (`utils.py:12-28`) builds a
  map whose entries are plain block ids. The package traversal unpacks each
  entry as an `(id, distance)` pair (`main.py:61,82,97,115,163`), and nothing
  ever computes a distance. The older generator uses the ids directly
  (`generator_renpy.py:673,720`), and so does the model's walk. The docstrings
  (`main.py:42-43,113-114`) speak of entries sorted by distance, shorter
  first. No code computes such a distance, so that ordering is not modelled:
  successors are walked in connection order. The discrepancy is recorded under
  Findings.

All paths below are under `src/renpy_node_editor/core/`, written out in full
in the table.

## Model

| member | source | states |
|---|---|---|
| Model.TypeFromName | src/renpy_node_editor/core/serialization.py:77-85 | Looking a block type up by member name (`BlockType[name]`) only ever gives the type that has that name. |
| Model.TypeNameRoundTrip | src/renpy_node_editor/core/serialization.py:22-30 | Every block type's stored member name reads back as that type. |
| Model.TypeNamesRoundTripS | src/renpy_node_editor/core/generator/blocks.py:514-542 | The name round trip for the types whose names start with S. |
| Model.TypeNamesRoundTripA | src/renpy_node_editor/core/generator/blocks.py:514-542 | The name round trip for the types starting with L, N, M, I, E and W. |
| Model.TypeNamesRoundTripB | src/renpy_node_editor/core/generator/blocks.py:514-542 | The name round trip for the remaining types. |
| Model.DirectionFromName | src/renpy_node_editor/core/serialization.py:88-95 | Looking a port direction up by name only gives the direction with that name. |
| Model.DirectionNameRoundTrip | src/renpy_node_editor/core/serialization.py:33-40 | Both port directions' names read back as themselves. |
| Model.GetStr | src/renpy_node_editor/core/generator/main.py:27 | `params.get(key, default)` gives the default for a missing key and the stored string otherwise. |
| Model.LookupBlock | src/renpy_node_editor/core/model.py:84-88 | `None` exactly when no block has the id; otherwise a block with that id, namely the first in list order. |
| Model.LookupPort | src/renpy_node_editor/core/model.py:90-94 | The same first-match rule for ports. |
| Model.OwnedPortIds | src/renpy_node_editor/core/model.py:102 | The set of ids of the ports whose `node_id` is the given block. |
| Model.RemoveBlockEffect | src/renpy_node_editor/core/model.py:99-107 | After `remove_block(b)`: (1) exactly the blocks with another id are kept, each as often as before and in order; (2) exactly the ports not owned by `b` are kept; (3) exactly the connections touching none of `b`'s ports are kept. |
| Model.DropConnectionEffect | src/renpy_node_editor/core/model.py:118-119 | Exactly the connections with another id are kept, each as often as before; with no match, the list is unchanged. |
| Model.AttachPortEffect | src/renpy_node_editor/core/model.py:109-113 | Without an owner block the blocks are unchanged. Otherwise only the first block with the owner id changes, and only in `port_ids`. The port id is appended unless already listed, so it ends up listed and no duplicate is created. |
| Model.Scene.constructor | src/renpy_node_editor/core/model.py:70-82 | A scene holds exactly the given id, name, label and lists. |
| Model.Scene.FindBlock | src/renpy_node_editor/core/model.py:84-88 | The linear search gives the first block with the id, or `None`. |
| Model.Scene.FindPort | src/renpy_node_editor/core/model.py:90-94 | The linear search gives the first port with the id, or `None`. |
| Model.Scene.AddBlock | src/renpy_node_editor/core/model.py:96-97 | Appends the block; ports, connections, name and label are unchanged. |
| Model.Scene.RemoveBlock | src/renpy_node_editor/core/model.py:99-107 | The new blocks, ports and connections are the filtered lists of `RemoveBlockEffect`; name and label are unchanged. |
| Model.Scene.AddPort | src/renpy_node_editor/core/model.py:109-113 | Appends the port and registers it with its owner as `AttachPortEffect` states; connections are unchanged. |
| Model.Scene.AddConnection | src/renpy_node_editor/core/model.py:115-116 | Appends the connection; blocks and ports are unchanged. |
| Model.Scene.RemoveConnection | src/renpy_node_editor/core/model.py:118-119 | Removes every connection with the id and nothing else. |
| Model.LookupScene | src/renpy_node_editor/core/model.py:131-135 | The first scene with the id, or `None` when there is none. |
| Model.DropSceneEffect | src/renpy_node_editor/core/model.py:140-141 | Exactly the scenes with another id are kept, each as often as before and in order. |
| Model.Project.constructor | src/renpy_node_editor/core/model.py:122-129 | A project holds exactly the given name, scenes, variables, images and characters. |
| Model.Project.FindScene | src/renpy_node_editor/core/model.py:131-135 | The linear search gives the first scene with the id, or `None`. |
| Model.Project.AddScene | src/renpy_node_editor/core/model.py:137-138 | Appends the scene; the other fields are unchanged. |
| Model.Project.RemoveScene | src/renpy_node_editor/core/model.py:140-141 | Removes all scenes with the id and keeps the rest in order. |
| GeneratorUtils.PortOwners | src/renpy_node_editor/core/generator/utils.py:16-19 | The port→owner map: a port id is mapped exactly when some port has it, and to the owner of the last such port. |
| GeneratorUtils.SuccessorsAppend | src/renpy_node_editor/core/generator/utils.py:22-26 | One more connection adds its target's owner to the source owner's list exactly when both ports resolve to non-empty owners; otherwise nothing changes. |
| GeneratorUtils.AdjacencyIsSuccessors | src/renpy_node_editor/core/generator/utils.py:12-28 | Each block's entry is its successor list, in connection order; a block has an entry exactly when it has a successor. |
| GeneratorUtils.AdjacencyNonEmptyIds | src/renpy_node_editor/core/generator/utils.py:25-26 | The empty id is neither a key nor a successor. |
| GeneratorUtils.GetBlockConnections | src/renpy_node_editor/core/generator/utils.py:12-28 | The two loops return the adjacency of the scene's ports and connections. The older copy builds the same map of plain ids (`generator_renpy.py:11-27`). |
| GeneratorUtils.InsertByPosPermutes | src/renpy_node_editor/core/generator/utils.py:40 | One insertion step of the `(y, x)` sort adds exactly the inserted block. |
| GeneratorUtils.InsertByPosAfter | src/renpy_node_editor/core/generator/utils.py:40 | Insertion keeps every element at or after a lower bound. |
| GeneratorUtils.InsertByPosSorted | src/renpy_node_editor/core/generator/utils.py:40 | Insertion into a `(y, x)`-sorted list keeps it sorted. |
| GeneratorUtils.SortByPosCorrect | src/renpy_node_editor/core/generator/utils.py:40 | `sorted(blocks, key=(y, x))` is sorted by `(y, x)` and is a permutation of the blocks. |
| GeneratorUtils.InsertByPosStable | src/renpy_node_editor/core/generator/utils.py:40 | Insertion puts a block after the blocks at the same position. |
| GeneratorUtils.SortByPosStable | src/renpy_node_editor/core/generator/utils.py:40 | The sort is stable: blocks at the same position keep their scene order. |
| GeneratorUtils.StartBlocksCorrect | src/renpy_node_editor/core/generator/utils.py:31-42 | With edges: exactly the blocks that are never a target, in scene order, each as often as in the scene. Without edges: all blocks sorted by `(y, x)`, as a permutation. |
| GeneratorUtils.FindStartBlocks | src/renpy_node_editor/core/generator/utils.py:31-42 | The `has_input` loop and the filter return the start blocks above. The older copy returns the same start blocks (`generator_renpy.py:30-41`). |
| GeneratorUtils.EscapeTextLength | src/renpy_node_editor/core/generator/utils.py:45-47 | The escaped length is the input length plus the number of `"`; text without `"` is unchanged. |
| GeneratorUtils.EscapeTextNoLeadingQuote | src/renpy_node_editor/core/generator/utils.py:45-47 | Escaped text never starts with a bare `"`. |
| GeneratorUtils.UnescapeEscape | src/renpy_node_editor/core/generator/utils.py:45-47 | Escaping is undone by turning each `\"` back into `"`, so it loses nothing. |
| GeneratorUtils.FormatValue | src/renpy_node_editor/core/generator/utils.py:50-68 | The result is never empty. It is the value itself exactly when the value is non-empty and either numeric, quoted at both ends, or a list or dict literal. In every other case, the empty value included, it is the value in double quotes. |
| GeneratorUtils.FormatValueIdempotent | src/renpy_node_editor/core/generator/utils.py:50-68 | Formatting a formatted value changes nothing. |
| GeneratorBlocks.QuotedReadsBack | src/renpy_node_editor/core/generator/blocks.py:22 | The quoted, escaped text reads back as the text; text without `"` is just wrapped in quotes. |
| GeneratorBlocks.GenerateLabel | src/renpy_node_editor/core/generator/blocks.py:9-11 | The label line is newline-terminated. |
| GeneratorBlocks.SayAttrsClauses | src/renpy_node_editor/core/generator/blocks.py:30-41 | The `at`/`with` attribute list is empty exactly when both are blank; joined, it is the `at` clause followed by the `with` clause. |
| GeneratorBlocks.SayLine | src/renpy_node_editor/core/generator/blocks.py:14-43 | The say line is empty exactly when the stripped text is blank, and is newline-terminated. |
| GeneratorBlocks.SayLineShape | src/renpy_node_editor/core/generator/blocks.py:24-43 | With a speaker: indent, speaker, optional ` expression`, quoted escaped text, ` at X`, then ` with Y`, then a newline. Without a speaker: indent and quoted text only; `at`/`with` are dropped. |
| GeneratorBlocks.SayLineClauses | src/renpy_node_editor/core/generator/blocks.py:39-41 | Appending the joined attributes appends the two clauses in order. |
| GeneratorBlocks.GenerateSay | src/renpy_node_editor/core/generator/blocks.py:14-43 | `generate_say` gives "" exactly when the stripped `text` param is blank, and its output is newline-terminated. |
| GeneratorBlocks.NarrationLine | src/renpy_node_editor/core/generator/blocks.py:46-58 | Empty exactly for blank text; newline-terminated. |
| GeneratorBlocks.NarrationLineShape | src/renpy_node_editor/core/generator/blocks.py:52-58 | Indent, quoted escaped text, optional ` with Y`, newline. |
| GeneratorBlocks.GenerateNarration | src/renpy_node_editor/core/generator/blocks.py:46-58 | "" exactly when the `text` param is blank; newline-terminated. |
| GeneratorBlocks.CenterLine | src/renpy_node_editor/core/generator/blocks.py:483-490 | Empty exactly for blank text; newline-terminated. |
| GeneratorBlocks.CenterLineShape | src/renpy_node_editor/core/generator/blocks.py:483-490 | `centered` followed by the quoted escaped text. |
| GeneratorBlocks.GenerateCenter | src/renpy_node_editor/core/generator/blocks.py:483-490 | "" exactly when the `text` param is blank; newline-terminated. |
| GeneratorBlocks.TextLine | src/renpy_node_editor/core/generator/blocks.py:493-513 | Empty exactly for blank text; newline-terminated. |
| GeneratorBlocks.TextLineShape | src/renpy_node_editor/core/generator/blocks.py:493-513 | `text`, the quoted text, ` xpos X`, then ` ypos Y`, each clause only when given. |
| GeneratorBlocks.GenerateText | src/renpy_node_editor/core/generator/blocks.py:493-513 | "" exactly when the `text` param is blank; newline-terminated. |
| GeneratorBlocks.FallbackChoices | src/renpy_node_editor/core/generator/blocks.py:73-78 | The comma-split fallback gives at most one choice per piece, each with a non-blank text. |
| GeneratorBlocks.FallbackChoice | src/renpy_node_editor/core/generator/blocks.py:78 | A fallback choice's `text` is the stripped piece. |
| GeneratorBlocks.ChoiceBlock | src/renpy_node_editor/core/generator/blocks.py:82-106 | A choice with blank text gives no lines. Otherwise it gives 2 lines, or 3 with a condition: the `if` line, then the quoted text line. The last line is `jump <target>` when the jump is non-empty, else `pass`. All lines are newline-terminated. |
| GeneratorBlocks.ChoicesLinesSnoc | src/renpy_node_editor/core/generator/blocks.py:80-106 | The choices contribute their lines in order. |
| GeneratorBlocks.BlankChoicesSkipped | src/renpy_node_editor/core/generator/blocks.py:92-93 | The menu is unchanged when the choices with blank text are removed first. |
| GeneratorBlocks.QuestionLines | src/renpy_node_editor/core/generator/blocks.py:64-68 | One question line when the stripped question is non-blank, none otherwise. |
| GeneratorBlocks.MenuText | src/renpy_node_editor/core/generator/blocks.py:61-108 | The menu text is newline-terminated. |
| GeneratorBlocks.MenuShape | src/renpy_node_editor/core/generator/blocks.py:61-108 | At most one question line, then always `indent + "menu:"`, then exactly the choices' lines. |
| GeneratorBlocks.AppendChoice | src/renpy_node_editor/core/generator/blocks.py:95-106 | The loop body appends the choice's lines. |
| GeneratorBlocks.AppendChoices | src/renpy_node_editor/core/generator/blocks.py:80-106 | The choice loop appends the lines of every choice, in order. |
| GeneratorBlocks.GenerateMenu | src/renpy_node_editor/core/generator/blocks.py:61-108 | `generate_menu` returns the menu text above. |
| GeneratorBlocks.IndentBody | src/renpy_node_editor/core/generator/blocks.py:118-123 | A body gives one line per `split('\n')` piece: one more than its newlines, so a trailing newline leaves a bare `"\n"` line. |
| GeneratorBlocks.IndentBodyReadsBack | src/renpy_node_editor/core/generator/blocks.py:118-123 | When no piece is blank, removing the prefix and joining gives the body back. |
| GeneratorBlocks.AppendBody | src/renpy_node_editor/core/generator/blocks.py:118-123 | The loop appends exactly those lines. |
| GeneratorBlocks.AppendLine | src/renpy_node_editor/core/generator/blocks.py:119-123 | A non-blank piece gets the prefix and a newline; a blank one becomes `"\n"`. |
| GeneratorBlocks.IndentLineIsNotElse | src/renpy_node_editor/core/generator/blocks.py:119-123 | A prefixed body line is never the `else:` line of the enclosing `if`. |
| GeneratorBlocks.BodyLineIsNotElse | src/renpy_node_editor/core/generator/blocks.py:117-125 | Nor is any line of a rendered body. |
| GeneratorBlocks.IfShape | src/renpy_node_editor/core/generator/blocks.py:111-137 | "" exactly for a blank condition. Otherwise the `if` line comes first. An empty true body gives one `pass` line; with both bodies empty, that line is all. An `else:` line appears exactly when the false branch is non-empty. |
| GeneratorBlocks.AppendBodyOrPass | src/renpy_node_editor/core/generator/blocks.py:117-125 | A non-empty body's lines, or one `pass` line. |
| GeneratorBlocks.GenerateIf | src/renpy_node_editor/core/generator/blocks.py:111-137 | `generate_if` returns the text of the if lines. |
| GeneratorBlocks.GenerateWhile | src/renpy_node_editor/core/generator/blocks.py:140-158 | `generate_while` returns the text of the while lines. |
| GeneratorBlocks.GenerateFor | src/renpy_node_editor/core/generator/blocks.py:161-181 | `generate_for` returns the text of the for lines. |
| GeneratorBlocks.LoopShape | src/renpy_node_editor/core/generator/blocks.py:140-181 | `while` is "" exactly for a blank condition; `for` is "" exactly when the variable or the iterable is blank. Otherwise each is its head line, then the body rule at `indent + INDENT`; an empty while body gives exactly one `pass`. |
| GeneratorBlocks.PythonText | src/renpy_node_editor/core/generator/blocks.py:441-456 | The python block text is newline-terminated. |
| GeneratorBlocks.PythonShape | src/renpy_node_editor/core/generator/blocks.py:441-456 | "" exactly for blank code. Otherwise `python:`, then one line per piece of the code. |
| GeneratorBlocks.GeneratePython | src/renpy_node_editor/core/generator/blocks.py:441-456 | `generate_python` returns that text. |
| GeneratorBlocks.GenerateJump | src/renpy_node_editor/core/generator/blocks.py:184-189 | "" exactly for a blank target; otherwise `jump <target>`. |
| GeneratorBlocks.GenerateCall | src/renpy_node_editor/core/generator/blocks.py:192-197 | "" exactly for a blank label; otherwise `call <label>`. |
| GeneratorBlocks.GenerateReturn | src/renpy_node_editor/core/generator/blocks.py:200-202 | Always the indented `return` line. |
| GeneratorBlocks.SceneLine | src/renpy_node_editor/core/generator/blocks.py:205-219 | The scene line is newline-terminated. |
| GeneratorBlocks.SceneLineShape | src/renpy_node_editor/core/generator/blocks.py:207-219 | `scene` with the background, or `black` when it is blank, then ` onlayer L`, then ` with T`. |
| GeneratorBlocks.GenerateScene | src/renpy_node_editor/core/generator/blocks.py:205-219 | The scene statement is always emitted and newline-terminated. |
| GeneratorBlocks.SceneBackgroundDefault | src/renpy_node_editor/core/generator/blocks.py:207 | A missing background reads as `black`. |
| GeneratorBlocks.ShowLine | src/renpy_node_editor/core/generator/blocks.py:222-253 | Empty exactly for a blank image; newline-terminated. |
| GeneratorBlocks.ShowLineShape | src/renpy_node_editor/core/generator/blocks.py:238-253 | `show`, the image, optional expression, then in order `at`, `behind`, `zorder`, `onlayer`, `with`, each only when given. |
| GeneratorBlocks.GenerateShow | src/renpy_node_editor/core/generator/blocks.py:222-253 | "" exactly when the `character` param is blank; newline-terminated. |
| GeneratorBlocks.HideLine | src/renpy_node_editor/core/generator/blocks.py:256-272 | Empty exactly for a blank image; newline-terminated. |
| GeneratorBlocks.HideLineShape | src/renpy_node_editor/core/generator/blocks.py:256-272 | `hide`, the image, ` onlayer L`, then ` with T`. |
| GeneratorBlocks.GenerateHide | src/renpy_node_editor/core/generator/blocks.py:256-272 | "" exactly when the `character` param is blank; newline-terminated. |
| GeneratorBlocks.GenerateImage | src/renpy_node_editor/core/generator/blocks.py:275-283 | "" exactly when the name or the path is blank; otherwise `image N = "P"`. |
| GeneratorBlocks.PauseLine | src/renpy_node_editor/core/generator/blocks.py:286-293 | The pause line is newline-terminated. |
| GeneratorBlocks.PauseLineShape | src/renpy_node_editor/core/generator/blocks.py:286-293 | `$ renpy.pause(d)` for a numeric duration, else `$ renpy.pause(1.0)`. |
| GeneratorBlocks.GeneratePause | src/renpy_node_editor/core/generator/blocks.py:286-293 | The pause statement is always emitted and newline-terminated. |
| GeneratorBlocks.TransitionName | src/renpy_node_editor/core/generator/blocks.py:298-300 | Never empty: the given transition, or `dissolve` when it is blank. |
| GeneratorBlocks.TransitionDefault | src/renpy_node_editor/core/generator/blocks.py:298 | A missing transition reads as `dissolve`. |
| GeneratorBlocks.GenerateTransition | src/renpy_node_editor/core/generator/blocks.py:296-301 | `with <transition>`. |
| GeneratorBlocks.GenerateWith | src/renpy_node_editor/core/generator/blocks.py:304-309 | `with <transition>`, default `dissolve`. |
| GeneratorBlocks.SoundLine | src/renpy_node_editor/core/generator/blocks.py:312-331 | Empty exactly for a blank file; newline-terminated. |
| GeneratorBlocks.SoundLineShape | src/renpy_node_editor/core/generator/blocks.py:314-331 | `play sound "F"`, then `fadein`, `fadeout` and the loop word in that order. |
| GeneratorBlocks.GenerateSound | src/renpy_node_editor/core/generator/blocks.py:312-331 | "" exactly when `sound_file` is blank; newline-terminated. |
| GeneratorBlocks.MusicLine | src/renpy_node_editor/core/generator/blocks.py:334-355 | Empty exactly for a blank file; newline-terminated. |
| GeneratorBlocks.MusicLineShape | src/renpy_node_editor/core/generator/blocks.py:336-355 | `play music "F"`, `fadein`, `fadeout`, then ` loop` when the loop word is true/1/yes (case-insensitive), else ` noloop`. |
| GeneratorBlocks.GenerateMusic | src/renpy_node_editor/core/generator/blocks.py:334-355 | "" exactly when `music_file` is blank; newline-terminated. |
| GeneratorBlocks.LoopDefaults | src/renpy_node_editor/core/generator/blocks.py:339 | A missing `loop` param means loop for music and no loop clause for sound. |
| GeneratorBlocks.LowerTrue | src/renpy_node_editor/core/generator/blocks.py:339-350 | The default `True` lowers to `true`. |
| GeneratorBlocks.GenerateStopMusic | src/renpy_node_editor/core/generator/blocks.py:358-363 | `stop music`, plus ` fadeout F` when given. |
| GeneratorBlocks.GenerateStopSound | src/renpy_node_editor/core/generator/blocks.py:366-371 | `stop sound`, plus ` fadeout F` when given. |
| GeneratorBlocks.QueueMusicLine | src/renpy_node_editor/core/generator/blocks.py:374-390 | Empty exactly for a blank file; newline-terminated. |
| GeneratorBlocks.QueueMusicLineShape | src/renpy_node_editor/core/generator/blocks.py:374-390 | `queue music "F"`, `fadein`, then the loop word. |
| GeneratorBlocks.GenerateQueueMusic | src/renpy_node_editor/core/generator/blocks.py:374-390 | "" exactly when `music_file` is blank; newline-terminated. |
| GeneratorBlocks.QueueSoundLine | src/renpy_node_editor/core/generator/blocks.py:393-405 | Empty exactly for a blank file; newline-terminated. |
| GeneratorBlocks.QueueSoundLineShape | src/renpy_node_editor/core/generator/blocks.py:393-405 | `queue sound "F"`, then `fadein`. |
| GeneratorBlocks.GenerateQueueSound | src/renpy_node_editor/core/generator/blocks.py:393-405 | "" exactly when `sound_file` is blank; newline-terminated. |
| GeneratorBlocks.GenerateVoice | src/renpy_node_editor/core/generator/blocks.py:474-480 | "" exactly for a blank file; otherwise `voice "F"`. |
| GeneratorBlocks.GenerateSetVar | src/renpy_node_editor/core/generator/blocks.py:408-416 | "" exactly for a blank variable; otherwise `$ v = ` and the formatted value. |
| GeneratorBlocks.GenerateDefault | src/renpy_node_editor/core/generator/blocks.py:419-427 | "" exactly for a blank variable; otherwise `default v = ` and the formatted value. |
| GeneratorBlocks.GenerateDefine | src/renpy_node_editor/core/generator/blocks.py:430-438 | "" exactly for a blank name; otherwise `define n = ` and the formatted value. |
| GeneratorBlocks.SingleQuoteEscapeSafe | src/renpy_node_editor/core/generator/blocks.py:466 | Escaping `'` adds one character per `'` and leaves names without `'` unchanged. |
| GeneratorBlocks.CharacterLine | src/renpy_node_editor/core/generator/blocks.py:459-471 | Empty exactly for a blank name; newline-terminated. |
| GeneratorBlocks.CharacterLineShape | src/renpy_node_editor/core/generator/blocks.py:459-471 | `define n = Character('d')` with `'` escaped, or `Character(None)` without a display name. |
| GeneratorBlocks.GenerateCharacter | src/renpy_node_editor/core/generator/blocks.py:459-471 | "" exactly when the `name` param is blank; newline-terminated. |
| GeneratorBlocks.GeneratorsDomain | src/renpy_node_editor/core/generator/blocks.py:514-542 | The table has an emitter for every type except LABEL, IF, ELIF, ELSE, WHILE, FOR, START, STYLE, EXTEND and INTERJECT. |
| GeneratorBlocks.ChoicesTerminated | src/renpy_node_editor/core/generator/blocks.py:95-106 | Every choice line is newline-terminated. |
| GeneratorBlocks.MenuTerminated | src/renpy_node_editor/core/generator/blocks.py:61-108 | The menu's text ends in a newline or is empty. |
| GeneratorBlocks.PythonTerminated | src/renpy_node_editor/core/generator/blocks.py:441-456 | The python block's text ends in a newline or is empty. |
| GeneratorBlocks.BodyTerminated | src/renpy_node_editor/core/generator/blocks.py:117-125 | Every line of a rendered body is newline-terminated. |
| GeneratorBlocks.IfTerminated | src/renpy_node_editor/core/generator/blocks.py:111-137 | The if text ends in a newline or is empty. |
| GeneratorBlocks.LoopTerminated | src/renpy_node_editor/core/generator/blocks.py:140-181 | The while and for texts end in a newline or are empty. |
| GeneratorBlocks.CompoundTerminated | src/renpy_node_editor/core/generator/blocks.py:111-181 | All three compound texts end in a newline or are empty. |
| GeneratorBlocks.GeneratorsTerminated | src/renpy_node_editor/core/generator/blocks.py:514-542 | Every emitter in the table gives newline-terminated lines or "". |
| GeneratorMain.GenerateBlock | src/renpy_node_editor/core/generator/main.py:15-31 | "" for IF, WHILE and FOR, and for types with neither a table entry nor a LABEL; an unindented `label X:` for a LABEL with a non-blank label, "" otherwise; always newline-terminated or empty. |
| GeneratorMain.GenerateBlockUsesTable | src/renpy_node_editor/core/generator/main.py:21-23 | A type with a table entry gets exactly that emitter's text. |
| GeneratorMain.MarkDecreases | src/renpy_node_editor/core/generator/main.py:45-48 | Marking an unvisited block id shrinks the set of unvisited ids, so the recursion ends on cyclic graphs. |
| GeneratorMain.CompoundText | src/renpy_node_editor/core/generator/main.py:56-106 | An IF, WHILE or FOR whose condition (or variable and iterable) is blank emits nothing; the text is newline-terminated. |
| GeneratorMain.Render | src/renpy_node_editor/core/generator/main.py:53-123 | The text of one visited block ends in a newline or is empty. |
| GeneratorMain.ChainText | src/renpy_node_editor/core/generator/main.py:34-123 | "" for an already visited id and for an id without a block; the walk's text is newline-terminated or empty. The same walk as the older generator's, reading the adjacency as plain ids (`generator_renpy.py:651-729`). |
| GeneratorMain.ContinueText | src/renpy_node_editor/core/generator/main.py:114-121 | The continuation into the successors is newline-terminated or empty. |
| GeneratorMain.ContinueTextSnoc | src/renpy_node_editor/core/generator/main.py:115-121 | Each successor not visited is walked in adjacency order at the same indent, with the same copy of `visited`. |
| GeneratorMain.ChainTextUnfold | src/renpy_node_editor/core/generator/main.py:45-123 | An unvisited id with a block is marked first. An IF takes its true body from the first successor and its false body from the second. WHILE and FOR take the first successor. Branches are rendered at `indent + INDENT`. Any other block is its own code followed by the continuation. |
| GeneratorMain.GenerateBlockChain | src/renpy_node_editor/core/generator/main.py:34-123 | The recursive method returns the walk's text. The older `_generate_block_chain` returns the same text (`generator_renpy.py:651-729`). |
| GeneratorMain.OrdinaryChain | src/renpy_node_editor/core/generator/main.py:107-121 | For an ordinary block: its code, then the continuation. |
| GeneratorMain.DescendChain | src/renpy_node_editor/core/generator/main.py:56-106 | For IF, WHILE and FOR: the compound text with the branch walks at the deeper indent; an IF uses at most two successors and a loop one. |
| GeneratorMain.CompoundCode | src/renpy_node_editor/core/generator/main.py:76-106 | The compound statement is the if, while or for text of its bodies. |
| GeneratorMain.ContinueChain | src/renpy_node_editor/core/generator/main.py:114-121 | The loop over the successors appends the continuation's text. |
| GeneratorMain.ChainLocality | src/renpy_node_editor/core/generator/main.py:34-123 | The walk reads the adjacency only at unvisited ids. |
| GeneratorMain.ContinueLocality | src/renpy_node_editor/core/generator/main.py:114-121 | The same holds for the continuation. |
| GeneratorMain.ExtraSuccessorsIgnored | src/renpy_node_editor/core/generator/main.py:66-74 | Successors beyond the second of an IF, or the first of a loop, change nothing. |
| GeneratorMain.SelfLoopEmittedOnce | src/renpy_node_editor/core/generator/main.py:45-48 | A block whose only successor is itself is emitted once; the cycle is cut. |
| GeneratorMain.OrdinaryStep | src/renpy_node_editor/core/generator/main.py:107-123 | A block that is not IF, WHILE or FOR gives its code followed by the walks of its successors. The walks start with the block marked. |
| GeneratorMain.LeafStep | src/renpy_node_editor/core/generator/main.py:107-123 | An ordinary block without successors gives exactly its own code. |
| GeneratorMain.SingleSuccessorStep | src/renpy_node_editor/core/generator/main.py:107-123 | An ordinary block with one successor gives its code, then the walk from that successor with the block marked. A successor already marked gives nothing. This is the walk with entries read as plain ids, as the older generator reads them (`generator_renpy.py:719-727`). |
| GeneratorMain.ContinueTwo | src/renpy_node_editor/core/generator/main.py:115-121 | The continuation through two successors is the walk from the first followed by the walk from the second, both from the same marks. |
| GeneratorMain.TwoSuccessorsStep | src/renpy_node_editor/core/generator/main.py:115-121 | Both successors of an ordinary block are walked from the same copy of the marks. The second walk does not see the blocks of the first. |
| GeneratorMain.SharedTailEmittedTwice | src/renpy_node_editor/core/generator/main.py:115-121 | In the diamond A → B, A → C, B → D, C → D, the shared block D is emitted after B and again after C. |
| GeneratorMain.UnpackIds | src/renpy_node_editor/core/generator/main.py:61 | As written, unpacking a list of plain ids as pairs succeeds exactly when every id has length 2, and then keeps first characters. |
| GeneratorMain.UnpackIdsCounterexample | src/renpy_node_editor/core/generator/main.py:114-115 | `["block_2"]` cannot be unpacked and `["b2"]` becomes `["b"]`, while the map holds `["block_2"]`. |
| GeneratorMain.ReachContains | src/renpy_node_editor/core/generator/main.py:155-166 | The reached set contains the start ids. |
| GeneratorMain.ReachClosed | src/renpy_node_editor/core/generator/main.py:155-166 | The reached set contains every successor of its members. |
| GeneratorMain.ReachLeast | src/renpy_node_editor/core/generator/main.py:155-166 | It is the least such set. |
| GeneratorMain.ClosedTargets | src/renpy_node_editor/core/generator/main.py:159-166 | A set closed under the stack loop contains all its successors. |
| GeneratorMain.TargetsOfGet | src/renpy_node_editor/core/generator/main.py:162-163 | A listed successor of a member is a target of the set. |
| GeneratorMain.PushUnprocessed | src/renpy_node_editor/core/generator/main.py:163-166 | `processed` grows by the listed successors, and exactly the newly marked ones are pushed. |
| GeneratorMain.DrainStep | src/renpy_node_editor/core/generator/main.py:159-166 | One pop-and-push step keeps the stack invariant. |
| GeneratorMain.DrainStack | src/renpy_node_editor/core/generator/main.py:159-166 | Draining the stack leaves a processed set that is closed under successors and stays within the reachable set. |
| GeneratorMain.MarkReachable | src/renpy_node_editor/core/generator/main.py:155-166 | The stack sweep marks exactly the blocks reachable from the start blocks. |
| GeneratorMain.BlocksText | src/renpy_node_editor/core/generator/main.py:141-144 | A run of block texts ends in a newline or is empty. |
| GeneratorMain.ChainsText | src/renpy_node_editor/core/generator/main.py:147-152 | The walks from the start blocks, each with a fresh visited set at INDENT, in start order. |
| GeneratorMain.SceneTextShape | src/renpy_node_editor/core/generator/main.py:126-175 | The scene text starts with `label <label>:` and ends with a newline; an empty scene is exactly the label line and `    pass` plus an empty line. |
| GeneratorMain.NoStartBlocks | src/renpy_node_editor/core/generator/utils.py:31-42 | There are no start blocks exactly when the scene is empty or, with edges, every block is a target. |
| GeneratorMain.UnreachedExactly | src/renpy_node_editor/core/generator/main.py:168-172 | The sweep emits exactly the blocks not reached, in scene order; reached blocks never. |
| GeneratorMain.BlocksTextSnoc | src/renpy_node_editor/core/generator/main.py:168-172 | One more block appends its text. |
| GeneratorMain.ChainsTextSnoc | src/renpy_node_editor/core/generator/main.py:147-152 | One more start block appends its walk. |
| GeneratorMain.UnreachedSnoc | src/renpy_node_editor/core/generator/main.py:168-169 | One more block is swept exactly when it is unreached. |
| GeneratorMain.AppendBlocks | src/renpy_node_editor/core/generator/main.py:168-172 | The loop appends the unreached blocks' texts. |
| GeneratorMain.AppendChains | src/renpy_node_editor/core/generator/main.py:146-152 | The loop appends the walks from the start blocks. |
| GeneratorMain.UnreachedNone | src/renpy_node_editor/core/generator/main.py:139-144 | Nothing is skipped with an empty skip set. |
| GeneratorMain.GenerateScene | src/renpy_node_editor/core/generator/main.py:126-175 | `generate_scene` returns the scene text: label, walks, unreached blocks or position-sorted fallback, empty line. The older `_generate_scene` returns the same text (`generator_renpy.py:732-779`). |
| GeneratorScript.BlockCharacter | src/renpy_node_editor/core/generator/main.py:187-200 | Only SAY, SHOW, HIDE and CHARACTER blocks name a character. |
| GeneratorScript.ParamStripped | src/renpy_node_editor/core/generator/main.py:190 | A stripped param is already stripped. |
| GeneratorScript.BlockCharacterStripped | src/renpy_node_editor/core/generator/main.py:187-200 | The extracted name is stripped. |
| GeneratorScript.CharactersExactly | src/renpy_node_editor/core/generator/main.py:178-202 | The extracted set is exactly the project's character keys plus the non-blank names that some block of some scene mentions. |
| GeneratorScript.ScenesNamesExactly | src/renpy_node_editor/core/generator/main.py:187-188 | A name comes from some scene's blocks. |
| GeneratorScript.AddName | src/renpy_node_editor/core/generator/main.py:191-192 | A non-blank name is added; a blank one is not. |
| GeneratorScript.AddSceneCharacters | src/renpy_node_editor/core/generator/main.py:188-200 | The block loop adds the scene's names. |
| GeneratorScript.AddNames | src/renpy_node_editor/core/generator/main.py:183-184 | The key loop adds every key. |
| GeneratorScript.AddScenesCharacters | src/renpy_node_editor/core/generator/main.py:187-200 | The scene loop adds all scenes' names. |
| GeneratorScript.ExtractCharacters | src/renpy_node_editor/core/generator/main.py:178-202 | `extract_characters` returns the set above. The older `_extract_characters` returns the same set (`generator_renpy.py:782-806`). |
| GeneratorScript.ImageDefinitions | src/renpy_node_editor/core/generator/main.py:212-213 | The image lines are newline-terminated, and empty exactly for no names. |
| GeneratorScript.CharacterDefinition | src/renpy_node_editor/core/generator/main.py:220-225 | A character definition is one newline-terminated line. |
| GeneratorScript.CharacterDefinitionIsBlockLine | src/renpy_node_editor/core/generator/main.py:220-225 | It is the CHARACTER block's line at indent "". |
| GeneratorScript.CharacterDefinitions | src/renpy_node_editor/core/generator/main.py:219-225 | The character lines are newline-terminated, and empty exactly for no names. |
| GeneratorScript.Section | src/renpy_node_editor/core/generator/main.py:210-226 | A section starts with its heading and is newline-terminated. |
| GeneratorScript.ImageSection | src/renpy_node_editor/core/generator/main.py:210-214 | Empty exactly without images; otherwise the heading and the images sorted by name. |
| GeneratorScript.CharacterSection | src/renpy_node_editor/core/generator/main.py:217-226 | Empty exactly without characters; otherwise the heading and the characters sorted by name. |
| GeneratorScript.DefinitionsText | src/renpy_node_editor/core/generator/main.py:205-228 | The preamble is empty exactly when there are no images and no characters. |
| GeneratorScript.ImageDefinitionsSnoc | src/renpy_node_editor/core/generator/main.py:212-213 | One more name appends its image line. |
| GeneratorScript.CharacterDefinitionsSnoc | src/renpy_node_editor/core/generator/main.py:219-225 | One more name appends its definition. |
| GeneratorScript.AppendImageDefinitions | src/renpy_node_editor/core/generator/main.py:212-213 | The loop appends the image lines. |
| GeneratorScript.DefineCharacter | src/renpy_node_editor/core/generator/main.py:220-225 | The loop body writes the definition. |
| GeneratorScript.AppendCharacterDefinitions | src/renpy_node_editor/core/generator/main.py:219-225 | The loop appends the definitions. |
| GeneratorScript.AppendImageSection | src/renpy_node_editor/core/generator/main.py:210-214 | The section is appended. |
| GeneratorScript.AppendCharacterSection | src/renpy_node_editor/core/generator/main.py:217-226 | The section is appended. |
| GeneratorScript.GenerateDefinitions | src/renpy_node_editor/core/generator/main.py:205-228 | `generate_definitions` returns the preamble. The older `_generate_definitions` returns the same preamble (`generator_renpy.py:809-832`). |
| GeneratorScript.Identifier | src/renpy_node_editor/core/generator/main.py:251 | The length is kept, and no space or `-` is left. A name without either is unchanged. |
| GeneratorScript.PlainIdentifier | src/renpy_node_editor/core/generator/main.py:251 | The two replacements leave a plain name unchanged. |
| GeneratorScript.AutoDefines | src/renpy_node_editor/core/generator/main.py:248-252 | The auto-detected lines are newline-terminated. |
| GeneratorScript.AutoDefinesUndefined | src/renpy_node_editor/core/generator/main.py:248-252 | Defines are written only for names not in `project.characters`, in the given order. |
| GeneratorScript.NarratorIffNoCharacters | src/renpy_node_editor/core/generator/main.py:245-256 | The narrator line is written exactly when the extracted set is empty. |
| GeneratorScript.ScenesText | src/renpy_node_editor/core/generator/main.py:259-260 | The scenes' text is newline-terminated. |
| GeneratorScript.ScenesTextAppend | src/renpy_node_editor/core/generator/main.py:259-260 | Scenes are concatenated in project order. |
| GeneratorScript.ScriptLayout | src/renpy_node_editor/core/generator/main.py:231-262 | The script begins with the two header comment lines. Without images or characters it is the header, the narrator line and the scenes. |
| GeneratorScript.AppendAutoDefines | src/renpy_node_editor/core/generator/main.py:248-252 | The loop appends the auto-detected defines. |
| GeneratorScript.AppendAutoSection | src/renpy_node_editor/core/generator/main.py:245-256 | Appends the auto-detected section, the narrator line or nothing. |
| GeneratorScript.ScenesTextSnoc | src/renpy_node_editor/core/generator/main.py:259-260 | One more scene appends its text. |
| GeneratorScript.AppendScene | src/renpy_node_editor/core/generator/main.py:260 | One scene is appended. |
| GeneratorScript.AppendScenes | src/renpy_node_editor/core/generator/main.py:259-260 | All scenes are appended in order. |
| GeneratorScript.AppendPreamble | src/renpy_node_editor/core/generator/main.py:236-242 | The header, then the definitions. |
| GeneratorScript.GenerateRenpyScript | src/renpy_node_editor/core/generator/main.py:231-262 | `generate_renpy_script` returns the script text. The older `generate_renpy_script` returns the same text (`generator_renpy.py:835-868`). |
| LegacyGenerator.EmptyNotNumeric | src/renpy_node_editor/core/generator_renpy.py:453-456 | `float("")` fails: the empty string is not numeric. |
| LegacyGenerator.LegacyValue | src/renpy_node_editor/core/generator_renpy.py:452-463 | The inline value test gives the value itself or the value in double quotes. |
| LegacyGenerator.LegacyValueAgrees | src/renpy_node_editor/core/generator_renpy.py:444-503 | The inline test equals `format_value` for every value, the empty one included. |
| LegacyGenerator.LegacyLine | src/renpy_node_editor/core/generator_renpy.py:452-463 | Each of the four returns is newline-terminated. |
| LegacyGenerator.LegacyLineValue | src/renpy_node_editor/core/generator_renpy.py:452-463 | Each return is the head, the value text and a newline. |
| LegacyGenerator.LegacyLineAgrees | src/renpy_node_editor/core/generator_renpy.py:444-503 | Each line is the package's line with `format_value`. |
| LegacyGenerator.LegacySetVar | src/renpy_node_editor/core/generator_renpy.py:444-463 | "" exactly for a blank variable. |
| LegacyGenerator.LegacyDefault | src/renpy_node_editor/core/generator_renpy.py:466-483 | "" exactly for a blank variable. |
| LegacyGenerator.LegacyDefine | src/renpy_node_editor/core/generator_renpy.py:486-503 | "" exactly for a blank name. |
| LegacyGenerator.LegacySetVarAgrees | src/renpy_node_editor/core/generator_renpy.py:444-463 | `_gen_set_var` equals `generate_set_var`. |
| LegacyGenerator.LegacyDefaultAgrees | src/renpy_node_editor/core/generator_renpy.py:466-483 | `_gen_default` equals `generate_default`. |
| LegacyGenerator.LegacyDefineAgrees | src/renpy_node_editor/core/generator_renpy.py:486-503 | `_gen_define` equals `generate_define`. |
| LegacyGenerator.LegacyGenerateBlock | src/renpy_node_editor/core/generator_renpy.py:579-648 | The chain of type tests gives "" for IF, WHILE and FOR. |
| LegacyGenerator.LegacyBlockAgrees | src/renpy_node_editor/core/generator_renpy.py:579-648 | The chain of type tests and the package's table give the same text for every block and indent. |
| Serialization.DecodeAll | src/renpy_node_editor/core/serialization.py:108-112 | A list reads exactly when every element reads, element by element. |
| Serialization.DecodeAllRoundTrip | src/renpy_node_editor/core/serialization.py:57-59 | A list of values that each round-trip round-trips. |
| Serialization.StrListRoundTrip | src/renpy_node_editor/core/serialization.py:29 | A list of ids round-trips. |
| Serialization.BlockRoundTrip | src/renpy_node_editor/core/serialization.py:22-30 | `_block_from_dict(_block_to_dict(b))` is `b`: id, type by its member name, params, x, y and port_ids. |
| Serialization.BlockDefaults | src/renpy_node_editor/core/serialization.py:77-85 | Missing params, x, y and port_ids read as `{}`, 0.0, 0.0 and `[]`. |
| Serialization.BlockRequired | src/renpy_node_editor/core/serialization.py:79-80 | A missing id or type, or an unknown type name, fails the read. |
| Serialization.PortRoundTrip | src/renpy_node_editor/core/serialization.py:33-40 | A port's dictionary reads back as the port, every field included. |
| Serialization.ConnectionRoundTrip | src/renpy_node_editor/core/serialization.py:43-49 | A connection's dictionary reads back as the connection. |
| Serialization.LastIndexOfSameIds | src/renpy_node_editor/core/serialization.py:116 | Changing only port_ids keeps the id lookup. |
| Serialization.BlockMap | src/renpy_node_editor/core/serialization.py:116 | `{b.id: b}` maps each id to its last block. |
| Serialization.Register | src/renpy_node_editor/core/serialization.py:117-120 | Registering a port changes no block id. |
| Serialization.Repaired | src/renpy_node_editor/core/serialization.py:117-120 | Nor does registering all ports. |
| Serialization.OwnerIsLast | src/renpy_node_editor/core/serialization.py:116 | The block the map keeps is the last with its id. |
| Serialization.OwnedPortIdsSnoc | src/renpy_node_editor/core/serialization.py:117-120 | One more port adds its id to its owner's set. |
| Serialization.RegisterAt | src/renpy_node_editor/core/serialization.py:117-120 | One port id is appended to its owner's `port_ids` only when absent. Nothing else changes, and no duplicate is created. |
| Serialization.RepairedAt | src/renpy_node_editor/core/serialization.py:117-120 | After the loop, the owner lists exactly its old ids plus its ports' ids, with no new duplicate. Ports whose owner is missing change nothing. |
| Serialization.RepairedListsPorts | src/renpy_node_editor/core/serialization.py:117-120 | After the repair, every port with an owner is listed by it. |
| Serialization.RepairedUnchanged | src/renpy_node_editor/core/serialization.py:117-120 | When every port is already listed, the repair changes nothing. |
| Serialization.RepairedIdempotent | src/renpy_node_editor/core/serialization.py:117-120 | Repairing twice is repairing once. |
| Serialization.RepairedSnoc | src/renpy_node_editor/core/serialization.py:117-120 | The repair registers ports in order. |
| Serialization.RegisterPorts | src/renpy_node_editor/core/serialization.py:117-120 | The loop over ports performs the repair. |
| Serialization.SceneFromDict | src/renpy_node_editor/core/serialization.py:107-129 | `_scene_from_dict` fails exactly when the record cannot be read; otherwise it is a new scene holding the read record. |
| Serialization.SceneListsRoundTrip | src/renpy_node_editor/core/serialization.py:52-60 | A scene's three lists round-trip. |
| Serialization.SceneDictFields | src/renpy_node_editor/core/serialization.py:52-60 | A scene's dictionary stores each field under its key. |
| Serialization.SceneRoundTrip | src/renpy_node_editor/core/serialization.py:52-60 | A scene reads back as itself with its port_ids repaired. |
| Serialization.SceneRoundTripExact | src/renpy_node_editor/core/serialization.py:107-129 | A scene with every port listed by its owner reads back unchanged, and so does every scene that was itself read. |
| Serialization.SceneDefaults | src/renpy_node_editor/core/serialization.py:122-126 | Missing name, label and lists read as "", "" and `[]`. |
| Serialization.Records | src/renpy_node_editor/core/serialization.py:71 | The scenes' records, in order. |
| Serialization.ProjectFromDict | src/renpy_node_editor/core/serialization.py:132-145 | `project_from_dict` fails exactly when the record cannot be read; otherwise it is a new project holding it, with empty images and characters. |
| Serialization.ScenesRoundTrip | src/renpy_node_editor/core/serialization.py:63-75 | The scenes read back in order, each with its port_ids repaired. |
| Serialization.ProjectDictFields | src/renpy_node_editor/core/serialization.py:63-75 | The project dictionary stores name, variables and scenes under their keys. |
| Serialization.ProjectRoundTrip | src/renpy_node_editor/core/serialization.py:63-75 | A project reads back with its name, variables and scene order kept. |
| Serialization.ReloadedUnchanged | src/renpy_node_editor/core/serialization.py:117-120 | Scenes whose ports are all listed are unchanged by the repair. |
| Serialization.ProjectRoundTripExact | src/renpy_node_editor/core/serialization.py:132-145 | Such a project reads back exactly. |
| Serialization.ProjectDefaults | src/renpy_node_editor/core/serialization.py:139 | An empty dictionary reads as a project named `Unnamed` with no variables and no scenes. |

## Left out

- **Out of scope.** The Qt interface, settings, the runner, the application
  controller and the translation cache are not part of this model.
  `save_project` and `load_project` are file I/O around the modelled
  dictionary functions, so they are left out as well.
- **JSON menu choices.** Decoding a JSON string of menu choices is foreign
  parsing: a string is always read through the comma-separated fallback.
  List and dict choices are modelled as already parsed.
- **Non-string choices.** A menu choice that is neither a string nor a
  dictionary (a number, say) gives no lines in the model. The source would
  write its `str()`.
- Model.GetStr: a parameter stored with a non-string value reads as the
  default. In the source, `.strip()` on it would raise.
- GeneratorBlocks.GeneratePause: a duration stored as a number, not a string,
  reads as the default `1.0`. The source would write the number itself, since
  `float()` accepts it and the value is not stripped.
- Serialization.SceneFromDict: a value of the wrong kind fails the whole read
  (`None`). The source would raise or store the value unchecked.
- **Text functions.** `lower` is ASCII only; that is enough for the
  `true`/`1`/`yes` test. `strip` uses Python's whitespace set. `float()` is
  modelled by its accepted syntax (sign, digits with `_`, point, exponent,
  `inf`/`nan`, surrounding whitespace). Non-ASCII decimal digits, which
  `float()` accepts, are read as non-numeric. The three members below are the
  ones this changes.
- GeneratorBlocks.GeneratePause: on a duration written with non-ASCII decimal
  digits, the model writes `$ renpy.pause(1.0)`. The source writes the value.
- GeneratorUtils.FormatValue: a value written with non-ASCII decimal digits is
  quoted. The source writes it bare.
- LegacyGenerator.LegacyValue: the same holds for the older generator's inline
  test (`generator_renpy.py:452-463`).
- **Positions.** `x` and `y` are `real`, used only as sort keys; floating-point
  special values are not modelled.
- Model.Scene.AddPort: the owner's `port_ids` is updated by replacing the block
  value in `blocks`. Aliasing of a block object stored elsewhere is not
  modelled, and the owner is the first block with the id.
- Serialization.RegisterPorts: on load, as in the source's `{b.id: b}` map, the
  owner is the last block with the id.
- **Visited sets** are passed as values. The source copies them (`visited.copy()`)
  at every recursive call, so there is no sharing to model.
- Serialization.ProjectFromDict: images and characters start empty, since the
  project file never stores them.
- **Older generator.** Its `_gen_*` emitters other than set_var, default and
  define are the package emitters expression for expression. So are its
  adjacency builder, start-block search, traversal, scene text, character
  extraction, definitions and script assembly, with the adjacency read as
  plain ids. The model states them once, in the package modules, and the
  equivalence lemmas cover the parts that differ. Rows above cite both
  sources.
- **Emitter contracts.** Each `Generate*` emitter's contract states its
  emptiness rule and that its output is newline-terminated. The exact line is
  stated by the matching `...Shape` lemma about the line builder it calls with
  the stripped parameters.

## Findings

| source | as written | input that shows it | evidently intended | confidence | as-written member | corrected member |
|---|---|---|---|---|---|---|
| src/renpy_node_editor/core/generator/main.py:61 | The traversal unpacks each adjacency entry as an `(id, distance)` pair (also lines 82, 97, 115 and 163). `get_block_connections` stores plain id strings, so each id string is unpacked as two characters. | A scene with a connection from `block_1` to `block_2`: unpacking `"block_2"` raises ValueError. A two-character id `"b2"` is read as `"b"`. | There are two candidate intents. The docstrings (`main.py:42-43,113-114`) describe `(id, distance)` pairs sorted shortest first, which `get_block_connections` would have to build. The older generator uses plain ids in connection order (`generator_renpy.py:673,720`). The corrected walk follows the older generator. | not executed | GeneratorMain.UnpackIdsCounterexample | GeneratorMain.SingleSuccessorStep |
