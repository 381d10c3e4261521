/** The scene and project assembly of the generator: the per-block dispatch,
    the recursive walk along the block graph with a visited set that cuts
    cycles, the scene text with its sweep for blocks no walk reached, the
    characters the script mentions, the definitions preamble and the whole
    script.

    The adjacency is the map of plain block ids built by
    `get_block_connections`; the traversal unpacks each entry as an
    `(id, distance)` pair, which the finding `UnpackIds` is about. */
module GeneratorMain {
  import opened Wrappers
  import opened Seqs
  import opened Text
  import opened Model
  import opened GeneratorUtils
  import opened GeneratorBlocks

  // ---------------------------------------------------------------------
  // One block

  /** The types `generate_block` leaves to the traversal or ignores. */
  predicate Silent(t: BlockType) {
    t in {IF, WHILE, FOR, ELIF, ELSE, START, STYLE, EXTEND, INTERJECT}
  }

  /** `generate_block`: the table's emitter for the block's type; a label
      line for a LABEL block with a non-blank label; nothing for the
      control-flow blocks or any other type. */
  function GenerateBlock(b: Block, indent: string): (r: string)
    ensures Silent(b.kind) ==> r == ""
    ensures b.kind == LABEL ==>
      (r == (if Param(b, "label", "") != "" then "label " + Param(b, "label", "") + ":\n" else ""))
    ensures Terminated(r)
  {
    if b.kind in {IF, WHILE, FOR} then ""
    else match Generators(b.kind)
      case Some(generator) =>
        GeneratorsTerminated(b.kind, b, indent);
        generator(b, indent)
      case None =>
        GeneratorsDomain(b.kind);
        if b.kind == LABEL && Param(b, "label", "") != "" then "label " + Param(b, "label", "") + ":\n"
        else ""
  }

  /** Every block type with an emitter is dispatched to it. */
  lemma GenerateBlockUsesTable(b: Block, indent: string)
    requires Generators(b.kind).Some?
    ensures GenerateBlock(b, indent) == Generators(b.kind).value(b, indent)
  {
    GeneratorsDomain(b.kind);
  }

  // ---------------------------------------------------------------------
  // The walk along the graph

  function BlockIds(blocks: seq<Block>): set<string> {
    set b | b in blocks :: b.id
  }

  /** Marking an unmarked block id leaves fewer ids to mark: the measure that
      makes the walk terminate on cyclic graphs. */
  lemma MarkDecreases(ids: set<string>, visited: set<string>, id: string)
    requires id in ids && id !in visited
    ensures |ids - (visited + {id})| < |ids - visited|
  {
    assert ids - (visited + {id}) < ids - visited by {
      assert id in ids - visited;
    }
    ProperSubsetCard(ids - (visited + {id}), ids - visited);
  }

  /** An IF or WHILE block with a non-blank condition, or a FOR block with
      a non-blank variable and iterable: the blocks whose walk descends into
      their successors as bodies. */
  predicate Descends(b: Block) {
    || (b.kind in {IF, WHILE} && Param(b, "condition", "") != "")
    || (b.kind == FOR && Param(b, "variable", "") != "" && Param(b, "iterable", "") != "")
  }

  /** The statement of an IF, WHILE or FOR block around the walks of its
      bodies: nothing when its header is blank. */
  function CompoundText(b: Block, indent: string, first: string, second: string): (r: string)
    ensures b.kind in {IF, WHILE, FOR} && !Descends(b) ==> r == ""
    ensures Terminated(r)
  {
    CompoundTerminated(Param(b, "condition", ""), Param(b, "variable", ""), Param(b, "iterable", ""),
                       indent, first, second);
    if b.kind == IF then IfText(b, indent, first, second)
    else if b.kind == WHILE then WhileText(b, indent, first)
    else ForText(b, indent, first)
  }

  /** The text of one visited block from the walks below it: the IF, WHILE
      and FOR statements around their bodies, and the code of any other
      block followed by its continuation. */
  function Render(b: Block, indent: string, first: string, second: string, rest: string): (r: string)
    requires Terminated(rest)
    ensures Terminated(r)
  {
    if b.kind in {IF, WHILE, FOR} then CompoundText(b, indent, first, second)
    else
      TerminatedAppend(GenerateBlock(b, indent), rest);
      GenerateBlock(b, indent) + rest
  }

  /** `generate_block_chain(scene, id, connections_map, visited, indent)`:
      nothing for an id already visited or naming no block; otherwise the
      id is marked first. An IF block renders its first successor as the
      true body and its second as the false body, both one level deeper
      and each with its own copy of the marks; WHILE and FOR render their
      first successor as the body; none of the three descends when its
      header is blank, and none continues further. Any other block gives
      its own code followed by the walks of its unmarked successors, in
      adjacency order, at the same indent. */
  function ChainText(blocks: seq<Block>, m: map<string, seq<string>>, id: string, visited: set<string>,
                     indent: string): (r: string)
    ensures id in visited ==> r == ""
    ensures LookupBlock(blocks, id).None? ==> r == ""
    ensures Terminated(r)
    decreases |BlockIds(blocks) - visited|, 1, 0
  {
    if id in visited then ""
    else
      var found := LookupBlock(blocks, id);
      if found.None? then ""
      else
        var b := found.value;
        var seen := visited + {id};
        MarkDecreases(BlockIds(blocks), visited, id);
        var next := Get(m, b.id);
        var deeper := indent + INDENT;
        var first := if Descends(b) && |next| >= 1 then ChainText(blocks, m, next[0], seen, deeper) else "";
        var second := if Descends(b) && b.kind == IF && |next| >= 2 then ChainText(blocks, m, next[1], seen, deeper) else "";
        var rest := if b.kind in {IF, WHILE, FOR} then "" else ContinueText(blocks, m, next, seen, indent);
        Render(b, indent, first, second, rest)
  }

  /** The continuation of an ordinary block: the walks of the successors in
      `next` that are not marked in `seen`, in order, each with its own copy
      of the marks. */
  function ContinueText(blocks: seq<Block>, m: map<string, seq<string>>, next: seq<string>, seen: set<string>,
                        indent: string): (r: string)
    ensures Terminated(r)
    decreases |BlockIds(blocks) - seen| + 1, 0, |next|
  {
    if next == [] then ""
    else
      var last := next[|next| - 1];
      var init := ContinueText(blocks, m, next[..|next| - 1], seen, indent);
      var walk := if last !in seen then ChainText(blocks, m, last, seen, indent) else "";
      TerminatedAppend(init, walk);
      init + walk
  }

  lemma {:induction false} ContinueTextSnoc(blocks: seq<Block>, m: map<string, seq<string>>, next: seq<string>,
                                            i: nat, seen: set<string>, indent: string)
    requires i < |next|
    ensures ContinueText(blocks, m, next[..i + 1], seen, indent)
      == ContinueText(blocks, m, next[..i], seen, indent)
         + (if next[i] !in seen then ChainText(blocks, m, next[i], seen, indent) else "")
  {
    assert next[..i + 1][..i] == next[..i];
  }

  /** One step of the walk from an unmarked block. */
  lemma ChainTextUnfold(blocks: seq<Block>, m: map<string, seq<string>>, id: string, visited: set<string>,
                        indent: string)
    requires id !in visited && LookupBlock(blocks, id).Some?
    ensures var b := LookupBlock(blocks, id).value;
      var seen := visited + {id};
      var next := Get(m, b.id);
      var first := if Descends(b) && |next| >= 1 then ChainText(blocks, m, next[0], seen, indent + INDENT) else "";
      var second := if Descends(b) && b.kind == IF && |next| >= 2 then ChainText(blocks, m, next[1], seen, indent + INDENT) else "";
      var rest := if b.kind in {IF, WHILE, FOR} then "" else ContinueText(blocks, m, next, seen, indent);
      ChainText(blocks, m, id, visited, indent) == Render(b, indent, first, second, rest)
  {
  }

  /** `"".join(lines + [code])` is `"".join(lines) + code`. */
  lemma ConcatSnoc(lines: seq<string>, code: string)
    ensures Concat(lines + [code]) == Concat(lines) + code
  {
    assert (lines + [code])[..|lines|] == lines;
  }

  /** One appended line keeps `"".join(out)` equal to a fixed head followed
      by the text so far. */
  lemma ConcatStep(head: seq<string>, out: seq<string>, prev: string, code: string)
    requires Concat(out) == Concat(head) + prev
    ensures Concat(out + [code]) == Concat(head) + (prev + code)
  {
    ConcatSnoc(out, code);
    AppendAssoc(Concat(head), prev, code);
  }

  /** `generate_block_chain`. The marks are a value here: every caller hands
      the walk a fresh copy of its set, so no caller sees the marks a walk
      adds. */
  method GenerateBlockChain(scene: Scene, startId: string, m: map<string, seq<string>>, visited: set<string>,
                            indent: string) returns (r: string)
    ensures r == ChainText(scene.blocks, m, startId, visited, indent)
    decreases |BlockIds(scene.blocks) - visited|, 1, 0
  {
    hide GenerateBlock, ChainText, ContinueText, CompoundText;
    if startId in visited {
      return "";
    }
    var seen := visited + {startId};
    var found := scene.FindBlock(startId);
    if found.None? {
      return "";
    }
    var b := found.value;
    MarkDecreases(BlockIds(scene.blocks), visited, startId);
    ChainTextUnfold(scene.blocks, m, startId, visited, indent);
    var next := Get(m, b.id);
    if b.kind == IF || b.kind == WHILE || b.kind == FOR {
      r := DescendChain(scene, b, next, m, seen, indent);
    } else {
      r := OrdinaryChain(scene, b, next, m, seen, indent);
    }
  }

  /** The branch of `generate_block_chain` for any other block: its own
      code, when there is any, and then the continuation loop. */
  method OrdinaryChain(scene: Scene, b: Block, next: seq<string>, m: map<string, seq<string>>, seen: set<string>,
                       indent: string) returns (r: string)
    ensures r == GenerateBlock(b, indent) + ContinueText(scene.blocks, m, next, seen, indent)
    decreases |BlockIds(scene.blocks) - seen| + 1, 0, 1
  {
    hide GenerateBlock, ChainText, ContinueText;
    var lines: seq<string> := [];
    var code := GenerateBlock(b, indent);
    if code != "" {
      ConcatSnoc(lines, code);
      lines := lines + [code];
    }
    assert Concat(lines) == code;
    lines := ContinueChain(scene, lines, next, m, seen, indent);
    r := Concat(lines);
  }

  /** The IF, WHILE and FOR branches of `generate_block_chain`: the bodies
      are walked one level deeper from copies of the marks, and only when
      the header is not blank. */
  method DescendChain(scene: Scene, b: Block, next: seq<string>, m: map<string, seq<string>>, seen: set<string>,
                      indent: string) returns (r: string)
    requires b.kind in {IF, WHILE, FOR}
    ensures r == CompoundText(b, indent,
      (if Descends(b) && |next| >= 1 then ChainText(scene.blocks, m, next[0], seen, indent + INDENT) else ""),
      (if Descends(b) && b.kind == IF && |next| >= 2 then ChainText(scene.blocks, m, next[1], seen, indent + INDENT) else ""))
    decreases |BlockIds(scene.blocks) - seen| + 1, 0, 0
  {
    hide GenerateBlock, ChainText, ContinueText, CompoundText;
    var lines: seq<string> := [];
    if Descends(b) {
      var first := "";
      var second := "";
      if |next| >= 1 {
        first := GenerateBlockChain(scene, next[0], m, seen, indent + INDENT);
      }
      if b.kind == IF && |next| >= 2 {
        second := GenerateBlockChain(scene, next[1], m, seen, indent + INDENT);
      }
      var code := CompoundCode(b, indent, first, second);
      ConcatSnoc(lines, code);
      lines := lines + [code];
    }
    r := Concat(lines);
  }

  /** The `generate_if`, `generate_while` or `generate_for` call of an IF,
      WHILE or FOR block. */
  method CompoundCode(b: Block, indent: string, first: string, second: string) returns (code: string)
    requires b.kind in {IF, WHILE, FOR}
    ensures code == CompoundText(b, indent, first, second)
  {
    if b.kind == IF {
      code := GenerateIf(b, indent, first, second);
    } else if b.kind == WHILE {
      code := GenerateWhile(b, indent, first);
    } else {
      code := GenerateFor(b, indent, first);
    }
  }

  /** The continuation loop of `generate_block_chain`: the walk of every
      unmarked successor, in order, each from a copy of the marks, with
      non-empty walks appended to the lines. */
  method ContinueChain(scene: Scene, lines: seq<string>, next: seq<string>, m: map<string, seq<string>>,
                       seen: set<string>, indent: string) returns (out: seq<string>)
    ensures Concat(out) == Concat(lines) + ContinueText(scene.blocks, m, next, seen, indent)
    decreases |BlockIds(scene.blocks) - seen| + 1, 0, 0
  {
    assert ContinueText(scene.blocks, m, next[..0], seen, indent) == "";
    hide GenerateBlock, ChainText, ContinueText;
    out := lines;
    var i := 0;
    while i < |next|
      invariant 0 <= i <= |next|
      invariant Concat(out) == Concat(lines) + ContinueText(scene.blocks, m, next[..i], seen, indent)
    {
      var nextId := next[i];
      ContinueTextSnoc(scene.blocks, m, next, i, seen, indent);
      ghost var done := ContinueText(scene.blocks, m, next[..i], seen, indent);
      if nextId !in seen {
        var nextCode := GenerateBlockChain(scene, nextId, m, seen, indent);
        if nextCode != "" {
          ConcatStep(lines, out, done, nextCode);
          out := out + [nextCode];
        } else {
          assert done + nextCode == done;
        }
      } else {
        assert done + "" == done;
      }
      i := i + 1;
    }
    assert next[..|next|] == next;
  }

  /** The walk reads the adjacency entries of unmarked blocks only: two maps
      that agree on every id outside the marks give the same text. */
  lemma {:induction false} ChainLocality(blocks: seq<Block>, m1: map<string, seq<string>>,
                                         m2: map<string, seq<string>>, id: string, visited: set<string>,
                                         indent: string)
    requires forall k :: k !in visited ==> Get(m1, k) == Get(m2, k)
    ensures ChainText(blocks, m1, id, visited, indent) == ChainText(blocks, m2, id, visited, indent)
    decreases |BlockIds(blocks) - visited|, 1, 0
  {
    if id !in visited && LookupBlock(blocks, id).Some? {
      var b := LookupBlock(blocks, id).value;
      var seen := visited + {id};
      MarkDecreases(BlockIds(blocks), visited, id);
      var next := Get(m1, id);
      assert Get(m2, id) == next;
      var deeper := indent + INDENT;
      var first := if Descends(b) && |next| >= 1 then ChainText(blocks, m1, next[0], seen, deeper) else "";
      var second := if Descends(b) && b.kind == IF && |next| >= 2 then ChainText(blocks, m1, next[1], seen, deeper) else "";
      var rest := if b.kind in {IF, WHILE, FOR} then "" else ContinueText(blocks, m1, next, seen, indent);
      if Descends(b) && |next| >= 1 {
        ChainLocality(blocks, m1, m2, next[0], seen, deeper);
      }
      if Descends(b) && b.kind == IF && |next| >= 2 {
        ChainLocality(blocks, m1, m2, next[1], seen, deeper);
      }
      if !(b.kind in {IF, WHILE, FOR}) {
        ContinueLocality(blocks, m1, m2, next, seen, indent);
      }
      ChainTextUnfold(blocks, m1, id, visited, indent);
      ChainTextUnfold(blocks, m2, id, visited, indent);
      assert ChainText(blocks, m1, id, visited, indent) == Render(b, indent, first, second, rest);
      assert ChainText(blocks, m2, id, visited, indent) == Render(b, indent, first, second, rest);
    }
  }

  lemma {:induction false} ContinueLocality(blocks: seq<Block>, m1: map<string, seq<string>>,
                                            m2: map<string, seq<string>>, next: seq<string>, seen: set<string>,
                                            indent: string)
    requires forall k :: k !in seen ==> Get(m1, k) == Get(m2, k)
    ensures ContinueText(blocks, m1, next, seen, indent) == ContinueText(blocks, m2, next, seen, indent)
    decreases |BlockIds(blocks) - seen| + 1, 0, |next|
  {
    if next != [] {
      ContinueLocality(blocks, m1, m2, next[..|next| - 1], seen, indent);
      ChainLocality(blocks, m1, m2, next[|next| - 1], seen, indent);
    }
  }

  /** An IF block reads only its first two successors and a WHILE or FOR
      block only its first: further successors change nothing. */
  lemma ExtraSuccessorsIgnored(blocks: seq<Block>, m: map<string, seq<string>>, id: string, visited: set<string>,
                               indent: string, extra: seq<string>)
    requires LookupBlock(blocks, id).Some?
    requires var k := LookupBlock(blocks, id).value.kind; k == IF || k == WHILE || k == FOR
    requires var keep := if LookupBlock(blocks, id).value.kind == IF then 2 else 1; |Get(m, id)| >= keep
    ensures var keep := if LookupBlock(blocks, id).value.kind == IF then 2 else 1;
      ChainText(blocks, m[id := Get(m, id)[..keep] + extra], id, visited, indent)
      == ChainText(blocks, m, id, visited, indent)
  {
    var b := LookupBlock(blocks, id).value;
    var keep := if b.kind == IF then 2 else 1;
    var next := Get(m, id);
    var m2 := m[id := next[..keep] + extra];
    if id !in visited {
      var seen := visited + {id};
      var next2 := Get(m2, id);
      assert next2 == next[..keep] + extra;
      assert next2[0] == next[0];
      forall k | k !in seen ensures Get(m2, k) == Get(m, k) {
      }
      var deeper := indent + INDENT;
      var first := if Descends(b) then ChainText(blocks, m, next[0], seen, deeper) else "";
      var second := if Descends(b) && b.kind == IF then ChainText(blocks, m, next[1], seen, deeper) else "";
      ChainLocality(blocks, m2, m, next[0], seen, deeper);
      if b.kind == IF {
        assert next2[1] == next[1];
        ChainLocality(blocks, m2, m, next[1], seen, deeper);
      }
      ChainTextUnfold(blocks, m, id, visited, indent);
      ChainTextUnfold(blocks, m2, id, visited, indent);
      assert ChainText(blocks, m, id, visited, indent) == Render(b, indent, first, second, "");
      assert ChainText(blocks, m2, id, visited, indent) == Render(b, indent, first, second, "");
    }
  }

  /** A block whose only successor is itself is emitted once: the mark stops
      the walk before it goes round the loop. */
  lemma SelfLoopEmittedOnce(blocks: seq<Block>, m: map<string, seq<string>>, id: string, visited: set<string>,
                            indent: string)
    requires id !in visited && LookupBlock(blocks, id).Some?
    requires !(LookupBlock(blocks, id).value.kind in {IF, WHILE, FOR})
    requires Get(m, id) == [id]
    ensures ChainText(blocks, m, id, visited, indent) == GenerateBlock(LookupBlock(blocks, id).value, indent)
  {
    var seen := visited + {id};
    assert ContinueText(blocks, m, [id], seen, indent) == "" by {
      assert [id][..0] == [];
    }
  }

  /** The walk from an unmarked ordinary block is its code followed by the
      continuation through its successors. */
  lemma OrdinaryStep(blocks: seq<Block>, m: map<string, seq<string>>, id: string, visited: set<string>,
                     indent: string)
    requires id !in visited && LookupBlock(blocks, id).Some?
    requires !(LookupBlock(blocks, id).value.kind in {IF, WHILE, FOR})
    ensures ChainText(blocks, m, id, visited, indent)
      == GenerateBlock(LookupBlock(blocks, id).value, indent) + ContinueText(blocks, m, Get(m, id), visited + {id}, indent)
  {
    ChainTextUnfold(blocks, m, id, visited, indent);
  }

  /** An unmarked ordinary block with a single successor gives its own code
      followed by the walk from that successor with the block marked; a
      successor already marked (the block itself, say) gives nothing. */
  lemma SingleSuccessorStep(blocks: seq<Block>, m: map<string, seq<string>>, id: string, next: string,
                            visited: set<string>, indent: string)
    requires id !in visited && LookupBlock(blocks, id).Some?
    requires !(LookupBlock(blocks, id).value.kind in {IF, WHILE, FOR})
    requires Get(m, id) == [next]
    ensures ChainText(blocks, m, id, visited, indent)
      == GenerateBlock(LookupBlock(blocks, id).value, indent) + ChainText(blocks, m, next, visited + {id}, indent)
  {
    var seen := visited + {id};
    ContinueTextSnoc(blocks, m, [next], 0, seen, indent);
    assert [next][..0] == [] && [next][..1] == [next];
    assert ContinueText(blocks, m, [next], seen, indent) == ChainText(blocks, m, next, seen, indent);
    OrdinaryStep(blocks, m, id, visited, indent);
  }

  /** An unmarked ordinary block without successors gives its own code. */
  lemma LeafStep(blocks: seq<Block>, m: map<string, seq<string>>, id: string, visited: set<string>, indent: string)
    requires id !in visited && LookupBlock(blocks, id).Some?
    requires !(LookupBlock(blocks, id).value.kind in {IF, WHILE, FOR})
    requires Get(m, id) == []
    ensures ChainText(blocks, m, id, visited, indent) == GenerateBlock(LookupBlock(blocks, id).value, indent)
  {
  }

  /** The continuation through two successors is the walk from each, both
      from the same marks. */
  lemma ContinueTwo(blocks: seq<Block>, m: map<string, seq<string>>, x: string, y: string, seen: set<string>,
                    indent: string)
    ensures ContinueText(blocks, m, [x, y], seen, indent)
      == ChainText(blocks, m, x, seen, indent) + ChainText(blocks, m, y, seen, indent)
  {
    var next := [x, y];
    var walkX := ChainText(blocks, m, x, seen, indent);
    var walkY := ChainText(blocks, m, y, seen, indent);
    ContinueTextSnoc(blocks, m, next, 0, seen, indent);
    assert next[..0] == [];
    assert (if x !in seen then walkX else "") == walkX;
    assert ContinueText(blocks, m, next[..1], seen, indent) == walkX;
    ContinueTextSnoc(blocks, m, next, 1, seen, indent);
    assert next[..2] == next;
    assert (if y !in seen then walkY else "") == walkY;
  }

  /** An unmarked ordinary block with two successors gives its own code
      followed by the walks from both successors, each starting from the
      same marks: the second walk does not see the blocks of the first. */
  lemma TwoSuccessorsStep(blocks: seq<Block>, m: map<string, seq<string>>, id: string, x: string, y: string,
                          visited: set<string>, indent: string)
    requires id !in visited && LookupBlock(blocks, id).Some?
    requires !(LookupBlock(blocks, id).value.kind in {IF, WHILE, FOR})
    requires Get(m, id) == [x, y]
    ensures ChainText(blocks, m, id, visited, indent)
      == GenerateBlock(LookupBlock(blocks, id).value, indent)
         + ChainText(blocks, m, x, visited + {id}, indent) + ChainText(blocks, m, y, visited + {id}, indent)
  {
    ContinueTwo(blocks, m, x, y, visited + {id}, indent);
    OrdinaryStep(blocks, m, id, visited, indent);
    AppendAssoc(GenerateBlock(LookupBlock(blocks, id).value, indent), ChainText(blocks, m, x, visited + {id}, indent),
                ChainText(blocks, m, y, visited + {id}, indent));
  }

  /** Each walk of a successor gets its own copy of the marks, so in the
      diamond A -> B, A -> C, B -> D, C -> D of ordinary blocks the shared
      tail D is emitted once after B and again after C. */
  lemma SharedTailEmittedTwice(blocks: seq<Block>, m: map<string, seq<string>>, a: Block, b: Block, c: Block,
                               d: Block, visited: set<string>, indent: string)
    requires a.id != b.id && a.id != c.id && a.id != d.id && b.id != c.id && b.id != d.id && c.id != d.id
    requires a.id !in visited && b.id !in visited && c.id !in visited && d.id !in visited
    requires LookupBlock(blocks, a.id) == Some(a) && LookupBlock(blocks, b.id) == Some(b)
    requires LookupBlock(blocks, c.id) == Some(c) && LookupBlock(blocks, d.id) == Some(d)
    requires !(a.kind in {IF, WHILE, FOR}) && !(b.kind in {IF, WHILE, FOR})
    requires !(c.kind in {IF, WHILE, FOR}) && !(d.kind in {IF, WHILE, FOR})
    requires Get(m, a.id) == [b.id, c.id] && Get(m, b.id) == [d.id] && Get(m, c.id) == [d.id] && Get(m, d.id) == []
    ensures ChainText(blocks, m, a.id, visited, indent)
      == GenerateBlock(a, indent) + GenerateBlock(b, indent) + GenerateBlock(d, indent)
         + GenerateBlock(c, indent) + GenerateBlock(d, indent)
  {
    var seen := visited + {a.id};
    var ga, gb, gc, gd := GenerateBlock(a, indent), GenerateBlock(b, indent), GenerateBlock(c, indent),
                          GenerateBlock(d, indent);
    LeafStep(blocks, m, d.id, seen + {b.id}, indent);
    SingleSuccessorStep(blocks, m, b.id, d.id, seen, indent);
    var walkB := ChainText(blocks, m, b.id, seen, indent);
    assert walkB == gb + gd;
    LeafStep(blocks, m, d.id, seen + {c.id}, indent);
    SingleSuccessorStep(blocks, m, c.id, d.id, seen, indent);
    var walkC := ChainText(blocks, m, c.id, seen, indent);
    assert walkC == gc + gd;
    TwoSuccessorsStep(blocks, m, a.id, b.id, c.id, visited, indent);
    assert ChainText(blocks, m, a.id, visited, indent) == ga + walkB + walkC;
    AppendAssoc(ga, gb, gd);
    AppendAssoc(ga + gb + gd, gc, gd);
  }

  // ---------------------------------------------------------------------
  // The unpacking of adjacency entries as written

  /** What `[block_id for block_id, _ in entries]` does to a list of plain
      ids: each id is unpacked as a sequence of two items, so an id of any
      other length raises ValueError (`None`) and an id of length two is
      replaced by its first character. */
  function UnpackIds(entries: seq<string>): (r: Option<seq<string>>)
    ensures r.Some? <==> forall i :: 0 <= i < |entries| ==> |entries[i]| == 2
    ensures r.Some? ==> |r.value| == |entries| && forall i :: 0 <= i < |entries| ==> r.value[i] == entries[i][..1]
  {
    if entries == [] then Some([])
    else
      var init := UnpackIds(entries[..|entries| - 1]);
      var last := entries[|entries| - 1];
      if init.Some? && |last| == 2 then Some(init.value + [last[..1]]) else None
  }

  /** As written, a connected scene breaks the traversal: the successor
      list of a block that is connected to a block with an id such as
      `"block_2"` cannot be unpacked, and a two-character id such as `"b2"`
      is read as `"b"`. Used directly, as the model's walk does, the ids
      are the successors themselves. */
  lemma UnpackIdsCounterexample()
    ensures UnpackIds(["block_2"]).None?
    ensures UnpackIds(["b2"]) == Some(["b"])
    ensures Get(map["block_1" := ["block_2"]], "block_1") == ["block_2"]
  {
    assert ["block_2"][..0] == [];
    assert ["b2"][..0] == [];
    assert UnpackIds(["b2"][..0]) == Some([]);
    assert UnpackIds(["b2"]) == Some([] + ["b2"[..1]]);
    assert "b2"[..1] == "b";
    assert [] + ["b"] == ["b"];
  }

  // ---------------------------------------------------------------------
  // Reachability

  /** The ids reachable from `s` along the adjacency: `s` grown by the
      targets of its members until nothing new is added. */
  function Reach(m: map<string, seq<string>>, s: set<string>): (r: set<string>)
    decreases |(s + Targets(m)) - s|
  {
    var grown := s + TargetsOf(m, s);
    if grown == s then s
    else
      assert TargetsOf(m, s) <= Targets(m);
      assert grown + Targets(m) == s + Targets(m);
      assert (grown + Targets(m)) - grown < (s + Targets(m)) - s by {
        var x :| x in grown && x !in s;
        assert x in (s + Targets(m)) - s;
      }
      ProperSubsetCard((grown + Targets(m)) - grown, (s + Targets(m)) - s);
      Reach(m, grown)
  }

  /** The start ids are reachable. */
  lemma {:induction false} ReachContains(m: map<string, seq<string>>, s: set<string>)
    ensures s <= Reach(m, s)
    decreases |(s + Targets(m)) - s|
  {
    var grown := s + TargetsOf(m, s);
    if grown != s {
      assert TargetsOf(m, s) <= Targets(m);
      assert grown + Targets(m) == s + Targets(m);
      assert (grown + Targets(m)) - grown < (s + Targets(m)) - s by {
        var x :| x in grown && x !in s;
        assert x in (s + Targets(m)) - s;
      }
      ProperSubsetCard((grown + Targets(m)) - grown, (s + Targets(m)) - s);
      ReachContains(m, grown);
    }
  }

  /** The reachable ids include every target of a reachable id. */
  lemma {:induction false} ReachClosed(m: map<string, seq<string>>, s: set<string>)
    ensures TargetsOf(m, Reach(m, s)) <= Reach(m, s)
    decreases |(s + Targets(m)) - s|
  {
    var grown := s + TargetsOf(m, s);
    if grown != s {
      assert TargetsOf(m, s) <= Targets(m);
      assert grown + Targets(m) == s + Targets(m);
      assert (grown + Targets(m)) - grown < (s + Targets(m)) - s by {
        var x :| x in grown && x !in s;
        assert x in (s + Targets(m)) - s;
      }
      ProperSubsetCard((grown + Targets(m)) - grown, (s + Targets(m)) - s);
      ReachClosed(m, grown);
    }
  }

  /** Every set that holds the start ids and the targets of its members
      holds all reachable ids. */
  lemma {:induction false} ReachLeast(m: map<string, seq<string>>, s: set<string>, t: set<string>)
    requires s <= t && TargetsOf(m, t) <= t
    ensures Reach(m, s) <= t
    decreases |(s + Targets(m)) - s|
  {
    var grown := s + TargetsOf(m, s);
    if grown != s {
      assert TargetsOf(m, s) <= Targets(m);
      assert grown + Targets(m) == s + Targets(m);
      assert (grown + Targets(m)) - grown < (s + Targets(m)) - s by {
        var x :| x in grown && x !in s;
        assert x in (s + Targets(m)) - s;
      }
      ProperSubsetCard((grown + Targets(m)) - grown, (s + Targets(m)) - s);
      assert TargetsOf(m, s) <= TargetsOf(m, t);
      ReachLeast(m, grown, t);
    }
  }

  function StartIds(starts: seq<Block>): set<string> {
    set b | b in starts :: b.id
  }

  /** Every target of a member is a member. */
  predicate Closed(m: map<string, seq<string>>, s: set<string>) {
    forall x, t :: x in s && t in Get(m, x) ==> t in s
  }

  lemma ClosedTargets(m: map<string, seq<string>>, s: set<string>)
    requires Closed(m, s)
    ensures TargetsOf(m, s) <= s
  {
    forall t | t in TargetsOf(m, s) ensures t in s {
      var k :| k in s && k in m && t in m[k];
      assert t in Get(m, k);
    }
  }

  lemma TargetsOfGet(m: map<string, seq<string>>, s: set<string>, k: string, t: string)
    requires k in s && t in Get(m, k)
    ensures t in TargetsOf(m, s)
  {
  }

  /** The inner loop of the sweep: each successor not yet processed is
      marked and pushed, in order. */
  method PushUnprocessed(processed: set<string>, stack: seq<string>, next: seq<string>)
    returns (outProcessed: set<string>, outStack: seq<string>)
    ensures outProcessed == processed + set k | 0 <= k < |next| :: next[k]
    ensures forall x :: x in outStack <==> x in stack || (x in outProcessed && x !in processed)
    ensures outProcessed == processed ==> outStack == stack
  {
    outProcessed := processed;
    outStack := stack;
    var j := 0;
    while j < |next|
      invariant 0 <= j <= |next|
      invariant outProcessed == processed + set k | 0 <= k < j :: next[k]
      invariant forall x :: x in outStack <==> x in stack || (x in outProcessed && x !in processed)
      invariant outProcessed == processed ==> outStack == stack
    {
      var nextId := next[j];
      if nextId !in outProcessed {
        outProcessed := outProcessed + {nextId};
        outStack := outStack + [nextId];
      }
      assert (set k | 0 <= k < j + 1 :: next[k]) == (set k | 0 <= k < j :: next[k]) + {next[j]};
      j := j + 1;
    }
  }

  /** One round of the `while stack` loop keeps the marks closed except for
      the ids on the stack. */
  lemma DrainStep(m: map<string, seq<string>>, before: set<string>, todo: seq<string>, popped: seq<string>,
                  current: string, after: set<string>, pushed: seq<string>)
    requires todo == popped + [current]
    requires forall x :: x in todo ==> x in before
    requires forall x, t :: x in before && x !in todo && t in Get(m, x) ==> t in before
    requires after == before + set k | 0 <= k < |Get(m, current)| :: Get(m, current)[k]
    requires forall x :: x in pushed <==> x in popped || (x in after && x !in before)
    ensures forall x :: x in pushed ==> x in after
    ensures forall x, t :: x in after && x !in pushed && t in Get(m, x) ==> t in after
  {
    forall x, t | x in after && x !in pushed && t in Get(m, x) ensures t in after {
      if x == current {
        var k :| 0 <= k < |Get(m, current)| && Get(m, current)[k] == t;
      } else {
        assert x in before;
        assert x !in todo;
      }
    }
  }

  /** The `while stack` loop of the sweep: pops an id, marks and pushes its
      unprocessed successors, until the stack is empty. Starting from marks
      that are closed except for the ids on the stack, and staying inside a
      closed set `reach`, it ends with closed marks. */
  method DrainStack(m: map<string, seq<string>>, ghost reach: set<string>, processed: set<string>, stack: seq<string>)
    returns (out: set<string>)
    requires TargetsOf(m, reach) <= reach && processed <= reach
    requires forall x :: x in stack ==> x in processed
    requires forall x, t :: x in processed && x !in stack && t in Get(m, x) ==> t in processed
    ensures processed <= out <= reach
    ensures Closed(m, out)
  {
    out := processed;
    var todo := stack;
    while todo != []
      invariant processed <= out <= reach
      invariant forall x :: x in todo ==> x in out
      invariant forall x, t :: x in out && x !in todo && t in Get(m, x) ==> t in out
      decreases |reach - out|, |todo|
    {
      var current := todo[|todo| - 1];
      ghost var before := out;
      var popped := todo[..|todo| - 1];
      assert todo == popped + [current];
      var next := Get(m, current);
      var pushed;
      out, pushed := PushUnprocessed(out, popped, next);
      DrainStep(m, before, todo, popped, current, out, pushed);
      forall t | t in next ensures t in reach {
        TargetsOfGet(m, reach, current, t);
      }
      todo := pushed;
      if out != before {
        ProperSubsetCard(reach - out, reach - before);
      }
    }
  }

  /** The sweep of `generate_scene` that marks every block reachable from a
      start block: a stack-based depth-first search over a `processed` set
      shared by all start blocks. It marks exactly the reachable ids. */
  method MarkReachable(starts: seq<Block>, m: map<string, seq<string>>) returns (processed: set<string>)
    ensures processed == Reach(m, StartIds(starts))
  {
    ghost var reach := Reach(m, StartIds(starts));
    ReachContains(m, StartIds(starts));
    ReachClosed(m, StartIds(starts));
    processed := {};
    var i := 0;
    while i < |starts|
      invariant 0 <= i <= |starts|
      invariant processed <= reach
      invariant StartIds(starts[..i]) <= processed
      invariant Closed(m, processed)
    {
      var start := starts[i];
      assert start.id in StartIds(starts);
      processed := processed + {start.id};
      processed := DrainStack(m, reach, processed, [start.id]);
      assert StartIds(starts[..i + 1]) == StartIds(starts[..i]) + {start.id} by {
        TakeSnoc(starts, i);
      }
      i := i + 1;
    }
    assert starts[..|starts|] == starts;
    ClosedTargets(m, processed);
    ReachLeast(m, StartIds(starts), processed);
  }

  // ---------------------------------------------------------------------
  // The scene

  /** The code of `blocks`, each at `indent`, in order, dropping nothing:
      a block without code contributes nothing. */
  function BlocksText(blocks: seq<Block>, indent: string): (r: string)
    ensures Terminated(r)
  {
    if blocks == [] then ""
    else
      var init := BlocksText(blocks[..|blocks| - 1], indent);
      var code := GenerateBlock(blocks[|blocks| - 1], indent);
      TerminatedAppend(init, code);
      init + code
  }

  /** The walks from the start blocks, each from an empty set of marks. */
  function ChainsText(blocks: seq<Block>, m: map<string, seq<string>>, starts: seq<Block>): (r: string)
    ensures Terminated(r)
  {
    if starts == [] then ""
    else
      var init := ChainsText(blocks, m, starts[..|starts| - 1]);
      var chain := ChainText(blocks, m, starts[|starts| - 1].id, {}, INDENT);
      TerminatedAppend(init, chain);
      init + chain
  }

  /** Selects the blocks whose id is not in `reached`. */
  function NotReached(reached: set<string>): Block -> bool {
    (b: Block) => b.id !in reached
  }

  function Unreached(blocks: seq<Block>, reached: set<string>): seq<Block> {
    Filter(blocks, NotReached(reached))
  }

  /** `generate_scene`: the label line; a single `pass` for a scene without
      blocks; otherwise the walks from the start blocks followed by the
      blocks no walk from a start block reaches, in scene order, or, when
      every block has an incoming edge, all blocks in position order; then
      an empty line. */
  function SceneText(sceneLabel: string, blocks: seq<Block>, ports: seq<Port>, connections: seq<Connection>): string {
    var head := "label " + sceneLabel + ":\n";
    if blocks == [] then head + INDENT + "pass\n\n"
    else
      var m := Adjacency(PortOwners(ports), connections);
      var starts := StartBlocks(blocks, m);
      var body :=
        if starts == [] then BlocksText(SortByPos(blocks), INDENT)
        else ChainsText(blocks, m, starts) + BlocksText(Unreached(blocks, Reach(m, StartIds(starts))), INDENT);
      head + body + "\n"
  }

  /** The scene text starts with the label line and ends with a newline;
      a scene without blocks is the label line and one `pass`. */
  lemma SceneTextShape(sceneLabel: string, blocks: seq<Block>, ports: seq<Port>, connections: seq<Connection>)
    ensures var r := SceneText(sceneLabel, blocks, ports, connections);
      && |r| > |sceneLabel| + 8 && r[..|sceneLabel| + 8] == "label " + sceneLabel + ":\n"
      && r[|r| - 1] == '\n'
      && (blocks == [] ==> r == "label " + sceneLabel + ":\n" + INDENT + "pass\n\n")
  {
    var head := "label " + sceneLabel + ":\n";
    var r := SceneText(sceneLabel, blocks, ports, connections);
    if blocks == [] {
      assert r == head + (INDENT + "pass\n\n");
      assert r[..|head|] == head;
    } else {
      var m := Adjacency(PortOwners(ports), connections);
      var starts := StartBlocks(blocks, m);
      var body :=
        if starts == [] then BlocksText(SortByPos(blocks), INDENT)
        else ChainsText(blocks, m, starts) + BlocksText(Unreached(blocks, Reach(m, StartIds(starts))), INDENT);
      assert r == head + body + "\n";
      assert r[..|head|] == head;
    }
  }

  /** Without start blocks, every block has an incoming edge: the sorted
      fallback applies only to graphs in which every block lies on or
      behind a cycle. */
  lemma NoStartBlocks(blocks: seq<Block>, m: map<string, seq<string>>)
    ensures StartBlocks(blocks, m) == [] <==>
      (blocks == [] || (|m| != 0 && forall b :: b in blocks ==> b.id in Targets(m)))
  {
    StartBlocksCorrect(blocks, m);
    if |m| == 0 && blocks != [] {
      SortByPosCorrect(blocks);
      assert blocks[0] in multiset(SortByPos(blocks));
    }
    if |m| != 0 && StartBlocks(blocks, m) != [] {
      assert StartBlocks(blocks, m)[0] in StartBlocks(blocks, m);
    }
  }

  /** The sweep emits exactly the blocks of the scene that no walk from a
      start block reaches, each as often as it occurs, in scene order. */
  lemma UnreachedExactly(blocks: seq<Block>, reached: set<string>)
    ensures forall b :: b in Unreached(blocks, reached) <==> b in blocks && b.id !in reached
    ensures forall b: Block :: b.id !in reached ==> multiset(Unreached(blocks, reached))[b] == multiset(blocks)[b]
  {
    forall b | true
      ensures b in Unreached(blocks, reached) <==> b in blocks && b.id !in reached
      ensures b.id !in reached ==> multiset(Unreached(blocks, reached))[b] == multiset(blocks)[b]
    {
      FilterMembers(blocks, NotReached(reached), b);
      FilterMultiplicity(blocks, NotReached(reached), b);
    }
  }

  lemma BlocksTextSnoc(blocks: seq<Block>, b: Block, indent: string)
    ensures BlocksText(blocks + [b], indent) == BlocksText(blocks, indent) + GenerateBlock(b, indent)
  {
    assert (blocks + [b])[..|blocks|] == blocks;
  }

  lemma ChainsTextSnoc(blocks: seq<Block>, m: map<string, seq<string>>, starts: seq<Block>, i: int)
    requires 0 <= i < |starts|
    ensures ChainsText(blocks, m, starts[..i + 1])
      == ChainsText(blocks, m, starts[..i]) + ChainText(blocks, m, starts[i].id, {}, INDENT)
  {
    TakeSnoc(starts, i);
    assert (starts[..i] + [starts[i]])[..i] == starts[..i];
  }

  lemma UnreachedSnoc(blocks: seq<Block>, i: int, skip: set<string>)
    requires 0 <= i < |blocks|
    ensures Unreached(blocks[..i + 1], skip)
      == Unreached(blocks[..i], skip) + (if blocks[i].id !in skip then [blocks[i]] else [])
  {
    TakeSnoc(blocks, i);
    FilterAppend(blocks[..i], [blocks[i]], NotReached(skip));
    assert [blocks[i]][1..] == [];
  }

  lemma UnreachedTextSnoc(blocks: seq<Block>, i: int, skip: set<string>, indent: string)
    requires 0 <= i < |blocks|
    ensures BlocksText(Unreached(blocks[..i + 1], skip), indent)
      == BlocksText(Unreached(blocks[..i], skip), indent)
         + (if blocks[i].id !in skip then GenerateBlock(blocks[i], indent) else "")
  {
    UnreachedSnoc(blocks, i, skip);
    if blocks[i].id !in skip {
      BlocksTextSnoc(Unreached(blocks[..i], skip), blocks[i], indent);
    } else {
      assert Unreached(blocks[..i + 1], skip) == Unreached(blocks[..i], skip);
      var text := BlocksText(Unreached(blocks[..i], skip), indent);
      assert text + "" == text;
    }
  }

  /** The loops of `generate_scene` over the sorted blocks and over the
      unreached blocks. */
  method AppendBlocks(lines: seq<string>, blocks: seq<Block>, skip: set<string>, indent: string)
    returns (out: seq<string>)
    ensures Concat(out) == Concat(lines) + BlocksText(Unreached(blocks, skip), indent)
  {
    out := lines;
    assert Concat(out) == Concat(lines) + BlocksText(Unreached(blocks[..0], skip), indent) by {
      assert blocks[..0] == [] && BlocksText(Unreached(blocks[..0], skip), indent) == "";
      assert Concat(lines) + "" == Concat(lines);
    }
    hide BlocksText, GenerateBlock, Unreached;
    var i := 0;
    while i < |blocks|
      invariant 0 <= i <= |blocks|
      invariant Concat(out) == Concat(lines) + BlocksText(Unreached(blocks[..i], skip), indent)
    {
      var block := blocks[i];
      ghost var done := BlocksText(Unreached(blocks[..i], skip), indent);
      UnreachedTextSnoc(blocks, i, skip, indent);
      if block.id !in skip {
        var code := GenerateBlock(block, indent);
        ConcatStep(lines, out, done, code);
        out := out + [code];
      } else {
        assert done + "" == done;
      }
      i := i + 1;
    }
    assert blocks[..|blocks|] == blocks;
  }

  /** The loop of `generate_scene` over the start blocks, each walked from
      an empty set of marks. */
  method AppendChains(scene: Scene, lines: seq<string>, starts: seq<Block>, m: map<string, seq<string>>)
    returns (out: seq<string>)
    ensures Concat(out) == Concat(lines) + ChainsText(scene.blocks, m, starts)
  {
    out := lines;
    assert Concat(out) == Concat(lines) + ChainsText(scene.blocks, m, starts[..0]) by {
      assert starts[..0] == [] && ChainsText(scene.blocks, m, starts[..0]) == "";
      assert Concat(lines) + "" == Concat(lines);
    }
    hide ChainsText, ChainText;
    var i := 0;
    while i < |starts|
      invariant 0 <= i <= |starts|
      invariant Concat(out) == Concat(lines) + ChainsText(scene.blocks, m, starts[..i])
    {
      ChainsTextSnoc(scene.blocks, m, starts, i);
      var code := GenerateBlockChain(scene, starts[i].id, m, {}, INDENT);
      ConcatStep(lines, out, ChainsText(scene.blocks, m, starts[..i]), code);
      out := out + [code];
      i := i + 1;
    }
    assert starts[..|starts|] == starts;
  }

  lemma UnreachedNone(blocks: seq<Block>)
    ensures Unreached(blocks, {}) == blocks
  {
    FilterKeepsAll(blocks, NotReached({}));
  }

  /** `generate_scene`. */
  method GenerateScene(scene: Scene) returns (r: string)
    ensures r == SceneText(scene.sceneLabel, scene.blocks, scene.ports, scene.connections)
  {
    var head := GenerateLabel(scene);
    var lines: seq<string> := [head];
    assert Concat(lines) == head by {
      assert lines[..0] == [];
    }
    if scene.blocks == [] {
      ConcatSnoc(lines, INDENT + "pass\n\n");
      r := Concat(lines + [INDENT + "pass\n\n"]);
      return;
    }
    var m := GetBlockConnections(scene);
    var starts := FindStartBlocks(scene, m);
    ghost var body: string;
    if starts == [] {
      UnreachedNone(SortByPos(scene.blocks));
      lines := AppendBlocks(lines, SortByPos(scene.blocks), {}, INDENT);
      body := BlocksText(SortByPos(scene.blocks), INDENT);
    } else {
      lines := AppendChains(scene, lines, starts, m);
      var processed := MarkReachable(starts, m);
      ghost var chains := ChainsText(scene.blocks, m, starts);
      ghost var rest := BlocksText(Unreached(scene.blocks, processed), INDENT);
      lines := AppendBlocks(lines, scene.blocks, processed, INDENT);
      AppendAssoc(head, chains, rest);
      body := chains + rest;
    }
    assert Concat(lines) == head + body;
    ConcatSnoc(lines, "\n");
    r := Concat(lines + ["\n"]);
  }
}
