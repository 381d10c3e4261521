/** Shared helpers of both generators: the block adjacency built from ports
    and connections, start-block detection, and the text helpers
    `escape_text` and `format_value`. */
module GeneratorUtils {
  import opened Wrappers
  import opened Seqs
  import opened Text
  import opened Numeric
  import opened Model

  /** One level of Ren'Py indentation. */
  const INDENT: string := "    "

  // ---------------------------------------------------------------------
  // Adjacency

  /** The `port_to_block` dictionary: each port id mapped to the block that
      owns it; when several ports share an id, the later one wins. */
  function PortOwners(ports: seq<Port>): (m: map<string, string>)
    ensures forall pid :: pid in m <==> LastIndexOf(ports, PortKey, pid) < |ports|
    ensures forall pid :: pid in m ==> m[pid] == ports[LastIndexOf(ports, PortKey, pid)].nodeId
  {
    if ports == [] then map[]
    else
      var p := ports[|ports| - 1];
      PortOwners(ports[..|ports| - 1])[p.id := p.nodeId]
  }

  /** `port_to_block.get(pid)`, with a missing port read as the empty owner:
      both are false in the `if from_block and to_block` test. */
  function Owner(owners: map<string, string>, pid: string): string {
    if pid in owners then owners[pid] else ""
  }

  /** `connections_map.get(id, [])`. */
  function Get(m: map<string, seq<string>>, id: string): seq<string> {
    if id in m then m[id] else []
  }

  /** The `connections_map` after processing `conns` in order: for every
      connection whose two ports resolve to non-empty owners A and B, B is
      appended to the entry of A. */
  function Adjacency(owners: map<string, string>, conns: seq<Connection>): map<string, seq<string>> {
    if conns == [] then map[]
    else
      var m := Adjacency(owners, conns[..|conns| - 1]);
      var c := conns[|conns| - 1];
      var a := Owner(owners, c.fromPortId);
      var b := Owner(owners, c.toPortId);
      if a != "" && b != "" then m[a := Get(m, a) + [b]] else m
  }

  /** Reference definition: the owners of the target ports of the
      connections leaving block `a`, one per connection, in connection
      order, skipping connections whose target does not resolve. */
  function Successors(owners: map<string, string>, conns: seq<Connection>, a: string): seq<string> {
    if conns == [] then []
    else
      var c := conns[0];
      (if a != "" && Owner(owners, c.fromPortId) == a && Owner(owners, c.toPortId) != ""
       then [Owner(owners, c.toPortId)] else [])
      + Successors(owners, conns[1..], a)
  }

  lemma {:induction false} SuccessorsAppend(owners: map<string, string>, conns: seq<Connection>, c: Connection, a: string)
    ensures Successors(owners, conns + [c], a) ==
      Successors(owners, conns, a)
      + (if a != "" && Owner(owners, c.fromPortId) == a && Owner(owners, c.toPortId) != ""
         then [Owner(owners, c.toPortId)] else [])
  {
    if conns == [] {
      assert (conns + [c])[1..] == [];
    } else {
      assert (conns + [c])[1..] == conns[1..] + [c];
      SuccessorsAppend(owners, conns[1..], c, a);
    }
  }

  /** The adjacency entry of every block is exactly its successor list, and
      a block has an entry exactly when it has a successor. */
  lemma {:induction false} AdjacencyIsSuccessors(owners: map<string, string>, conns: seq<Connection>, a: string)
    ensures Get(Adjacency(owners, conns), a) == Successors(owners, conns, a)
    ensures a in Adjacency(owners, conns) <==> Successors(owners, conns, a) != []
  {
    if conns != [] {
      var prefix := conns[..|conns| - 1];
      var c := conns[|conns| - 1];
      AdjacencyIsSuccessors(owners, prefix, a);
      assert prefix + [c] == conns;
      SuccessorsAppend(owners, prefix, c, a);
    }
  }

  /** No adjacency entry is keyed by the empty id, and no entry holds it. */
  lemma {:induction false} AdjacencyNonEmptyIds(owners: map<string, string>, conns: seq<Connection>)
    ensures "" !in Adjacency(owners, conns)
    ensures forall a :: a in Adjacency(owners, conns) ==> "" !in Adjacency(owners, conns)[a]
  {
    if conns != [] {
      AdjacencyNonEmptyIds(owners, conns[..|conns| - 1]);
    }
  }

  /** `get_block_connections(scene)`. */
  method GetBlockConnections(scene: Scene) returns (m: map<string, seq<string>>)
    ensures m == Adjacency(PortOwners(scene.ports), scene.connections)
  {
    var ports := scene.ports;
    var owners: map<string, string> := map[];
    var i := 0;
    while i < |ports|
      invariant 0 <= i <= |ports|
      invariant owners == PortOwners(ports[..i])
    {
      assert ports[..i + 1][..i] == ports[..i];
      owners := owners[ports[i].id := ports[i].nodeId];
      i := i + 1;
    }
    assert ports[..|ports|] == ports;
    var conns := scene.connections;
    m := map[];
    var j := 0;
    while j < |conns|
      invariant 0 <= j <= |conns|
      invariant m == Adjacency(owners, conns[..j])
    {
      assert conns[..j + 1][..j] == conns[..j];
      var fromBlock := Owner(owners, conns[j].fromPortId);
      var toBlock := Owner(owners, conns[j].toPortId);
      if fromBlock != "" && toBlock != "" {
        m := m[fromBlock := Get(m, fromBlock) + [toBlock]];
      }
      j := j + 1;
    }
    assert conns[..|conns|] == conns;
  }

  // ---------------------------------------------------------------------
  // Start blocks

  /** Every id that is the target of some edge (`has_input`). */
  function Targets(m: map<string, seq<string>>): set<string> {
    set k, t | k in m && t in m[k] :: t
  }

  /** The targets of the entries whose keys lie in `keys`. */
  function TargetsOf(m: map<string, seq<string>>, keys: set<string>): set<string> {
    set k, t | k in keys && k in m && t in m[k] :: t
  }

  /** Position order: by `y`, then by `x` (Python's tuple order on `(y, x)`). */
  predicate PosLe(a: Block, b: Block) {
    a.y < b.y || (a.y == b.y && a.x <= b.x)
  }

  predicate SortedByPos(s: seq<Block>) {
    forall i, j :: 0 <= i < j < |s| ==> PosLe(s[i], s[j])
  }

  /** Inserts `b` in front of the first element that is not before it. */
  function InsertByPos(b: Block, s: seq<Block>): seq<Block> {
    if s == [] then [b]
    else if PosLe(b, s[0]) then [b] + s
    else [s[0]] + InsertByPos(b, s[1..])
  }

  /** `sorted(blocks, key=lambda b: (b.y, b.x))`, Python's stable sort. */
  function SortByPos(s: seq<Block>): seq<Block> {
    if s == [] then [] else InsertByPos(s[0], SortByPos(s[1..]))
  }

  /** Every element of `s` comes at or after `lo`. */
  predicate AllAfter(lo: Block, s: seq<Block>) {
    forall i :: 0 <= i < |s| ==> PosLe(lo, s[i])
  }

  lemma {:induction false} InsertByPosPermutes(b: Block, s: seq<Block>)
    ensures multiset(InsertByPos(b, s)) == multiset(s) + multiset{b}
  {
    if s != [] && !PosLe(b, s[0]) {
      InsertByPosPermutes(b, s[1..]);
      assert s == [s[0]] + s[1..];
    }
  }

  lemma {:induction false} InsertByPosAfter(lo: Block, b: Block, s: seq<Block>)
    requires AllAfter(lo, s) && PosLe(lo, b)
    ensures AllAfter(lo, InsertByPos(b, s))
  {
    if s != [] && !PosLe(b, s[0]) {
      InsertByPosAfter(lo, b, s[1..]);
      assert AllAfter(lo, [s[0]] + InsertByPos(b, s[1..]));
    }
  }

  lemma {:induction false} InsertByPosSorted(b: Block, s: seq<Block>)
    requires SortedByPos(s)
    ensures SortedByPos(InsertByPos(b, s))
  {
    if s == [] {
    } else if PosLe(b, s[0]) {
      var r := [b] + s;
      forall i, j | 0 <= i < j < |r|
        ensures PosLe(r[i], r[j])
      {
        if i == 0 && j > 1 {
          assert PosLe(s[0], s[j - 1]);
        }
      }
    } else {
      var t := s[1..];
      assert SortedByPos(t);
      InsertByPosSorted(b, t);
      assert AllAfter(s[0], t);
      InsertByPosAfter(s[0], b, t);
      var r := [s[0]] + InsertByPos(b, t);
      forall i, j | 0 <= i < j < |r|
        ensures PosLe(r[i], r[j])
      {
        if i == 0 {
          assert r[j] == InsertByPos(b, t)[j - 1];
        }
      }
    }
  }

  /** The position sort orders the blocks by (y, x) and is a permutation. */
  lemma {:induction false} SortByPosCorrect(s: seq<Block>)
    ensures SortedByPos(SortByPos(s))
    ensures multiset(SortByPos(s)) == multiset(s)
  {
    if s != [] {
      SortByPosCorrect(s[1..]);
      InsertByPosSorted(s[0], SortByPos(s[1..]));
      InsertByPosPermutes(s[0], SortByPos(s[1..]));
      assert s == [s[0]] + s[1..];
    }
  }

  /** Selects the blocks at one position. */
  function SamePos(x: real, y: real): Block -> bool {
    (c: Block) => c.x == x && c.y == y
  }

  lemma {:induction false} InsertByPosStable(b: Block, s: seq<Block>, x: real, y: real)
    ensures Filter(InsertByPos(b, s), SamePos(x, y)) ==
      (if SamePos(x, y)(b) then [b] else []) + Filter(s, SamePos(x, y))
  {
    var p := SamePos(x, y);
    if s == [] {
    } else if PosLe(b, s[0]) {
      assert ([b] + s)[1..] == s;
    } else {
      assert !p(s[0]) || !p(b);
      InsertByPosStable(b, s[1..], x, y);
      assert ([s[0]] + InsertByPos(b, s[1..]))[1..] == InsertByPos(b, s[1..]);
    }
  }

  /** The position sort is stable: blocks at the same position keep their
      relative order. */
  lemma {:induction false} SortByPosStable(s: seq<Block>, x: real, y: real)
    ensures Filter(SortByPos(s), SamePos(x, y)) == Filter(s, SamePos(x, y))
  {
    if s != [] {
      SortByPosStable(s[1..], x, y);
      InsertByPosStable(s[0], SortByPos(s[1..]), x, y);
    }
  }

  /** `find_start_blocks(scene, connections_map)`: every block in scene order
      when it is never a target; with an empty map, all blocks by position. */
  function StartBlocks(blocks: seq<Block>, m: map<string, seq<string>>): seq<Block> {
    if |m| == 0 then SortByPos(blocks) else Filter(blocks, (b: Block) => b.id !in Targets(m))
  }

  /** With edges present, the start blocks are exactly the blocks without an
      incoming edge, kept in scene order; without edges, they are all blocks
      in position order. */
  lemma StartBlocksCorrect(blocks: seq<Block>, m: map<string, seq<string>>)
    ensures |m| != 0 ==> forall b :: b in StartBlocks(blocks, m) <==> b in blocks && b.id !in Targets(m)
    ensures |m| != 0 ==> forall b: Block :: b.id !in Targets(m) ==>
      multiset(StartBlocks(blocks, m))[b] == multiset(blocks)[b]
    ensures |m| == 0 ==> SortedByPos(StartBlocks(blocks, m)) && multiset(StartBlocks(blocks, m)) == multiset(blocks)
  {
    if |m| == 0 {
      SortByPosCorrect(blocks);
    } else {
      forall b | true
        ensures b in StartBlocks(blocks, m) <==> b in blocks && b.id !in Targets(m)
        ensures b.id !in Targets(m) ==> multiset(StartBlocks(blocks, m))[b] == multiset(blocks)[b]
      {
        FilterMembers(blocks, (b: Block) => b.id !in Targets(m), b);
        FilterMultiplicity(blocks, (b: Block) => b.id !in Targets(m), b);
      }
    }
  }

  /** `find_start_blocks`: `has_input` is accumulated over the map's values. */
  method FindStartBlocks(scene: Scene, m: map<string, seq<string>>) returns (r: seq<Block>)
    ensures r == StartBlocks(scene.blocks, m)
  {
    var hasInput: set<string> := {};
    var remaining := m.Keys;
    while remaining != {}
      invariant remaining <= m.Keys
      invariant hasInput == TargetsOf(m, m.Keys - remaining)
      decreases |remaining|
    {
      var k :| k in remaining;
      hasInput := hasInput + set t | t in m[k];
      assert TargetsOf(m, m.Keys - (remaining - {k})) == TargetsOf(m, m.Keys - remaining) + set t | t in m[k];
      remaining := remaining - {k};
    }
    assert hasInput == Targets(m);
    var startBlocks := Filter(scene.blocks, (b: Block) => b.id !in hasInput);
    if |m| == 0 {
      return SortByPos(scene.blocks);
    }
    return startBlocks;
  }

  // ---------------------------------------------------------------------
  // Text helpers

  /** `escape_text`: every double quote becomes a backslash and a quote. */
  function EscapeText(s: string): string {
    ReplaceChar(s, '"', "\\\"")
  }

  /** Reads an escaped text back, turning each `\"` into `"`. */
  function Unescape(s: string): string {
    if s == "" then ""
    else if |s| >= 2 && s[0] == '\\' && s[1] == '"' then "\"" + Unescape(s[2..])
    else [s[0]] + Unescape(s[1..])
  }

  /** Escaping adds exactly one character per quote and leaves a text without
      quotes unchanged. */
  lemma EscapeTextLength(s: string)
    ensures |EscapeText(s)| == |s| + Count('"', s)
    ensures '"' !in s ==> EscapeText(s) == s
  {
    ReplaceCharLength(s, '"', "\\\"");
    if '"' !in s {
      ReplaceCharAbsent(s, '"', "\\\"");
    }
  }

  lemma {:induction false} EscapeTextNoLeadingQuote(s: string)
    ensures EscapeText(s) == "" || EscapeText(s)[0] != '"'
  {
  }

  /** Escaping loses nothing: the escaped text reads back as the original. */
  lemma {:induction false} UnescapeEscape(s: string)
    ensures Unescape(EscapeText(s)) == s
  {
    if s != "" {
      var rest := EscapeText(s[1..]);
      UnescapeEscape(s[1..]);
      EscapeTextNoLeadingQuote(s[1..]);
      if s[0] == '"' {
        assert EscapeText(s) == "\\\"" + rest;
        assert (EscapeText(s))[2..] == rest;
      } else {
        assert EscapeText(s) == [s[0]] + rest;
        assert (EscapeText(s))[1..] == rest;
      }
      assert s == [s[0]] + s[1..];
    }
  }

  predicate StartsWith(s: string, c: char) { s != "" && s[0] == c }
  predicate EndsWith(s: string, c: char) { s != "" && s[|s| - 1] == c }

  /** Already a Ren'Py literal other than a number: quoted at both ends, or
      a list or dictionary display. */
  predicate IsLiteralText(v: string) {
    (StartsWith(v, '"') && EndsWith(v, '"')) || StartsWith(v, '[') || StartsWith(v, '{')
  }

  /** `format_value`: the value written as a Ren'Py expression. It is kept as
      it is exactly when it is non-empty and a number or already a literal;
      otherwise it is wrapped in double quotes (the empty value giving `""`). */
  function FormatValue(v: string): (r: string)
    ensures r != ""
    ensures r == v <==> v != "" && (IsNumeric(v) || IsLiteralText(v))
    ensures r != v ==> r == "\"" + v + "\""
  {
    if v == "" then "\"\""
    else if IsNumeric(v) then v
    else if IsLiteralText(v) then v
    else "\"" + v + "\""
  }

  /** Formatting a formatted value changes nothing. */
  lemma FormatValueIdempotent(v: string)
    ensures FormatValue(FormatValue(v)) == FormatValue(v)
  {
    var r := FormatValue(v);
    if r != v {
      assert StartsWith(r, '"') && EndsWith(r, '"');
    }
  }
}
