/** The dictionary form of a project that the project file stores, and the
    reading of that form back into scenes and a project.

    A block is stored with its type's member name, a port with its
    direction's member name; every list keeps its order. Reading fills in
    the optional keys (`params`, `x`, `y`, `port_ids`, a port's `name`,
    `metadata`, a scene's `name` and `label`, the project's `name` and
    `variables`, the lists of a scene and of a project) with fixed
    defaults, and a missing required key, an unknown member name or a value
    of the wrong kind makes the whole read fail (`None`). After reading a
    scene, each port's id is added to the `port_ids` of the block that owns
    it, unless already listed. */
module Serialization {
  import opened Wrappers
  import opened Seqs
  import opened Model

  // ---------------------------------------------------------------------
  // Reading one key

  /** `payload[key]` where a string is stored. */
  function RequiredStr(d: map<string, Value>, key: string): Option<string> {
    if key in d && d[key].Str? then Some(d[key].s) else None
  }

  /** `payload.get(key, default)` where a string is stored. */
  function OptionalStr(d: map<string, Value>, key: string, default: string): Option<string> {
    if key !in d then Some(default) else if d[key].Str? then Some(d[key].s) else None
  }

  /** `payload.get(key, default)` where a number is stored. */
  function OptionalNum(d: map<string, Value>, key: string, default: real): Option<real> {
    if key !in d then Some(default) else if d[key].Num? then Some(d[key].n) else None
  }

  /** `payload.get(key, {})`. */
  function OptionalDict(d: map<string, Value>, key: string): Option<map<string, Value>> {
    if key !in d then Some(map[]) else if d[key].Dict? then Some(d[key].entries) else None
  }

  /** `payload.get(key, [])`. */
  function OptionalList(d: map<string, Value>, key: string): Option<seq<Value>> {
    if key !in d then Some([]) else if d[key].List? then Some(d[key].items) else None
  }

  /** Reading every element of a list with `f`: one element that cannot be
      read makes the whole list unreadable, as an exception raised inside a
      list comprehension does. */
  function DecodeAll<T>(items: seq<Value>, f: Value -> Option<T>): (r: Option<seq<T>>)
    ensures r.Some? <==> forall i :: 0 <= i < |items| ==> f(items[i]).Some?
    ensures r.Some? ==> |r.value| == |items|
    ensures r.Some? ==> forall i :: 0 <= i < |items| ==> f(items[i]) == Some(r.value[i])
  {
    if items == [] then Some([])
    else match f(items[0])
      case None => None
      case Some(x) =>
        match DecodeAll(items[1..], f)
        case None =>
          assert exists i :: 1 <= i < |items| && f(items[i]).None? by {
            var j :| 0 <= j < |items[1..]| && f(items[1..][j]).None?;
            assert items[1..][j] == items[j + 1];
          }
          None
        case Some(rest) =>
          assert forall i :: 1 <= i < |items| ==> items[i] == items[1..][i - 1];
          Some([x] + rest)
  }

  /** A list that was written element by element with `g` reads back,
      element by element, with a reader `f` that undoes `g`. */
  lemma DecodeAllRoundTrip<T>(xs: seq<T>, g: T -> Value, f: Value -> Option<T>)
    requires forall i :: 0 <= i < |xs| ==> f(g(xs[i])) == Some(xs[i])
    ensures DecodeAll(Map(xs, g), f) == Some(xs)
  {
    var items := Map(xs, g);
    assert forall i :: 0 <= i < |items| ==> f(items[i]) == Some(xs[i]);
    var r := DecodeAll(items, f);
    assert r.Some?;
    forall i | 0 <= i < |xs| ensures r.value[i] == xs[i] {
      assert f(items[i]) == Some(r.value[i]);
    }
    assert r.value == xs;
  }

  /** `payload.get(key, [])`, each element read with `f`. */
  function DecodeList<T>(d: map<string, Value>, key: string, f: Value -> Option<T>): Option<seq<T>> {
    match OptionalList(d, key)
    case None => None
    case Some(items) => DecodeAll(items, f)
  }

  function StrValue(s: string): Value { Str(s) }

  function AsStr(v: Value): Option<string> {
    if v.Str? then Some(v.s) else None
  }

  // ---------------------------------------------------------------------
  // Blocks, ports and connections

  /** `_block_to_dict`. */
  function BlockToDict(b: Block): Value {
    Dict(map[
      "id" := Str(b.id),
      "type" := Str(TypeName(b.kind)),
      "params" := Dict(b.params),
      "x" := Num(b.x),
      "y" := Num(b.y),
      "port_ids" := List(Map(b.portIds, StrValue))])
  }

  /** `_block_from_dict`: `id` and `type` are required, the type is looked
      up by member name; the other keys default to an empty dictionary,
      position 0.0 and no port ids. */
  function BlockFromDict(v: Value): Option<Block> {
    if !v.Dict? then None
    else
      var d := v.entries;
      var id := RequiredStr(d, "id");
      var typeName := RequiredStr(d, "type");
      var kind := if typeName.Some? then TypeFromName(typeName.value) else None;
      var params := OptionalDict(d, "params");
      var x := OptionalNum(d, "x", 0.0);
      var y := OptionalNum(d, "y", 0.0);
      var portIds := DecodeList(d, "port_ids", AsStr);
      if id.Some? && kind.Some? && params.Some? && x.Some? && y.Some? && portIds.Some? then
        Some(Block(id.value, kind.value, params.value, x.value, y.value, portIds.value))
      else None
  }

  /** A list of strings reads back as itself. */
  lemma StrListRoundTrip(ids: seq<string>)
    ensures DecodeAll(Map(ids, StrValue), AsStr) == Some(ids)
  {
    DecodeAllRoundTrip(ids, StrValue, AsStr);
  }

  /** A stored block reads back as the same block: id, type, parameters,
      position and port ids. */
  lemma BlockRoundTrip(b: Block)
    ensures BlockFromDict(BlockToDict(b)) == Some(b)
  {
    StrListRoundTrip(b.portIds);
    TypeNameRoundTrip(b.kind);
  }

  /** Only `id` and `type` are needed; the rest takes its default. */
  lemma BlockDefaults(id: string, t: BlockType)
    ensures BlockFromDict(Dict(map["id" := Str(id), "type" := Str(TypeName(t))]))
      == Some(Block(id, t, map[], 0.0, 0.0, []))
  {
    TypeNameRoundTrip(t);
  }

  /** Without an `id` or a `type`, or with a type name that names no block
      type, the block cannot be read. */
  lemma BlockRequired(d: map<string, Value>)
    ensures "id" !in d ==> BlockFromDict(Dict(d)).None?
    ensures "type" !in d ==> BlockFromDict(Dict(d)).None?
    ensures "type" in d && d["type"].Str? && TypeFromName(d["type"].s).None? ==> BlockFromDict(Dict(d)).None?
  {
  }

  /** `_port_to_dict`. */
  function PortToDict(p: Port): Value {
    Dict(map[
      "id" := Str(p.id),
      "node_id" := Str(p.nodeId),
      "name" := Str(p.name),
      "direction" := Str(DirectionName(p.direction)),
      "metadata" := Dict(p.metadata)])
  }

  /** `_port_from_dict`: `id`, `node_id` and `direction` are required. */
  function PortFromDict(v: Value): Option<Port> {
    if !v.Dict? then None
    else
      var d := v.entries;
      var id := RequiredStr(d, "id");
      var nodeId := RequiredStr(d, "node_id");
      var name := OptionalStr(d, "name", "");
      var directionName := RequiredStr(d, "direction");
      var direction := if directionName.Some? then DirectionFromName(directionName.value) else None;
      var metadata := OptionalDict(d, "metadata");
      if id.Some? && nodeId.Some? && name.Some? && direction.Some? && metadata.Some? then
        Some(Port(id.value, nodeId.value, name.value, direction.value, metadata.value))
      else None
  }

  lemma PortRoundTrip(p: Port)
    ensures PortFromDict(PortToDict(p)) == Some(p)
  {
    DirectionNameRoundTrip(p.direction);
  }

  /** `_connection_to_dict`. */
  function ConnectionToDict(c: Connection): Value {
    Dict(map[
      "id" := Str(c.id),
      "from_port_id" := Str(c.fromPortId),
      "to_port_id" := Str(c.toPortId),
      "metadata" := Dict(c.metadata)])
  }

  /** `_connection_from_dict`: both port ids and the id are required. */
  function ConnectionFromDict(v: Value): Option<Connection> {
    if !v.Dict? then None
    else
      var d := v.entries;
      var id := RequiredStr(d, "id");
      var from := RequiredStr(d, "from_port_id");
      var to := RequiredStr(d, "to_port_id");
      var metadata := OptionalDict(d, "metadata");
      if id.Some? && from.Some? && to.Some? && metadata.Some? then
        Some(Connection(id.value, from.value, to.value, metadata.value))
      else None
  }

  lemma ConnectionRoundTrip(c: Connection)
    ensures ConnectionFromDict(ConnectionToDict(c)) == Some(c)
  {
  }

  // ---------------------------------------------------------------------
  // Port registration on load

  /** Two block lists with the same ids at the same places. */
  predicate SameIds(a: seq<Block>, b: seq<Block>) {
    |a| == |b| && forall j :: 0 <= j < |a| ==> a[j].id == b[j].id
  }

  lemma {:induction false} LastIndexOfSameIds(a: seq<Block>, b: seq<Block>, id: string)
    requires SameIds(a, b)
    ensures LastIndexOf(a, BlockKey, id) == LastIndexOf(b, BlockKey, id)
  {
    if a != [] {
      LastIndexOfSameIds(a[..|a| - 1], b[..|b| - 1], id);
    }
  }

  /** `block_map = {block.id: block for block in blocks}`, holding the
      block's place in the list: a later block with the same id overwrites
      an earlier one, so each id maps to the last block that has it. */
  function BlockMap(blocks: seq<Block>): (r: map<string, nat>)
    ensures forall id :: id in r <==> LastIndexOf(blocks, BlockKey, id) < |blocks|
    ensures forall id :: id in r ==> r[id] == LastIndexOf(blocks, BlockKey, id)
  {
    if blocks == [] then map[]
    else BlockMap(blocks[..|blocks| - 1])[blocks[|blocks| - 1].id := |blocks| - 1]
  }

  /** One turn of the registration loop: the port's id is appended to the
      `port_ids` of the block `block_map` gives for its owner, unless it is
      already listed there; a port whose owner is missing changes nothing. */
  function Register(blocks: seq<Block>, port: Port): (r: seq<Block>)
    ensures SameIds(r, blocks)
  {
    var i := LastIndexOf(blocks, BlockKey, port.nodeId);
    if i < |blocks| && port.id !in blocks[i].portIds then
      blocks[i := blocks[i].(portIds := blocks[i].portIds + [port.id])]
    else blocks
  }

  /** The blocks after the registration loop over `ports`. */
  function Repaired(blocks: seq<Block>, ports: seq<Port>): (r: seq<Block>)
    ensures SameIds(r, blocks)
  {
    if ports == [] then blocks
    else Register(Repaired(blocks, ports[..|ports| - 1]), ports[|ports| - 1])
  }

  /** The block at `j` is the one `block_map` keeps for its id: no later
      block has the same id. */
  predicate IsOwner(blocks: seq<Block>, j: int)
    requires 0 <= j < |blocks|
  {
    forall k :: j < k < |blocks| ==> blocks[k].id != blocks[j].id
  }

  lemma OwnerIsLast(blocks: seq<Block>, j: int)
    requires 0 <= j < |blocks|
    ensures IsOwner(blocks, j) <==> LastIndexOf(blocks, BlockKey, blocks[j].id) == j
  {
    var i := LastIndexOf(blocks, BlockKey, blocks[j].id);
    if IsOwner(blocks, j) {
      assert BlockKey(blocks[j]) == blocks[j].id;
      assert i < |blocks|;
    }
  }

  lemma OwnedPortIdsSnoc(ports: seq<Port>, nodeId: string)
    requires ports != []
    ensures OwnedPortIds(ports, nodeId) == OwnedPortIds(ports[..|ports| - 1], nodeId)
      + (if ports[|ports| - 1].nodeId == nodeId then {ports[|ports| - 1].id} else {})
  {
    var init := ports[..|ports| - 1];
    assert ports == init + [ports[|ports| - 1]];
  }

  /** One registration step, for the block at `j`: only its `port_ids`
      can change, and they gain exactly the port's id when it is the owner
      kept for the port's block id. */
  lemma RegisterAt(blocks: seq<Block>, port: Port, j: int, x: string)
    requires 0 <= j < |blocks|
    ensures Register(blocks, port)[j] == blocks[j].(portIds := Register(blocks, port)[j].portIds)
    ensures blocks[j].portIds <= Register(blocks, port)[j].portIds
    ensures x in Register(blocks, port)[j].portIds <==>
      x in blocks[j].portIds || (IsOwner(blocks, j) && port.nodeId == blocks[j].id && port.id == x)
    ensures NoDuplicates(blocks[j].portIds) ==> NoDuplicates(Register(blocks, port)[j].portIds)
  {
    OwnerIsLast(blocks, j);
    var i := LastIndexOf(blocks, BlockKey, port.nodeId);
    if i < |blocks| {
      assert BlockKey(blocks[i]) == port.nodeId;
    }
    if IsOwner(blocks, j) && port.nodeId == blocks[j].id {
      assert i == j;
    }
  }

  /** What registering `ports` does to the block at `j`: it keeps
      everything but its `port_ids`; those start with the stored ones and
      gain the ids of the ports that name this block as owner, exactly when
      it is the last block with its id; no id is listed twice that was not
      before. So a port whose owner is missing is registered nowhere. */
  lemma {:induction false} RepairedAt(blocks: seq<Block>, ports: seq<Port>, j: int, x: string)
    requires 0 <= j < |blocks|
    ensures Repaired(blocks, ports)[j] == blocks[j].(portIds := Repaired(blocks, ports)[j].portIds)
    ensures blocks[j].portIds <= Repaired(blocks, ports)[j].portIds
    ensures x in Repaired(blocks, ports)[j].portIds <==>
      x in blocks[j].portIds || (IsOwner(blocks, j) && x in OwnedPortIds(ports, blocks[j].id))
    ensures NoDuplicates(blocks[j].portIds) ==> NoDuplicates(Repaired(blocks, ports)[j].portIds)
  {
    if ports != [] {
      var init := ports[..|ports| - 1];
      var port := ports[|ports| - 1];
      var before := Repaired(blocks, init);
      RepairedAt(blocks, init, j, x);
      RegisterAt(before, port, j, x);
      OwnedPortIdsSnoc(ports, blocks[j].id);
      assert IsOwner(before, j) <==> IsOwner(blocks, j);
    }
  }

  /** After loading, every port whose owner exists is listed by that owner
      (the last block with the port's block id). */
  lemma RepairedListsPorts(blocks: seq<Block>, ports: seq<Port>, p: Port)
    requires p in ports
    requires LastIndexOf(blocks, BlockKey, p.nodeId) < |blocks|
    ensures p.id in Repaired(blocks, ports)[LastIndexOf(blocks, BlockKey, p.nodeId)].portIds
  {
    var j := LastIndexOf(blocks, BlockKey, p.nodeId);
    assert BlockKey(blocks[j]) == p.nodeId;
    OwnerIsLast(blocks, j);
    RepairedAt(blocks, ports, j, p.id);
  }

  /** Every port whose owner exists is already listed by that owner. */
  predicate PortsListed(blocks: seq<Block>, ports: seq<Port>) {
    forall p :: p in ports && LastIndexOf(blocks, BlockKey, p.nodeId) < |blocks| ==>
      p.id in blocks[LastIndexOf(blocks, BlockKey, p.nodeId)].portIds
  }

  /** When every port is already listed by its owner, registration changes
      nothing. */
  lemma {:induction false} RepairedUnchanged(blocks: seq<Block>, ports: seq<Port>)
    requires PortsListed(blocks, ports)
    ensures Repaired(blocks, ports) == blocks
  {
    if ports != [] {
      var init := ports[..|ports| - 1];
      assert forall p :: p in init ==> p in ports;
      RepairedUnchanged(blocks, init);
      assert ports[|ports| - 1] in ports;
    }
  }

  /** Registering the same ports a second time adds nothing. */
  lemma RepairedIdempotent(blocks: seq<Block>, ports: seq<Port>)
    ensures Repaired(Repaired(blocks, ports), ports) == Repaired(blocks, ports)
  {
    var after := Repaired(blocks, ports);
    forall p | p in ports && LastIndexOf(after, BlockKey, p.nodeId) < |after|
      ensures p.id in after[LastIndexOf(after, BlockKey, p.nodeId)].portIds
    {
      LastIndexOfSameIds(after, blocks, p.nodeId);
      RepairedListsPorts(blocks, ports, p);
    }
    RepairedUnchanged(after, ports);
  }

  lemma RepairedSnoc(blocks: seq<Block>, ports: seq<Port>, i: int)
    requires 0 <= i < |ports|
    ensures Repaired(blocks, ports[..i + 1]) == Register(Repaired(blocks, ports[..i]), ports[i])
  {
    assert ports[..i + 1][..i] == ports[..i];
  }

  /** The registration loop of `_scene_from_dict`, over the block list
      held by `block_map`. */
  method RegisterPorts(blocks: seq<Block>, ports: seq<Port>) returns (out: seq<Block>)
    ensures out == Repaired(blocks, ports)
  {
    var blockMap := BlockMap(blocks);
    out := blocks;
    for i := 0 to |ports|
      invariant out == Repaired(blocks, ports[..i])
    {
      var port := ports[i];
      RepairedSnoc(blocks, ports, i);
      LastIndexOfSameIds(out, blocks, port.nodeId);
      if port.nodeId in blockMap {
        var k := blockMap[port.nodeId];
        if port.id !in out[k].portIds {
          out := out[k := out[k].(portIds := out[k].portIds + [port.id])];
        }
      }
    }
    assert ports[..|ports|] == ports;
  }

  // ---------------------------------------------------------------------
  // Scenes

  /** The stored fields of a scene. */
  datatype SceneRecord = SceneRecord(
    id: string,
    name: string,
    sceneLabel: string,
    blocks: seq<Block>,
    ports: seq<Port>,
    connections: seq<Connection>)

  function Record(s: Scene): SceneRecord
    reads s
  {
    SceneRecord(s.id, s.name, s.sceneLabel, s.blocks, s.ports, s.connections)
  }

  /** `_scene_to_dict`, of a scene's fields. */
  function SceneToDict(s: SceneRecord): Value {
    Dict(map[
      "id" := Str(s.id),
      "name" := Str(s.name),
      "label" := Str(s.sceneLabel),
      "blocks" := List(Map(s.blocks, BlockToDict)),
      "ports" := List(Map(s.ports, PortToDict)),
      "connections" := List(Map(s.connections, ConnectionToDict))])
  }

  /** The fields `_scene_from_dict` reads before registering ports; `id`
      is required, the rest defaults to empty. */
  function SceneParts(v: Value): Option<SceneRecord> {
    if !v.Dict? then None
    else
      var d := v.entries;
      var blocks := DecodeList(d, "blocks", BlockFromDict);
      var ports := DecodeList(d, "ports", PortFromDict);
      var connections := DecodeList(d, "connections", ConnectionFromDict);
      var id := RequiredStr(d, "id");
      var name := OptionalStr(d, "name", "");
      var sceneLabel := OptionalStr(d, "label", "");
      if blocks.Some? && ports.Some? && connections.Some? && id.Some? && name.Some? && sceneLabel.Some? then
        Some(SceneRecord(id.value, name.value, sceneLabel.value, blocks.value, ports.value, connections.value))
      else None
  }

  /** A scene as it is read back: the same fields, with
      its ports registered with their owners. */
  function Reloaded(s: SceneRecord): SceneRecord {
    s.(blocks := Repaired(s.blocks, s.ports))
  }

  /** `_scene_from_dict` on values: the scene's fields read back, with the
      ports registered with their owners. */
  function DecodeScene(v: Value): Option<SceneRecord> {
    match SceneParts(v)
    case None => None
    case Some(s) => Some(Reloaded(s))
  }

  /** `_scene_from_dict`: a new scene. */
  method SceneFromDict(payload: Value) returns (r: Option<Scene>)
    ensures r.None? <==> DecodeScene(payload).None?
    ensures r.Some? ==> fresh(r.value) && Record(r.value) == DecodeScene(payload).value
  {
    var parts := SceneParts(payload);
    if parts.None? {
      return None;
    }
    var s := parts.value;
    var blocks := RegisterPorts(s.blocks, s.ports);
    var scene := new Scene(s.id, s.name, s.sceneLabel, blocks, s.ports, s.connections);
    return Some(scene);
  }

  lemma SceneListsRoundTrip(s: SceneRecord)
    ensures DecodeAll(Map(s.blocks, BlockToDict), BlockFromDict) == Some(s.blocks)
    ensures DecodeAll(Map(s.ports, PortToDict), PortFromDict) == Some(s.ports)
    ensures DecodeAll(Map(s.connections, ConnectionToDict), ConnectionFromDict) == Some(s.connections)
  {
    forall i | 0 <= i < |s.blocks| ensures BlockFromDict(BlockToDict(s.blocks[i])) == Some(s.blocks[i]) {
      BlockRoundTrip(s.blocks[i]);
    }
    forall i | 0 <= i < |s.ports| ensures PortFromDict(PortToDict(s.ports[i])) == Some(s.ports[i]) {
      PortRoundTrip(s.ports[i]);
    }
    forall i | 0 <= i < |s.connections|
      ensures ConnectionFromDict(ConnectionToDict(s.connections[i])) == Some(s.connections[i])
    {
      ConnectionRoundTrip(s.connections[i]);
    }
    DecodeAllRoundTrip(s.blocks, BlockToDict, BlockFromDict);
    DecodeAllRoundTrip(s.ports, PortToDict, PortFromDict);
    DecodeAllRoundTrip(s.connections, ConnectionToDict, ConnectionFromDict);
  }

  lemma SceneDictFields(s: SceneRecord)
    ensures SceneToDict(s).Dict?
    ensures RequiredStr(SceneToDict(s).entries, "id") == Some(s.id)
    ensures OptionalStr(SceneToDict(s).entries, "name", "") == Some(s.name)
    ensures OptionalStr(SceneToDict(s).entries, "label", "") == Some(s.sceneLabel)
    ensures OptionalList(SceneToDict(s).entries, "blocks") == Some(Map(s.blocks, BlockToDict))
    ensures OptionalList(SceneToDict(s).entries, "ports") == Some(Map(s.ports, PortToDict))
    ensures OptionalList(SceneToDict(s).entries, "connections") == Some(Map(s.connections, ConnectionToDict))
  {
  }

  /** A stored scene reads back with every field as it was, except that
      the ports are registered with their owners. */
  lemma SceneRoundTrip(s: SceneRecord)
    ensures DecodeScene(SceneToDict(s)) == Some(Reloaded(s))
  {
    SceneListsRoundTrip(s);
    SceneDictFields(s);
    var d := SceneToDict(s).entries;
    assert DecodeList(d, "blocks", BlockFromDict) == Some(s.blocks);
    assert DecodeList(d, "ports", PortFromDict) == Some(s.ports);
    assert DecodeList(d, "connections", ConnectionFromDict) == Some(s.connections);
    assert SceneParts(SceneToDict(s)) == Some(s);
  }

  /** A scene whose ports are all listed by their owners reads back as
      itself; so does every scene as it was read, saved again. */
  lemma SceneRoundTripExact(s: SceneRecord, v: Value)
    ensures PortsListed(s.blocks, s.ports) ==> DecodeScene(SceneToDict(s)) == Some(s)
    ensures DecodeScene(v) == Some(s) ==> DecodeScene(SceneToDict(s)) == Some(s)
  {
    SceneRoundTrip(s);
    if PortsListed(s.blocks, s.ports) {
      RepairedUnchanged(s.blocks, s.ports);
    }
    if DecodeScene(v) == Some(s) {
      var parts := SceneParts(v).value;
      RepairedIdempotent(parts.blocks, parts.ports);
    }
  }

  /** Only `id` is needed: name and label default to empty, and so do the
      three lists. */
  lemma SceneDefaults(id: string)
    ensures DecodeScene(Dict(map["id" := Str(id)])) == Some(SceneRecord(id, "", "", [], [], []))
  {
  }

  // ---------------------------------------------------------------------
  // Projects

  /** The stored fields of a project. */
  datatype ProjectRecord = ProjectRecord(
    name: string,
    variables: map<string, Value>,
    scenes: seq<SceneRecord>)

  function Records(scenes: seq<Scene>): (r: seq<SceneRecord>)
    reads scenes
    ensures |r| == |scenes|
    ensures forall i :: 0 <= i < |scenes| ==> r[i] == Record(scenes[i])
  {
    if scenes == [] then [] else Records(scenes[..|scenes| - 1]) + [Record(scenes[|scenes| - 1])]
  }

  function ProjectRecordOf(p: Project): ProjectRecord
    reads p, p.scenes
  {
    ProjectRecord(p.name, p.variables, Records(p.scenes))
  }

  /** `project_to_dict`: the name, the variables and the scenes in order. */
  function ProjectToDict(p: ProjectRecord): Value {
    Dict(map[
      "name" := Str(p.name),
      "variables" := Dict(p.variables),
      "scenes" := List(Map(p.scenes, SceneToDict))])
  }

  /** `project_from_dict` on values: every key is optional; the name
      defaults to `Unnamed`. */
  function DecodeProject(v: Value): Option<ProjectRecord> {
    if !v.Dict? then None
    else
      var d := v.entries;
      var scenes := DecodeList(d, "scenes", DecodeScene);
      var name := OptionalStr(d, "name", "Unnamed");
      var variables := OptionalDict(d, "variables");
      if scenes.Some? && name.Some? && variables.Some? then
        Some(ProjectRecord(name.value, variables.value, scenes.value))
      else None
  }

  /** `project_from_dict`: a new project holding a new scene for each
      stored scene, in order. The project file stores no images or
      characters, so the new project has none. */
  method ProjectFromDict(payload: Value) returns (r: Option<Project>)
    ensures r.None? <==> DecodeProject(payload).None?
    ensures r.Some? ==> fresh(r.value) && ProjectRecordOf(r.value) == DecodeProject(payload).value
    ensures r.Some? ==> r.value.images == map[] && r.value.characters == map[]
  {
    if !payload.Dict? {
      return None;
    }
    var d := payload.entries;
    var items := OptionalList(d, "scenes");
    var name := OptionalStr(d, "name", "Unnamed");
    var variables := OptionalDict(d, "variables");
    if items.None? || name.None? || variables.None? {
      return None;
    }
    var scenes: seq<Scene> := [];
    for i := 0 to |items.value|
      invariant |scenes| == i
      invariant forall j :: 0 <= j < i ==> DecodeScene(items.value[j]) == Some(Record(scenes[j]))
    {
      var scene := SceneFromDict(items.value[i]);
      if scene.None? {
        assert DecodeAll(items.value, DecodeScene).None?;
        return None;
      }
      scenes := scenes + [scene.value];
    }
    var decoded := DecodeAll(items.value, DecodeScene);
    assert decoded.Some?;
    assert Records(scenes) == decoded.value;
    var project := new Project(name.value, scenes, variables.value, map[], map[]);
    return Some(project);
  }

  lemma ScenesRoundTrip(scenes: seq<SceneRecord>)
    ensures DecodeAll(Map(scenes, SceneToDict), DecodeScene) == Some(Map(scenes, Reloaded))
  {
    forall i | 0 <= i < |scenes|
      ensures DecodeScene(SceneToDict(scenes[i])) == Some(Reloaded(scenes[i]))
    {
      SceneRoundTrip(scenes[i]);
    }
    var r := DecodeAll(Map(scenes, SceneToDict), DecodeScene);
    assert r.Some?;
    assert r.value == Map(scenes, Reloaded);
  }

  lemma ProjectDictFields(p: ProjectRecord)
    ensures ProjectToDict(p).Dict?
    ensures OptionalList(ProjectToDict(p).entries, "scenes") == Some(Map(p.scenes, SceneToDict))
    ensures OptionalStr(ProjectToDict(p).entries, "name", "Unnamed") == Some(p.name)
    ensures OptionalDict(ProjectToDict(p).entries, "variables") == Some(p.variables)
  {
  }

  /** A stored project reads back with its name, its variables and its
      scenes in the same order, each scene as `SceneRoundTrip` says. */
  lemma ProjectRoundTrip(p: ProjectRecord)
    ensures DecodeProject(ProjectToDict(p)) == Some(p.(scenes := Map(p.scenes, Reloaded)))
  {
    ScenesRoundTrip(p.scenes);
    ProjectDictFields(p);
  }

  /** Scenes whose ports are all listed by their owners reload unchanged. */
  lemma ReloadedUnchanged(scenes: seq<SceneRecord>)
    requires forall i :: 0 <= i < |scenes| ==> PortsListed(scenes[i].blocks, scenes[i].ports)
    ensures Map(scenes, Reloaded) == scenes
  {
    var q := Map(scenes, Reloaded);
    forall i | 0 <= i < |scenes| ensures q[i] == scenes[i] {
      RepairedUnchanged(scenes[i].blocks, scenes[i].ports);
    }
  }

  /** When every scene's ports are listed by their owners, a stored
      project reads back as itself. */
  lemma ProjectRoundTripExact(p: ProjectRecord)
    requires forall i :: 0 <= i < |p.scenes| ==> PortsListed(p.scenes[i].blocks, p.scenes[i].ports)
    ensures DecodeProject(ProjectToDict(p)) == Some(p)
  {
    ProjectRoundTrip(p);
    ReloadedUnchanged(p.scenes);
    hide DecodeProject, ProjectToDict, Map;
    assert p.(scenes := Map(p.scenes, Reloaded)) == p;
  }

  /** An empty dictionary reads as a project named `Unnamed` with no
      variables and no scenes. */
  lemma ProjectDefaults()
    ensures DecodeProject(Dict(map[])) == Some(ProjectRecord("Unnamed", map[], []))
  {
  }
}
