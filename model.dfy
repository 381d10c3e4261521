/** The scene-graph data model: blocks (typed nodes with a parameter
    dictionary and a position), ports (attachment points owned by a block),
    connections (port-to-port edges), scenes (one graph each) and the
    project (the ordered scenes plus project-wide dictionaries).

    Blocks, ports and connections are values. Scenes and projects are
    objects whose lists the editing operations replace or extend in place. */
module Model {
  import opened Wrappers
  import opened Seqs

  /** Every block type the generators dispatch on or the editor shows.
      The constructors carry the enumeration's member names, which are
      also the names the project file stores. */
  datatype BlockType =
    | LABEL | SAY | NARRATION | MENU | IF | ELIF | ELSE | WHILE | FOR
    | JUMP | CALL | RETURN | SCENE | SHOW | HIDE | IMAGE | PAUSE
    | TRANSITION | WITH | SOUND | MUSIC | STOP_MUSIC | STOP_SOUND
    | QUEUE_MUSIC | QUEUE_SOUND | SET_VAR | DEFAULT | DEFINE | PYTHON
    | CHARACTER | VOICE | CENTER | TEXT | EXTEND | INTERJECT | START | STYLE

  /** The member name of a block type (`block.type.name`). */
  function TypeName(t: BlockType): string
  {
    match t
    case LABEL => "LABEL"            case SAY => "SAY"
    case NARRATION => "NARRATION"    case MENU => "MENU"
    case IF => "IF"                  case ELIF => "ELIF"
    case ELSE => "ELSE"              case WHILE => "WHILE"
    case FOR => "FOR"                case JUMP => "JUMP"
    case CALL => "CALL"              case RETURN => "RETURN"
    case SCENE => "SCENE"            case SHOW => "SHOW"
    case HIDE => "HIDE"              case IMAGE => "IMAGE"
    case PAUSE => "PAUSE"            case TRANSITION => "TRANSITION"
    case WITH => "WITH"              case SOUND => "SOUND"
    case MUSIC => "MUSIC"            case STOP_MUSIC => "STOP_MUSIC"
    case STOP_SOUND => "STOP_SOUND"  case QUEUE_MUSIC => "QUEUE_MUSIC"
    case QUEUE_SOUND => "QUEUE_SOUND" case SET_VAR => "SET_VAR"
    case DEFAULT => "DEFAULT"        case DEFINE => "DEFINE"
    case PYTHON => "PYTHON"          case CHARACTER => "CHARACTER"
    case VOICE => "VOICE"            case CENTER => "CENTER"
    case TEXT => "TEXT"              case EXTEND => "EXTEND"
    case INTERJECT => "INTERJECT"    case START => "START"
    case STYLE => "STYLE"
  }

  /** The only block type whose name could be `s`, found by its first
      letter; `TypeFromName` confirms the whole name. */
  function TypeCandidate(s: string): Option<BlockType> {
    if s == "" then None
    else match s[0]
      case 'L' => if s == "LABEL" then Some(LABEL) else None
      case 'S' => if s == "SAY" then Some(SAY) else if s == "SCENE" then Some(SCENE) else if s == "SHOW" then Some(SHOW) else if s == "SOUND" then Some(SOUND) else if s == "STOP_MUSIC" then Some(STOP_MUSIC) else if s == "STOP_SOUND" then Some(STOP_SOUND) else if s == "SET_VAR" then Some(SET_VAR) else if s == "START" then Some(START) else if s == "STYLE" then Some(STYLE) else None
      case 'N' => if s == "NARRATION" then Some(NARRATION) else None
      case 'M' => if s == "MENU" then Some(MENU) else if s == "MUSIC" then Some(MUSIC) else None
      case 'I' => if s == "IF" then Some(IF) else if s == "IMAGE" then Some(IMAGE) else if s == "INTERJECT" then Some(INTERJECT) else None
      case 'E' => if s == "ELIF" then Some(ELIF) else if s == "ELSE" then Some(ELSE) else if s == "EXTEND" then Some(EXTEND) else None
      case 'W' => if s == "WHILE" then Some(WHILE) else if s == "WITH" then Some(WITH) else None
      case 'F' => if s == "FOR" then Some(FOR) else None
      case 'J' => if s == "JUMP" then Some(JUMP) else None
      case 'C' => if s == "CALL" then Some(CALL) else if s == "CHARACTER" then Some(CHARACTER) else if s == "CENTER" then Some(CENTER) else None
      case 'R' => if s == "RETURN" then Some(RETURN) else None
      case 'H' => if s == "HIDE" then Some(HIDE) else None
      case 'P' => if s == "PAUSE" then Some(PAUSE) else if s == "PYTHON" then Some(PYTHON) else None
      case 'T' => if s == "TRANSITION" then Some(TRANSITION) else if s == "TEXT" then Some(TEXT) else None
      case 'Q' => if s == "QUEUE_MUSIC" then Some(QUEUE_MUSIC) else if s == "QUEUE_SOUND" then Some(QUEUE_SOUND) else None
      case 'D' => if s == "DEFAULT" then Some(DEFAULT) else if s == "DEFINE" then Some(DEFINE) else None
      case 'V' => if s == "VOICE" then Some(VOICE) else None
      case _ => None
  }

  /** The block type with a given member name (`BlockType[name]`); `None`
      where Python raises KeyError. */
  function TypeFromName(s: string): (r: Option<BlockType>)
    ensures r.Some? ==> TypeName(r.value) == s
  {
    var t := TypeCandidate(s);
    if t.Some? && TypeName(t.value) == s then t else None
  }

  /** Storing a block type by name and looking the name up again gives the
      type back. */
  lemma TypeNameRoundTrip(t: BlockType)
    ensures TypeFromName(TypeName(t)) == Some(t)
  {
    if t in {SAY, SCENE, SHOW, SOUND, STOP_MUSIC, STOP_SOUND, SET_VAR, START, STYLE} {
      TypeNamesRoundTripS(t);
    } else if t in {LABEL, NARRATION, MENU, MUSIC, IF, IMAGE, INTERJECT, ELIF, ELSE, EXTEND, WHILE, WITH} {
      TypeNamesRoundTripA(t);
    } else {
      TypeNamesRoundTripB(t);
    }
  }

  lemma TypeNamesRoundTripS(t: BlockType)
    requires t in {SAY, SCENE, SHOW, SOUND, STOP_MUSIC, STOP_SOUND, SET_VAR, START, STYLE}
    ensures TypeFromName(TypeName(t)) == Some(t)
  {
    match t
    case SAY => assert TypeCandidate("SAY") == Some(SAY);
    case SCENE => assert TypeCandidate("SCENE") == Some(SCENE);
    case SHOW => assert TypeCandidate("SHOW") == Some(SHOW);
    case SOUND => assert TypeCandidate("SOUND") == Some(SOUND);
    case STOP_MUSIC => assert TypeCandidate("STOP_MUSIC") == Some(STOP_MUSIC);
    case STOP_SOUND => assert TypeCandidate("STOP_SOUND") == Some(STOP_SOUND);
    case SET_VAR => assert TypeCandidate("SET_VAR") == Some(SET_VAR);
    case START => assert TypeCandidate("START") == Some(START);
    case STYLE => assert TypeCandidate("STYLE") == Some(STYLE);
  }

  lemma TypeNamesRoundTripA(t: BlockType)
    requires t in {LABEL, NARRATION, MENU, MUSIC, IF, IMAGE, INTERJECT, ELIF, ELSE, EXTEND, WHILE, WITH}
    ensures TypeFromName(TypeName(t)) == Some(t)
  {
    match t
    case LABEL => assert TypeCandidate("LABEL") == Some(LABEL);
    case NARRATION => assert TypeCandidate("NARRATION") == Some(NARRATION);
    case MENU => assert TypeCandidate("MENU") == Some(MENU);
    case MUSIC => assert TypeCandidate("MUSIC") == Some(MUSIC);
    case IF => assert TypeCandidate("IF") == Some(IF);
    case IMAGE => assert TypeCandidate("IMAGE") == Some(IMAGE);
    case INTERJECT => assert TypeCandidate("INTERJECT") == Some(INTERJECT);
    case ELIF => assert TypeCandidate("ELIF") == Some(ELIF);
    case ELSE => assert TypeCandidate("ELSE") == Some(ELSE);
    case EXTEND => assert TypeCandidate("EXTEND") == Some(EXTEND);
    case WHILE => assert TypeCandidate("WHILE") == Some(WHILE);
    case WITH => assert TypeCandidate("WITH") == Some(WITH);
  }

  lemma TypeNamesRoundTripB(t: BlockType)
    requires t in {FOR, JUMP, CALL, CHARACTER, CENTER, RETURN, HIDE, PAUSE, PYTHON, TRANSITION, TEXT, QUEUE_MUSIC, QUEUE_SOUND, DEFAULT, DEFINE, VOICE}
    ensures TypeFromName(TypeName(t)) == Some(t)
  {
    match t
    case FOR => assert TypeCandidate("FOR") == Some(FOR);
    case JUMP => assert TypeCandidate("JUMP") == Some(JUMP);
    case CALL => assert TypeCandidate("CALL") == Some(CALL);
    case CHARACTER => assert TypeCandidate("CHARACTER") == Some(CHARACTER);
    case CENTER => assert TypeCandidate("CENTER") == Some(CENTER);
    case RETURN => assert TypeCandidate("RETURN") == Some(RETURN);
    case HIDE => assert TypeCandidate("HIDE") == Some(HIDE);
    case PAUSE => assert TypeCandidate("PAUSE") == Some(PAUSE);
    case PYTHON => assert TypeCandidate("PYTHON") == Some(PYTHON);
    case TRANSITION => assert TypeCandidate("TRANSITION") == Some(TRANSITION);
    case TEXT => assert TypeCandidate("TEXT") == Some(TEXT);
    case QUEUE_MUSIC => assert TypeCandidate("QUEUE_MUSIC") == Some(QUEUE_MUSIC);
    case QUEUE_SOUND => assert TypeCandidate("QUEUE_SOUND") == Some(QUEUE_SOUND);
    case DEFAULT => assert TypeCandidate("DEFAULT") == Some(DEFAULT);
    case DEFINE => assert TypeCandidate("DEFINE") == Some(DEFINE);
    case VOICE => assert TypeCandidate("VOICE") == Some(VOICE);
  }

  datatype PortDirection = INPUT | OUTPUT

  function DirectionName(d: PortDirection): string
  {
    match d
    case INPUT => "INPUT"
    case OUTPUT => "OUTPUT"
  }

  /** `PortDirection[name]`; `None` where Python raises KeyError. */
  function DirectionFromName(s: string): (r: Option<PortDirection>)
    ensures r.Some? ==> DirectionName(r.value) == s
  {
    if s == "INPUT" then Some(INPUT) else if s == "OUTPUT" then Some(OUTPUT) else None
  }

  /** Storing a port direction by name and looking it up again gives it back. */
  lemma DirectionNameRoundTrip(d: PortDirection)
    ensures DirectionFromName(DirectionName(d)) == Some(d)
  {
  }

  /** A dynamically typed value as held in parameter and metadata
      dictionaries and in the project's JSON form. */
  datatype Value =
    | Null
    | Bool(b: bool)
    | Num(n: real)
    | Str(s: string)
    | List(items: seq<Value>)
    | Dict(entries: map<string, Value>)

  /** `params.get(key, default)` where a string is expected. A value that is
      present but not a string reads as `default` (see README). */
  function GetStr(params: map<string, Value>, key: string, default: string): (r: string)
    ensures key !in params ==> r == default
    ensures key in params && params[key].Str? ==> r == params[key].s
  {
    if key in params && params[key].Str? then params[key].s else default
  }

  datatype Port = Port(
    id: string,
    nodeId: string,
    name: string,
    direction: PortDirection,
    metadata: map<string, Value>)

  datatype Connection = Connection(
    id: string,
    fromPortId: string,
    toPortId: string,
    metadata: map<string, Value>)

  /** A node of the graph. Its position is only ever compared, never
      computed with, so it is kept as two reals. */
  datatype Block = Block(
    id: string,
    kind: BlockType,
    params: map<string, Value>,
    x: real,
    y: real,
    portIds: seq<string>)

  function BlockKey(b: Block): string { b.id }
  function PortKey(p: Port): string { p.id }
  function ConnectionKey(c: Connection): string { c.id }

  /** `scene.find_block(id)`: the first block in list order with that id. */
  function LookupBlock(blocks: seq<Block>, id: string): (r: Option<Block>)
    ensures r.None? <==> forall i :: 0 <= i < |blocks| ==> blocks[i].id != id
    ensures r.Some? ==> r.value in blocks && r.value.id == id
    ensures r.Some? ==> r.value == blocks[FirstIndexOf(blocks, BlockKey, id)]
  {
    var i := FirstIndexOf(blocks, BlockKey, id);
    if i < |blocks| then Some(blocks[i]) else None
  }

  /** `scene.find_port(id)`: the first port in list order with that id. */
  function LookupPort(ports: seq<Port>, id: string): (r: Option<Port>)
    ensures r.None? <==> forall i :: 0 <= i < |ports| ==> ports[i].id != id
    ensures r.Some? ==> r.value in ports && r.value.id == id
    ensures r.Some? ==> r.value == ports[FirstIndexOf(ports, PortKey, id)]
  {
    var i := FirstIndexOf(ports, PortKey, id);
    if i < |ports| then Some(ports[i]) else None
  }

  /** The list comprehensions of `remove_block` and `remove_connection`. */
  function KeepBlocks(blocks: seq<Block>, id: string): seq<Block> {
    Filter(blocks, (b: Block) => b.id != id)
  }

  function KeepPorts(ports: seq<Port>, nodeId: string): seq<Port> {
    Filter(ports, (p: Port) => p.nodeId != nodeId)
  }

  /** `{p.id for p in ports if p.node_id == node_id}`. */
  function OwnedPortIds(ports: seq<Port>, nodeId: string): (r: set<string>)
    ensures forall pid :: pid in r <==> exists p :: p in ports && p.nodeId == nodeId && p.id == pid
  {
    set p | p in ports && p.nodeId == nodeId :: p.id
  }

  function KeepConnections(connections: seq<Connection>, removed: set<string>): seq<Connection> {
    Filter(connections, (c: Connection) => c.fromPortId !in removed && c.toPortId !in removed)
  }

  function DropConnection(connections: seq<Connection>, id: string): seq<Connection> {
    Filter(connections, (c: Connection) => c.id != id)
  }

  /** The block list after `add_port(port)`: the port's id is appended to the
      `port_ids` of the first block that owns it, unless already listed. */
  function AttachPort(blocks: seq<Block>, port: Port): seq<Block> {
    var i := FirstIndexOf(blocks, BlockKey, port.nodeId);
    if i < |blocks| && port.id !in blocks[i].portIds then
      blocks[i := blocks[i].(portIds := blocks[i].portIds + [port.id])]
    else blocks
  }

  /** After `remove_block(id)`: no block has that id, no port belongs to it,
      no connection touches one of its ports, and every other block, port
      and connection is kept, as often as before and in the same order. */
  lemma RemoveBlockEffect(blocks: seq<Block>, ports: seq<Port>, connections: seq<Connection>, id: string)
    ensures forall b :: b in KeepBlocks(blocks, id) <==> b in blocks && b.id != id
    ensures forall p :: p in KeepPorts(ports, id) <==> p in ports && p.nodeId != id
    ensures forall c :: c in KeepConnections(connections, OwnedPortIds(ports, id)) <==>
      c in connections && c.fromPortId !in OwnedPortIds(ports, id) && c.toPortId !in OwnedPortIds(ports, id)
    ensures forall b: Block :: b.id != id ==> multiset(KeepBlocks(blocks, id))[b] == multiset(blocks)[b]
    ensures forall p: Port :: p.nodeId != id ==> multiset(KeepPorts(ports, id))[p] == multiset(ports)[p]
    ensures forall a, b :: KeepBlocks(a + b, id) == KeepBlocks(a, id) + KeepBlocks(b, id)
  {
    var removed := OwnedPortIds(ports, id);
    forall b | true
      ensures b in KeepBlocks(blocks, id) <==> b in blocks && b.id != id
      ensures b.id != id ==> multiset(KeepBlocks(blocks, id))[b] == multiset(blocks)[b]
    {
      FilterMembers(blocks, (b: Block) => b.id != id, b);
      FilterMultiplicity(blocks, (b: Block) => b.id != id, b);
    }
    forall p | true
      ensures p in KeepPorts(ports, id) <==> p in ports && p.nodeId != id
      ensures p.nodeId != id ==> multiset(KeepPorts(ports, id))[p] == multiset(ports)[p]
    {
      FilterMembers(ports, (p: Port) => p.nodeId != id, p);
      FilterMultiplicity(ports, (p: Port) => p.nodeId != id, p);
    }
    forall c | true
      ensures c in KeepConnections(connections, removed) <==>
        c in connections && c.fromPortId !in removed && c.toPortId !in removed
    {
      FilterMembers(connections, (c: Connection) => c.fromPortId !in removed && c.toPortId !in removed, c);
    }
    forall a, b | true
      ensures KeepBlocks(a + b, id) == KeepBlocks(a, id) + KeepBlocks(b, id)
    {
      FilterAppend(a, b, (b: Block) => b.id != id);
    }
  }

  /** `remove_connection(id)` drops every connection with that id and keeps
      all others, as often as before and in the same order. */
  lemma DropConnectionEffect(connections: seq<Connection>, id: string)
    ensures forall c :: c in DropConnection(connections, id) <==> c in connections && c.id != id
    ensures forall c: Connection :: c.id != id ==> multiset(DropConnection(connections, id))[c] == multiset(connections)[c]
    ensures (forall i :: 0 <= i < |connections| ==> connections[i].id != id) ==>
      DropConnection(connections, id) == connections
  {
    forall c | true
      ensures c in DropConnection(connections, id) <==> c in connections && c.id != id
      ensures c.id != id ==> multiset(DropConnection(connections, id))[c] == multiset(connections)[c]
    {
      FilterMembers(connections, (c: Connection) => c.id != id, c);
      FilterMultiplicity(connections, (c: Connection) => c.id != id, c);
    }
    if forall i :: 0 <= i < |connections| ==> connections[i].id != id {
      FilterKeepsAll(connections, (c: Connection) => c.id != id);
    }
  }

  /** `add_port`: when the owner is absent nothing changes; otherwise only the
      first block with the owner's id changes, and only in its `port_ids`,
      which then list the port's id (appended only if it was missing), so a
      duplicate-free list stays duplicate-free. */
  lemma AttachPortEffect(blocks: seq<Block>, port: Port)
    ensures |AttachPort(blocks, port)| == |blocks|
    ensures LookupBlock(blocks, port.nodeId).None? ==> AttachPort(blocks, port) == blocks
    ensures LookupBlock(blocks, port.nodeId).Some? ==>
      var i := FirstIndexOf(blocks, BlockKey, port.nodeId);
      var owner := AttachPort(blocks, port)[i];
      && (forall j :: 0 <= j < |blocks| && j != i ==> AttachPort(blocks, port)[j] == blocks[j])
      && owner == blocks[i].(portIds := owner.portIds)
      && owner.portIds == (if port.id in blocks[i].portIds then blocks[i].portIds
                           else blocks[i].portIds + [port.id])
      && port.id in owner.portIds
      && (NoDuplicates(blocks[i].portIds) ==> NoDuplicates(owner.portIds))
  {
  }

  /** A scene: one graph, emitted under one Ren'Py label (`sceneLabel`). */
  class Scene {
    const id: string
    var name: string
    var sceneLabel: string
    var blocks: seq<Block>
    var ports: seq<Port>
    var connections: seq<Connection>

    constructor (id: string, name: string, sceneLabel: string,
                 blocks: seq<Block>, ports: seq<Port>, connections: seq<Connection>)
      ensures this.id == id && this.name == name && this.sceneLabel == sceneLabel
      ensures this.blocks == blocks && this.ports == ports && this.connections == connections
    {
      this.id := id;
      this.name := name;
      this.sceneLabel := sceneLabel;
      this.blocks := blocks;
      this.ports := ports;
      this.connections := connections;
    }

    /** `find_block`: a linear search returning the first match. */
    method FindBlock(blockId: string) returns (r: Option<Block>)
      ensures r == LookupBlock(blocks, blockId)
    {
      var i := 0;
      while i < |blocks|
        invariant 0 <= i <= |blocks|
        invariant forall j :: 0 <= j < i ==> blocks[j].id != blockId
      {
        if blocks[i].id == blockId {
          return Some(blocks[i]);
        }
        i := i + 1;
      }
      return None;
    }

    /** `find_port`: a linear search returning the first match. */
    method FindPort(portId: string) returns (r: Option<Port>)
      ensures r == LookupPort(ports, portId)
    {
      var i := 0;
      while i < |ports|
        invariant 0 <= i <= |ports|
        invariant forall j :: 0 <= j < i ==> ports[j].id != portId
      {
        if ports[i].id == portId {
          return Some(ports[i]);
        }
        i := i + 1;
      }
      return None;
    }

    method AddBlock(block: Block)
      modifies this
      ensures blocks == old(blocks) + [block]
      ensures ports == old(ports) && connections == old(connections)
      ensures name == old(name) && sceneLabel == old(sceneLabel)
    {
      blocks := blocks + [block];
    }

    /** `remove_block`: cascades to the block's ports and to every connection
      that touches one of them (see RemoveBlockEffect). */
    method RemoveBlock(blockId: string)
      modifies this
      ensures blocks == KeepBlocks(old(blocks), blockId)
      ensures ports == KeepPorts(old(ports), blockId)
      ensures connections == KeepConnections(old(connections), OwnedPortIds(old(ports), blockId))
      ensures name == old(name) && sceneLabel == old(sceneLabel)
    {
      blocks := KeepBlocks(blocks, blockId);
      var removed := OwnedPortIds(ports, blockId);
      ports := KeepPorts(ports, blockId);
      connections := KeepConnections(connections, removed);
    }

    /** `add_port`: appends the port and registers it with its owner block
      (see AttachPortEffect). */
    method AddPort(port: Port)
      modifies this
      ensures ports == old(ports) + [port]
      ensures blocks == AttachPort(old(blocks), port)
      ensures connections == old(connections)
      ensures name == old(name) && sceneLabel == old(sceneLabel)
    {
      ports := ports + [port];
      var block := FindBlock(port.nodeId);
      if block.Some? && port.id !in block.value.portIds {
        var i := FirstIndexOf(blocks, BlockKey, port.nodeId);
        blocks := blocks[i := block.value.(portIds := block.value.portIds + [port.id])];
      }
    }

    method AddConnection(connection: Connection)
      modifies this
      ensures connections == old(connections) + [connection]
      ensures blocks == old(blocks) && ports == old(ports)
      ensures name == old(name) && sceneLabel == old(sceneLabel)
    {
      connections := connections + [connection];
    }

    /** `remove_connection` (see DropConnectionEffect). */
    method RemoveConnection(connectionId: string)
      modifies this
      ensures connections == DropConnection(old(connections), connectionId)
      ensures blocks == old(blocks) && ports == old(ports)
      ensures name == old(name) && sceneLabel == old(sceneLabel)
    {
      connections := DropConnection(connections, connectionId);
    }
  }

  function SceneKey(s: Scene): string { s.id }

  /** `project.find_scene(id)`: the first scene in list order with that id. */
  function LookupScene(scenes: seq<Scene>, id: string): (r: Option<Scene>)
    ensures r.None? <==> forall i :: 0 <= i < |scenes| ==> scenes[i].id != id
    ensures r.Some? ==> r.value in scenes && r.value.id == id
    ensures r.Some? ==> r.value == scenes[FirstIndexOf(scenes, SceneKey, id)]
  {
    var i := FirstIndexOf(scenes, SceneKey, id);
    if i < |scenes| then Some(scenes[i]) else None
  }

  function DropScene(scenes: seq<Scene>, id: string): seq<Scene> {
    Filter(scenes, (s: Scene) => s.id != id)
  }

  /** `remove_scene(id)` drops every scene with that id and keeps all others
      in their order. */
  lemma DropSceneEffect(scenes: seq<Scene>, id: string)
    ensures forall s :: s in DropScene(scenes, id) <==> s in scenes && s.id != id
    ensures forall a, b :: DropScene(a + b, id) == DropScene(a, id) + DropScene(b, id)
    ensures forall s: Scene :: s.id != id ==> multiset(DropScene(scenes, id))[s] == multiset(scenes)[s]
  {
    forall s | true
      ensures s in DropScene(scenes, id) <==> s in scenes && s.id != id
      ensures s.id != id ==> multiset(DropScene(scenes, id))[s] == multiset(scenes)[s]
    {
      FilterMembers(scenes, (s: Scene) => s.id != id, s);
      FilterMultiplicity(scenes, (s: Scene) => s.id != id, s);
    }
    forall a, b | true
      ensures DropScene(a + b, id) == DropScene(a, id) + DropScene(b, id)
    {
      FilterAppend(a, b, (s: Scene) => s.id != id);
    }
  }

  /** The whole visual-novel project. `images` (name to path) and
      `characters` (name to a dictionary holding `display_name`) are the
      project-wide dictionaries the script generator reads. */
  class Project {
    var name: string
    var scenes: seq<Scene>
    var variables: map<string, Value>
    var images: map<string, string>
    var characters: map<string, map<string, Value>>

    constructor (name: string, scenes: seq<Scene>, variables: map<string, Value>,
                 images: map<string, string>, characters: map<string, map<string, Value>>)
      ensures this.name == name && this.scenes == scenes && this.variables == variables
      ensures this.images == images && this.characters == characters
    {
      this.name := name;
      this.scenes := scenes;
      this.variables := variables;
      this.images := images;
      this.characters := characters;
    }

    /** `find_scene`: a linear search returning the first match. */
    method FindScene(sceneId: string) returns (r: Option<Scene>)
      ensures r == LookupScene(scenes, sceneId)
    {
      var i := 0;
      while i < |scenes|
        invariant 0 <= i <= |scenes|
        invariant forall j :: 0 <= j < i ==> scenes[j].id != sceneId
      {
        if scenes[i].id == sceneId {
          return Some(scenes[i]);
        }
        i := i + 1;
      }
      return None;
    }

    method AddScene(scene: Scene)
      modifies this
      ensures scenes == old(scenes) + [scene]
      ensures name == old(name) && variables == old(variables)
      ensures images == old(images) && characters == old(characters)
    {
      scenes := scenes + [scene];
    }

    /** `remove_scene` (see DropSceneEffect). */
    method RemoveScene(sceneId: string)
      modifies this
      ensures scenes == DropScene(old(scenes), sceneId)
      ensures name == old(name) && variables == old(variables)
      ensures images == old(images) && characters == old(characters)
    {
      scenes := DropScene(scenes, sceneId);
    }
  }
}
