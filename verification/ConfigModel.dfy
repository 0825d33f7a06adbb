/** The saved server list, as functions on lists, and the ordered map it is
    meant to be. */
module ConfigModel {

  datatype Option<T> = None | Some(value: T)

  type Long = x: int | -0x8000_0000_0000_0000 <= x < 0x8000_0000_0000_0000

  /** Everything in a configuration but its id. */
  datatype Details = Details(
    name: string, sshHost: string, sshPort: int, username: string, password: string,
    usePrivateKey: bool, privateKeyPath: string, passphrase: string,
    remoteBridgeHost: string, remoteBridgePort: int, localBridgePort: int, localBridgeHost: string,
    autoReconnect: bool, connectionTimeout: int,
    localUdpPort: int, localUdpHost: string, remoteUdpHost: string, remoteUdpPort: int)

  datatype ServerConfig = ServerConfig(id: Long, details: Details)

  /** The preference value: absent, the JSON `null`, or an encoded list.
      Encoding and decoding are taken to be inverse. */
  datatype Text = Absent | JsonNull | Json(list: seq<ServerConfig>)

  function Decode(text: Text): seq<ServerConfig> { if text.Json? then text.list else [] }

  predicate Has(s: seq<ServerConfig>, id: Long) { exists c :: c in s && c.id == id }

  ghost predicate UniqueIds(s: seq<ServerConfig>) {
    forall i, j :: 0 <= i < j < |s| ==> s[i].id != s[j].id
  }

  function Last(s: seq<ServerConfig>): ServerConfig
    requires s != []
  {
    s[|s| - 1]
  }

  function Init(s: seq<ServerConfig>): seq<ServerConfig>
    requires s != []
  {
    s[..|s| - 1]
  }

  // -------------------------------------------------------------- operations

  /** Keeps the first configuration of each id. */
  function Dedup(s: seq<ServerConfig>): seq<ServerConfig>
    decreases |s|
  {
    if s == [] then []
    else if Has(Init(s), Last(s).id) then Dedup(Init(s))
    else Dedup(Init(s)) + [Last(s)]
  }

  function Without(s: seq<ServerConfig>, id: Long): seq<ServerConfig>
    decreases |s|
  {
    if s == [] then []
    else if Last(s).id == id then Without(Init(s), id)
    else Without(Init(s), id) + [Last(s)]
  }

  function Find(s: seq<ServerConfig>, id: Long): Option<ServerConfig>
    decreases |s|
  {
    if s == [] then None
    else if Has(Init(s), id) then Find(Init(s), id)
    else if Last(s).id == id then Some(Last(s))
    else None
  }

  /** Replaces the first configuration that has the id of `c`. */
  function Replace(s: seq<ServerConfig>, c: ServerConfig): seq<ServerConfig>
    decreases |s|
  {
    if s == [] then []
    else if !Has(Init(s), c.id) && Last(s).id == c.id then Init(s) + [c]
    else Replace(Init(s), c) + [Last(s)]
  }

  function Stamped(c: ServerConfig, now: Long): ServerConfig { if c.id == 0 then c.(id := now) else c }

  function Add(s: seq<ServerConfig>, c: ServerConfig, now: Long): seq<ServerConfig> {
    if c.id != 0 && Has(s, c.id) then s else Dedup(s + [Stamped(c, now)])
  }

  function Update(s: seq<ServerConfig>, c: ServerConfig): seq<ServerConfig> {
    if Has(s, c.id) then Dedup(Replace(s, c)) else s
  }

  function Delete(s: seq<ServerConfig>, id: Long): seq<ServerConfig> { Dedup(Without(s, id)) }

  /** The manager's state: the list in memory, the stored one, the selection. */
  datatype Store = Store(configs: seq<ServerConfig>, text: Text, selected: Long)

  datatype Op = OpAdd(c: ServerConfig, now: Long) | OpUpdate(c: ServerConfig) | OpDelete(id: Long) | OpSelect(id: Long)

  /** Whether the operation reaches `saveConfigs`. */
  predicate Saves(s: seq<ServerConfig>, op: Op) {
    match op
    case OpAdd(c, _) => c.id == 0 || !Has(s, c.id)
    case OpUpdate(c) => Has(s, c.id)
    case OpDelete(_) => true
    case OpSelect(_) => false
  }

  function ListAfter(s: seq<ServerConfig>, op: Op): seq<ServerConfig> {
    match op
    case OpAdd(c, now) => Add(s, c, now)
    case OpUpdate(c) => Update(s, c)
    case OpDelete(id) => Delete(s, id)
    case OpSelect(_) => s
  }

  function Apply(st: Store, op: Op): Store {
    var configs := ListAfter(st.configs, op);
    Store(configs,
          if Saves(st.configs, op) then Json(configs) else st.text,
          match op
          case OpDelete(id) => if st.selected == id then -1 else st.selected
          case OpSelect(id) => id
          case _ => st.selected)
  }

  function Run(st: Store, ops: seq<Op>): Store
    decreases |ops|
  {
    if ops == [] then st else Run(Apply(st, ops[0]), ops[1..])
  }

  // -------------------------------------------------- the map it should be

  /** A map that remembers in which order its keys came. */
  datatype OrderedMap = OrderedMap(order: seq<Long>, entries: map<Long, ServerConfig>)

  function Ids(s: seq<ServerConfig>): seq<Long> { seq(|s|, i requires 0 <= i < |s| => s[i].id) }

  function Lookup(m: OrderedMap, id: Long): Option<ServerConfig> {
    if id in m.entries then Some(m.entries[id]) else None
  }

  /** Entering a key that is present changes nothing: the first entry wins. */
  function Enter(m: OrderedMap, c: ServerConfig): OrderedMap {
    if c.id in m.entries then m else OrderedMap(m.order + [c.id], m.entries[c.id := c])
  }

  function MapAdd(m: OrderedMap, c: ServerConfig, now: Long): OrderedMap {
    if c.id == 0 then Enter(m, c.(id := now)) else Enter(m, c)
  }

  /** Keeps the position of the key. */
  function MapUpdate(m: OrderedMap, c: ServerConfig): OrderedMap {
    if c.id in m.entries then m.(entries := m.entries[c.id := c]) else m
  }

  function Omit(order: seq<Long>, id: Long): seq<Long>
    decreases |order|
  {
    if order == [] then []
    else
      var init, last := order[..|order| - 1], order[|order| - 1];
      if last == id then Omit(init, id) else Omit(init, id) + [last]
  }

  function MapDelete(m: OrderedMap, id: Long): OrderedMap {
    OrderedMap(Omit(m.order, id), m.entries - {id})
  }

  function MapApply(m: OrderedMap, op: Op): OrderedMap {
    match op
    case OpAdd(c, now) => MapAdd(m, c, now)
    case OpUpdate(c) => MapUpdate(m, c)
    case OpDelete(id) => MapDelete(m, id)
    case OpSelect(_) => m
  }

  function MapRun(m: OrderedMap, ops: seq<Op>): OrderedMap
    decreases |ops|
  {
    if ops == [] then m else MapRun(MapApply(m, ops[0]), ops[1..])
  }

  /** What a list, duplicates and all, means: entered one by one. */
  function View(s: seq<ServerConfig>): OrderedMap
    decreases |s|
  {
    if s == [] then OrderedMap([], map[]) else Enter(View(Init(s)), Last(s))
  }
}
