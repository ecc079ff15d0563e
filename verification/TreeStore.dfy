/** The tree's stored records, and what each metadata transaction does to them. */
module TreeStore {
  import opened ByteStrings
  import opened Results
  import opened Sorting
  import opened Nodes

  /** A body's key: a unique staging upload, or the plain hash key that early manifests imply. */
  datatype ObjectKey = Staged(serial: nat) | ByHash(hash: Bytes)

  datatype Manifest = Manifest(key: Bytes, hash: Bytes, size: nat, objectKey: Option<ObjectKey>)
  datatype Ref = Ref(name: Bytes, nodeId: Bytes, version: nat)

  /** The metadata KV, one map for each key prefix. */
  datatype Meta = Meta(
    nodes: map<Bytes, Node>,
    manifests: map<Bytes, Manifest>,
    refs: map<Bytes, Ref>,
    leases: map<Bytes, nat>)

  type Bodies = map<ObjectKey, Bytes>

  datatype Error =
    | NotFound | Fenced | RefConflict | HashMismatch | SizeMismatch | BadAddress | BadRange | TooLarge | Unavailable

  datatype Plan = Plan(nodes: seq<Bytes>, blobs: seq<Bytes>, objectKeys: map<Bytes, ObjectKey>)

  /** Where the body of a manifest's blob is. */
  function BodyKey(m: Manifest): ObjectKey {
    if m.objectKey.Some? then m.objectKey.value else ByHash(m.hash)
  }

  /** The body to delete with the manifest of `hash`, looked up when the plan recorded none. */
  function BodyObjectKey(meta: Meta, hash: Bytes): ObjectKey {
    if hash in meta.manifests && meta.manifests[hash].objectKey.Some?
    then meta.manifests[hash].objectKey.value else ByHash(hash)
  }

  /** The body to delete for `h`: the one the plan recorded, or else the one found by a lookup. */
  function PlannedKey(meta: Meta, plan: Plan, h: Bytes): ObjectKey {
    if h in plan.objectKeys then plan.objectKeys[h] else BodyObjectKey(meta, h)
  }

  /** The body keys a plan records for the manifests it found unreachable. */
  function ObjectKeys(meta: Meta, live: set<Bytes>): map<Bytes, ObjectKey> {
    map h | h in meta.manifests && h !in live && meta.manifests[h].objectKey.Some? :: meta.manifests[h].objectKey.value
  }

  predicate LeaseHeld(meta: Meta, lease: Bytes, token: nat) {
    lease in meta.leases && meta.leases[lease] == token
  }

  function CurrentRef(meta: Meta, name: Bytes): Ref {
    if name in meta.refs then meta.refs[name] else Ref(name, [], 0)
  }

  function SwapRef(meta: Meta, name: Bytes, nodeId: Bytes, expected: nat): (Result<Ref, Error>, Meta) {
    if nodeId !in meta.nodes then (Err(NotFound), meta)
    else if CurrentRef(meta, name).version != expected then (Err(RefConflict), meta)
    else
      var ref := CurrentRef(meta, name).(nodeId := nodeId, version := expected + 1);
      (Ok(ref), meta.(refs := meta.refs[name := ref]))
  }

  function SwapRefFenced(meta: Meta, lease: Bytes, token: nat, name: Bytes, nodeId: Bytes,
      expected: nat): (Result<Ref, Error>, Meta) {
    if !LeaseHeld(meta, lease, token) then (Err(Fenced), meta) else SwapRef(meta, name, nodeId, expected)
  }

  function DropRef(meta: Meta, name: Bytes, expected: nat): (Result<(), Error>, Meta) {
    if name !in meta.refs then (Err(NotFound), meta)
    else if meta.refs[name].version != expected then (Err(RefConflict), meta)
    else (Ok(()), meta.(refs := meta.refs - {name}))
  }

  function DropRefFenced(meta: Meta, lease: Bytes, token: nat, name: Bytes, expected: nat): (Result<(), Error>, Meta) {
    if !LeaseHeld(meta, lease, token) then (Err(Fenced), meta) else DropRef(meta, name, expected)
  }

  function Token(meta: Meta, lease: Bytes): nat {
    if lease in meta.leases then meta.leases[lease] else 0
  }

  function Acquire(meta: Meta, lease: Bytes): (nat, Meta) {
    var token := Token(meta, lease) + 1;
    (token, meta.(leases := meta.leases[lease := token]))
  }

  function Release(meta: Meta, lease: Bytes, token: nat): (Result<(), Error>, Meta) {
    if !LeaseHeld(meta, lease, token) then (Err(Fenced), meta)
    else (Ok(()), meta.(leases := meta.leases - {lease}))
  }

  /** The manifest of a new upload; its logical key defaults to the hash. */
  function NewManifest(hash: Bytes, size: nat, key: Bytes, serial: nat): Manifest {
    Manifest(if key == [] then hash else key, hash, size, Some(Staged(serial)))
  }

  /** The publishing transaction of `PutBlob`: the first manifest of a hash wins. */
  function Publish(meta: Meta, m: Manifest): (Manifest, Meta) {
    if m.hash in meta.manifests then (meta.manifests[m.hash], meta)
    else (m, meta.(manifests := meta.manifests[m.hash := m]))
  }

  function StoreNode(hs: Hasher, meta: Meta, n: Node): Meta {
    meta.(nodes := meta.nodes[hs.id(n) := Normal(n)])
  }

  function GetNode(hs: Hasher, meta: Meta, id: Bytes): Result<Node, Error> {
    if id !in meta.nodes then Err(NotFound)
    else if hs.id(meta.nodes[id]) != id then Err(BadAddress)
    else Ok(meta.nodes[id])
  }

  function Members(s: seq<Bytes>): set<Bytes> {
    set x | x in s
  }

  function Without(meta: Meta, nodes: set<Bytes>, blobs: set<Bytes>): Meta {
    meta.(nodes := meta.nodes - nodes, manifests := meta.manifests - blobs)
  }

  /** The metadata transaction of a fenced sweep. */
  function SweepFenced(meta: Meta, lease: Bytes, token: nat, plan: Plan): (Result<(), Error>, Meta) {
    if !LeaseHeld(meta, lease, token) then (Err(Fenced), meta)
    else (Ok(()), Without(meta, Members(plan.nodes), Members(plan.blobs)))
  }

  /** Every manifest names a stored body of its size whose hash is its key. */
  ghost predicate BodiesMatch(hs: Hasher, meta: Meta, bodies: Bodies) {
    forall h :: h in meta.manifests ==>
      var m := meta.manifests[h];
      m.hash == h && BodyKey(m) in bodies && hs.sum(bodies[BodyKey(m)]) == h && |bodies[BodyKey(m)]| == m.size
  }

  /** Every node is stored in its normal form under its own address. */
  ghost predicate NodesSound(hs: Hasher, meta: Meta) {
    forall id :: id in meta.nodes ==>
      HexNode(meta.nodes[id]) && Normal(meta.nodes[id]) == meta.nodes[id] && hs.id(meta.nodes[id]) == id
  }

  /** Putting a node whose address is already stored changes nothing. */
  lemma StoreNodeIsIdempotent(hs: Hasher, meta: Meta, n: Node)
    requires Pins(hs) && NodesSound(hs, meta) && HexNode(n)
    ensures NodesSound(hs, StoreNode(hs, meta, n))
    ensures hs.id(n) in meta.nodes ==> StoreNode(hs, meta, n) == meta
    ensures GetNode(hs, StoreNode(hs, meta, n), hs.id(n)) == Ok(Normal(n))
  {
    NormalKeepsEncoding(n);
    var id := hs.id(n);
    if id in meta.nodes {
      HexIsPlain(n);
      HexIsPlain(meta.nodes[id]);
      assert Normal(n) == Normal(meta.nodes[id]);
      assert meta.nodes[id := Normal(n)] == meta.nodes;
    }
  }

  /** Acquiring a lease that has no record starts at token 1, whatever was handed out before its record went. */
  lemma AcquireOfAbsentRestarts(meta: Meta, lease: Bytes, token: nat)
    requires lease !in meta.leases
    ensures LeaseHeld(Acquire(meta, lease).1, lease, token) <==> token == 1
  {
  }
}
