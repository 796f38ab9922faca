/** The versioned key-value object: one value and one version per key, every
    request handled to completion before the next one starts. */
module AtomicStore {
  import opened Wrappers

  /** What `/read` returns for a key: an absent value is None, an absent version 0. */
  datatype Cell<+V> = Cell(value: Option<V>, version: nat)

  datatype Write<+V> = Put(value: V) | Remove

  datatype CommitResponse<+V> = Committed | Conflict(value: Option<V>, version: nat)

  function Written<V>(w: Write<V>): Option<V> {
    match w
    case Put(v) => Some(v)
    case Remove => None
  }

  function CommitCell<V>(c: Cell<V>, expected: int, w: Write<V>): (Cell<V>, CommitResponse<V>) {
    if c.version != expected then (c, Conflict(c.value, c.version))
    else (Cell(Written(w), c.version + 1), Committed)
  }

  function SeedCell<V>(c: Cell<V>, v: V): (Cell<V>, bool) {
    if c.value.Some? then (c, false) else (Cell(Some(v), 1), true)
  }

  /** Writes applied one after another by other clients. */
  function AfterWrites<V>(c: Cell<V>, ws: seq<Write<V>>): (r: Cell<V>)
    ensures r.version == c.version + |ws|
    ensures ws == [] ==> r == c
    decreases |ws|
  {
    if ws == [] then c else AfterWrites(Cell(Written(ws[0]), c.version + 1), ws[1..])
  }

  // ---- `/seed` and versions -------------------------------------------------

  /** A seed leaves the cell alone or moves its version up exactly when it finds a
      value, or a key that was never committed. */
  lemma SeedKeepsVersionsUnique<V>(c: Cell<V>, v: V)
    ensures (SeedCell(c, v).0 == c || SeedCell(c, v).0.version > c.version)
            <==> (c.value.Some? || c.version == 0)
  {
  }

  /** The failure spelled out: a client reads (x, 1), the key is deleted and then
      seeded with y, and the client's commit is accepted over a value it never saw. */
  lemma SeedAfterDeleteAcceptsStaleCommit<V>(x: V, y: V, z: V)
    ensures var read := CommitCell(Cell(None, 0), 0, Put(x)).0;
            var deleted := CommitCell(read, read.version, Remove).0;
            var seeded := SeedCell(deleted, y).0;
            seeded.value == Some(y) && CommitCell(seeded, read.version, Put(z)) == (Cell(Some(z), 2), Committed)
  {
  }

  // ---- the object ----------------------------------------------------------

  /** Stored strings, by how the gate reads them back. */
  datatype StoredValue = GateCounter(count: int, bucket: string) | Text(text: string)

  type StoreCell = Cell<StoredValue>

  function GateCount(c: StoreCell, bucket: string): int {
    match c.value
    case Some(GateCounter(n, b)) => if b == bucket then n else 0
    case _ => 0
  }

  function BumpCell(c: StoreCell, bucket: string): StoreCell {
    Cell(Some(GateCounter(GateCount(c, bucket) + 1, bucket)), c.version + 1)
  }

  class AtomicStoreDO {
    var values: map<string, StoredValue>
    var versions: map<string, nat>

    constructor ()
      ensures forall key :: CellAt(key) == Cell(None, 0)
    {
      values, versions := map[], map[];
    }

    ghost function CellAt(key: string): StoreCell
      reads this
    {
      Cell(if key in values then Some(values[key]) else None,
           if key in versions then versions[key] else 0)
    }

    method HandleRead(key: string) returns (value: Option<StoredValue>, version: nat)
      ensures Cell(value, version) == CellAt(key)
    {
      value := if key in values then Some(values[key]) else None;
      version := if key in versions then versions[key] else 0;
    }

    method HandleCommit(key: string, expectedVersion: int, w: Write<StoredValue>)
      returns (resp: CommitResponse<StoredValue>)
      modifies this
      ensures (CellAt(key), resp) == CommitCell(old(CellAt(key)), expectedVersion, w)
      ensures forall k :: k != key ==> CellAt(k) == old(CellAt(k))
    {
      var currentValue, currentVersion := HandleRead(key);
      if currentVersion != expectedVersion {
        return Conflict(currentValue, currentVersion);
      }
      match w {
        case Put(v) => values := values[key := v];
        case Remove => values := values - {key};
      }
      versions := versions[key := currentVersion + 1];
      resp := Committed;
    }

    method HandleSeed(key: string, value: StoredValue) returns (seeded: bool)
      modifies this
      ensures (CellAt(key), seeded) == SeedCell(old(CellAt(key)), value)
      ensures forall k :: k != key ==> CellAt(k) == old(CellAt(k))
    {
      if key in values {
        return false;
      }
      values := values[key := value];
      versions := versions[key := 1];
      seeded := true;
    }

    method Bump(key: string, bucket: string) returns (count: int)
      modifies this
      ensures CellAt(key) == BumpCell(old(CellAt(key)), bucket)
      ensures count == GateCount(CellAt(key), bucket)
      ensures forall k :: k != key ==> CellAt(k) == old(CellAt(k))
    {
      var raw, version := HandleRead(key);
      var current := 0;
      match raw {
        case Some(GateCounter(n, b)) => if b == bucket { current := n; }
        case _ =>
      }
      count := current + 1;
      values := values[key := GateCounter(count, bucket)];
      versions := versions[key := version + 1];
    }

    /** Both counters move in one transaction, and the second one moves only
        when the first is still within its limit. */
    method HandleGate(globalKey: string, ipKey: string, bucket: string, globalLimit: nat)
      returns (globalCount: int, ipCount: Option<int>)
      modifies this
      ensures globalCount == GateCount(old(CellAt(globalKey)), bucket) + 1
      ensures ipCount.Some? <==> globalCount <= globalLimit
      ensures globalKey != ipKey ==>
                && CellAt(globalKey) == BumpCell(old(CellAt(globalKey)), bucket)
                && CellAt(ipKey) == (if ipCount.Some? then BumpCell(old(CellAt(ipKey)), bucket) else old(CellAt(ipKey)))
      ensures ipCount.Some? ==> CellAt(ipKey).value == Some(GateCounter(ipCount.value, bucket))
      ensures CellAt(globalKey).version > old(CellAt(globalKey)).version
      ensures forall k :: k != globalKey && k != ipKey ==> CellAt(k) == old(CellAt(k))
    {
      globalCount := Bump(globalKey, bucket);
      ipCount := None;
      if globalCount <= globalLimit {
        var n := Bump(ipKey, bucket);
        ipCount := Some(n);
      }
    }
  }
}
