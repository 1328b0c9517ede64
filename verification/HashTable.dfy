/** An open-addressing hash table: linear probing, and a dummy item in the cells of deleted items. */
module HashTable {
  import opened Wrappers

  // The dummy item, like every item that is not in use, has key -1.
  datatype Cell = Null | Item(key: int, data: int)
  {
    predicate Live() {
      Item? && key >= 0
    }

    predicate Free() {
      Null? || key == -1
    }
  }

  // SIZE and hashFunc are whatever the program is built with.
  ghost predicate ValidHash(hash: int -> int, n: nat) {
    forall key :: key >= 0 ==> 0 <= hash(key) < n
  }

  function Next(i: nat, n: nat): (j: nat)
    requires i < n
    ensures j < n
    ensures j == if i + 1 == n then 0 else i + 1
  {
    (i + 1) % n
  }

  // ----- what the probing loops find, in at most steps steps

  function ProbeKey(cells: seq<Cell>, i: nat, key: int, steps: nat): (r: Option<nat>)
    requires i < |cells|
    ensures r.Some? ==> r.value < |cells| && cells[r.value].Item? && cells[r.value].key == key
    decreases steps
  {
    if steps == 0 || cells[i].Null? then None
    else if cells[i].key == key then Some(i)
    else ProbeKey(cells, Next(i, |cells|), key, steps - 1)
  }

  function ProbeFree(cells: seq<Cell>, i: nat, steps: nat): (r: Option<nat>)
    requires i < |cells|
    ensures r.Some? ==> r.value < |cells| && cells[r.value].Free()
    decreases steps
  {
    if steps == 0 then None
    else if cells[i].Free() then Some(i)
    else ProbeFree(cells, Next(i, |cells|), steps - 1)
  }

  function Search(cells: seq<Cell>, h: nat, key: int): (r: Option<nat>)
    requires h < |cells|
    ensures r.Some? ==> r.value < |cells| && cells[r.value].Item? && cells[r.value].key == key
  {
    ProbeKey(cells, h, key, |cells|)
  }

  function Inserted(cells: seq<Cell>, h: nat, key: int, data: int): (r: seq<Cell>)
    requires h < |cells|
    ensures |r| == |cells|
  {
    match ProbeFree(cells, h, |cells|)
    case Some(i) => cells[i := Item(key, data)]
    case None => cells
  }

  function Deleted(cells: seq<Cell>, h: nat, key: int, dummyItem: Cell): (r: seq<Cell>)
    requires h < |cells|
    ensures |r| == |cells|
  {
    match Search(cells, h, key)
    case Some(i) => cells[i := dummyItem]
    case None => cells
  }

  // ----- the table

  class Table {
    const hashArray: array<Cell>
    const hashFunc: int -> int
    const dummyItem: Cell

    constructor (size: nat, hashFunc: int -> int, dummyItem: Cell)
      requires ValidHash(hashFunc, size) && dummyItem.Item? && dummyItem.key == -1
      ensures Valid() && fresh(hashArray) && hashArray.Length == size
      ensures this.hashFunc == hashFunc && this.dummyItem == dummyItem
      ensures hashArray[..] == seq(size, _ => Null)
    {
      hashArray := new Cell[size](_ => Null);
      this.hashFunc, this.dummyItem := hashFunc, dummyItem;
    }

    ghost predicate Valid() {
      ValidHash(hashFunc, hashArray.Length) && dummyItem.Item? && dummyItem.key == -1
    }

    // searchItem: the loop ends because some cell is NULL.
    method SearchItem(key: int) returns (item: Cell)
      requires Valid() && key >= 0
      requires exists z: nat :: z < hashArray.Length && hashArray[z].Null?
      ensures item == match Search(hashArray[..], hashFunc(key), key) case Some(i) => hashArray[i] case None => Null
    {
      var hashIndex := hashFunc(key);
      ghost var z: nat :| z < hashArray.Length && hashArray[z].Null?;
      ghost var steps := hashArray.Length;
      while hashArray[hashIndex] != Null
        invariant 0 <= hashIndex < hashArray.Length
        invariant Ahead(hashIndex, z, hashArray.Length) < steps
        invariant ProbeKey(hashArray[..], hashIndex, key, steps) == Search(hashArray[..], hashFunc(key), key)
        decreases steps
      {
        if hashArray[hashIndex].key == key {
          return hashArray[hashIndex];
        }
        hashIndex := hashIndex + 1;
        hashIndex := hashIndex % hashArray.Length;
        steps := steps - 1;
      }
      return Null;
    }

    // insertItem: the loop ends because some cell is NULL or holds a dummy.
    method InsertItem(key: int, data: int)
      requires Valid() && key >= 0
      requires exists z: nat :: z < hashArray.Length && hashArray[z].Free()
      modifies hashArray
      ensures hashArray[..] == Inserted(old(hashArray[..]), hashFunc(key), key, data)
    {
      var hashIndex := hashFunc(key);
      ghost var z: nat :| z < hashArray.Length && hashArray[z].Free();
      ghost var steps := hashArray.Length;
      while hashArray[hashIndex] != Null && hashArray[hashIndex].key != -1
        invariant 0 <= hashIndex < hashArray.Length
        invariant Ahead(hashIndex, z, hashArray.Length) < steps
        invariant ProbeFree(hashArray[..], hashIndex, steps)
               == ProbeFree(hashArray[..], hashFunc(key), hashArray.Length)
        decreases steps
      {
        hashIndex := hashIndex + 1;
        hashIndex := hashIndex % hashArray.Length;
        steps := steps - 1;
      }
      hashArray[hashIndex] := Item(key, data);
    }

    // deleteItem
    method DeleteItem(item: Cell) returns (deleted: Cell)
      requires Valid() && item.Live()
      requires exists z: nat :: z < hashArray.Length && hashArray[z].Null?
      modifies hashArray
      ensures hashArray[..] == Deleted(old(hashArray[..]), hashFunc(item.key), item.key, dummyItem)
      ensures deleted == match Search(old(hashArray[..]), hashFunc(item.key), item.key)
        case Some(i) => old(hashArray[i])
        case None => Null
    {
      var key := item.key;
      var hashIndex := hashFunc(key);
      ghost var z: nat :| z < hashArray.Length && hashArray[z].Null?;
      ghost var steps := hashArray.Length;
      while hashArray[hashIndex] != Null
        invariant 0 <= hashIndex < hashArray.Length
        invariant Ahead(hashIndex, z, hashArray.Length) < steps
        invariant hashArray[..] == old(hashArray[..])
        invariant ProbeKey(hashArray[..], hashIndex, key, steps) == Search(hashArray[..], hashFunc(key), key)
        decreases steps
      {
        if hashArray[hashIndex].key == key {
          deleted := hashArray[hashIndex];
          hashArray[hashIndex] := dummyItem;
          return;
        }
        hashIndex := hashIndex + 1;
        hashIndex := hashIndex % hashArray.Length;
        steps := steps - 1;
      }
      deleted := Null;
    }
  }

  // How many steps ahead of i the cell z is.
  function Ahead(i: nat, z: nat, n: nat): (d: nat)
    requires i < n && z < n
    ensures d < n
  {
    if z >= i then z - i else z - i + n
  }

  // ----- the invariant

  // Cell j is among those probed from h on before cell i.
  predicate Before(h: nat, i: nat, j: nat) {
    if h <= i then h <= j < i else j >= h || j < i
  }

  predicate Reachable(cells: seq<Cell>, h: nat, i: nat)
    requires h < |cells| && i < |cells|
  {
    forall j: nat :: j < |cells| && Before(h, i, j) ==> !cells[j].Null?
  }

  /** The cells hold exactly the entries of m: each key once, and reachable from its hash. */
  ghost predicate Represents(cells: seq<Cell>, hash: int -> int, m: map<int, int>) {
    && ValidHash(hash, |cells|)
    && (forall i: nat :: i < |cells| ==> cells[i].Null? || cells[i].key >= -1)
    && (forall i: nat :: i < |cells| && cells[i].Live() ==>
          && Reachable(cells, hash(cells[i].key), i)
          && cells[i].key in m && m[cells[i].key] == cells[i].data)
    && (forall i: nat, j: nat :: i < j < |cells| && cells[i].Live() && cells[j].Live() ==> cells[i].key != cells[j].key)
    && (forall key :: key in m ==> key >= 0 && Holds(cells, key, m[key]))
  }

  predicate Holds(cells: seq<Cell>, key: int, data: int) {
    exists i: nat :: i < |cells| && cells[i] == Item(key, data)
  }

  lemma EmptyRepresents(n: nat, hash: int -> int)
    requires ValidHash(hash, n)
    ensures Represents(seq(n, _ => Null), hash, map[])
  {
  }

  // ----- the operations on it

  lemma {:induction false} ProbeReaches(cells: seq<Cell>, i: nat, key: int, steps: nat, z: nat)
    requires i < |cells| && z < |cells| && Ahead(i, z, |cells|) < steps
    requires Reachable(cells, i, z)
    requires forall j: nat :: j < |cells| && Before(i, z, j) ==> cells[j].Item? && cells[j].key != key
    requires cells[z].Item? && cells[z].key == key
    ensures ProbeKey(cells, i, key, steps) == Some(z)
    decreases steps
  {
    if i != z {
      assert Before(i, z, i);
      ProbeReaches(cells, Next(i, |cells|), key, steps - 1, z);
    }
  }

  /** Search finds exactly the live items: an item with its data, or nothing for an absent key. */
  lemma SearchAgrees(cells: seq<Cell>, hash: int -> int, m: map<int, int>, key: int)
    requires Represents(cells, hash, m) && key >= 0
    ensures var r := Search(cells, hash(key), key);
      && (key in m ==> r.Some? && cells[r.value] == Item(key, m[key]))
      && (key !in m ==> r == None)
  {
    if key in m {
      assert Holds(cells, key, m[key]);
      var z: nat :| z < |cells| && cells[z] == Item(key, m[key]);
      ProbeReaches(cells, hash(key), key, |cells|, z);
    }
  }

  lemma {:induction false} ProbeFreeFirst(cells: seq<Cell>, h: nat, i: nat, steps: nat)
    requires h < |cells| && i < |cells| && Ahead(h, i, |cells|) + steps == |cells|
    requires forall j: nat :: j < |cells| && Before(h, i, j) ==> !cells[j].Free()
    ensures var r := ProbeFree(cells, i, steps);
      r.Some? ==> forall j: nat :: j < |cells| && Before(h, r.value, j) ==> !cells[j].Free()
    decreases steps
  {
    if steps > 0 && !cells[i].Free() {
      var next := Next(i, |cells|);
      if next != h {
        forall j: nat | j < |cells| && Before(h, next, j)
          ensures !cells[j].Free()
        {
          assert j == i || Before(h, i, j);
        }
        ProbeFreeFirst(cells, h, next, steps - 1);
      }
    }
  }

  lemma {:induction false} ProbeFreeFinds(cells: seq<Cell>, i: nat, steps: nat, z: nat)
    requires i < |cells| && z < |cells| && Ahead(i, z, |cells|) < steps && cells[z].Free()
    ensures ProbeFree(cells, i, steps).Some?
    decreases steps
  {
    if !cells[i].Free() {
      ProbeFreeFinds(cells, Next(i, |cells|), steps - 1, z);
    }
  }

  lemma HoldsInserted(cells: seq<Cell>, m: map<int, int>, i: nat, key: int, data: int, k: int)
    requires i < |cells| && cells[i].Free() && key !in m
    requires k in m[key := data] && (k in m ==> k >= 0 && Holds(cells, k, m[k]))
    ensures Holds(cells[i := Item(key, data)], k, m[key := data][k])
  {
    var after := cells[i := Item(key, data)];
    if k == key {
      assert after[i] == Item(key, data);
    } else {
      var z: nat :| z < |cells| && cells[z] == Item(k, m[k]);
      assert after[z] == Item(k, m[k]);
    }
  }

  lemma InsertedRepresents(cells: seq<Cell>, hash: int -> int, m: map<int, int>, key: int, data: int, i: nat)
    requires Represents(cells, hash, m) && key >= 0 && key !in m
    requires i < |cells| && cells[i].Free() && Reachable(cells, hash(key), i)
    ensures Represents(cells[i := Item(key, data)], hash, m[key := data])
  {
    hide Holds;
    var updated := m[key := data];
    forall k | k in updated
      ensures k >= 0 && Holds(cells[i := Item(key, data)], k, updated[k])
    {
      HoldsInserted(cells, m, i, key, data, k);
    }
  }

  // Were the key there already, it would be in two cells.
  lemma InsertedTwice(cells: seq<Cell>, hash: int -> int, m: map<int, int>, key: int, data: int, i: nat)
    requires Represents(cells, hash, m) && key >= 0 && key in m
    requires i < |cells| && cells[i].Free()
    ensures !Represents(cells[i := Item(key, data)], hash, m[key := data])
  {
    assert Holds(cells, key, m[key]);
    var z: nat :| z < |cells| && cells[z] == Item(key, m[key]);
    var after := cells[i := Item(key, data)];
    hide Reachable, Holds;
    assert z != i && after[z].Live() && after[i].Live() && after[z].key == after[i].key;
  }

  /** Inserting is a map update exactly for keys that are absent. */
  lemma InsertAgrees(cells: seq<Cell>, hash: int -> int, m: map<int, int>, key: int, data: int, z: nat)
    requires Represents(cells, hash, m) && key >= 0
    requires z < |cells| && cells[z].Free()
    ensures Represents(Inserted(cells, hash(key), key, data), hash, m[key := data]) <==> key !in m
  {
    var h := hash(key);
    ProbeFreeFinds(cells, h, |cells|, z);
    ProbeFreeFirst(cells, h, h, |cells|);
    hide ProbeFree, Represents;
    var i := ProbeFree(cells, h, |cells|).value;
    if key in m {
      InsertedTwice(cells, hash, m, key, data, i);
    } else {
      InsertedRepresents(cells, hash, m, key, data, i);
    }
  }

  /** For instance: with key 0 in cell 0 of two, inserting it again leaves it in the table twice. */
  lemma InsertExample(hash: int -> int)
    requires ValidHash(hash, 2) && hash(0) == 0
    ensures Represents([Item(0, 7), Null], hash, map[0 := 7])
    ensures Inserted([Item(0, 7), Null], 0, 0, 8) == [Item(0, 7), Item(0, 8)]
    ensures !Represents([Item(0, 7), Item(0, 8)], hash, map[0 := 8])
  {
    var cells := [Item(0, 7), Null];
    assert Holds(cells, 0, 7) by { assert cells[0] == Item(0, 7); }
    assert ProbeFree(cells, 1, 1) == Some(1);
    var after := [Item(0, 7), Item(0, 8)];
    assert after[0].Live() && after[1].Live() && after[0].key == after[1].key;
  }

  lemma HoldsDeleted(cells: seq<Cell>, m: map<int, int>, i: nat, key: int, dummyItem: Cell, k: int)
    requires i < |cells| && cells[i].Item? && cells[i].key == key && k != key
    requires k in m && Holds(cells, k, m[k])
    ensures Holds(cells[i := dummyItem], k, m[k])
  {
    var z: nat :| z < |cells| && cells[z] == Item(k, m[k]);
    assert cells[i := dummyItem][z] == Item(k, m[k]);
  }

  lemma DeletedRepresents(cells: seq<Cell>, hash: int -> int, m: map<int, int>, key: int, dummyItem: Cell, i: nat)
    requires Represents(cells, hash, m) && key in m && dummyItem.Item? && dummyItem.key == -1
    requires i < |cells| && cells[i].Item? && cells[i].key == key
    ensures Represents(cells[i := dummyItem], hash, m - {key})
  {
    hide Holds;
    var remaining := m - {key};
    forall k | k in remaining
      ensures k >= 0 && Holds(cells[i := dummyItem], k, remaining[k])
    {
      HoldsDeleted(cells, m, i, key, dummyItem, k);
    }
  }

  /** Deleting removes the key from the map, and disturbs no other key. */
  lemma DeleteAgrees(cells: seq<Cell>, hash: int -> int, m: map<int, int>, key: int, dummyItem: Cell)
    requires Represents(cells, hash, m) && key >= 0
    requires dummyItem.Item? && dummyItem.key == -1
    ensures Represents(Deleted(cells, hash(key), key, dummyItem), hash, m - {key})
  {
    SearchAgrees(cells, hash, m, key);
    hide Represents, ProbeKey;
    if key in m {
      DeletedRepresents(cells, hash, m, key, dummyItem, Search(cells, hash(key), key).value);
    } else {
      assert m - {key} == m;
    }
  }

  // ----- runs

  datatype Operation = Insert(key: int, data: int) | Delete(key: int) | Lookup(key: int)

  function ApplyOperation(cells: seq<Cell>, hash: int -> int, op: Operation, dummyItem: Cell): (r: seq<Cell>)
    requires 0 <= hash(op.key) < |cells|
    ensures |r| == |cells|
  {
    match op
    case Insert(key, data) => Inserted(cells, hash(key), key, data)
    case Delete(key) => Deleted(cells, hash(key), key, dummyItem)
    case Lookup(_) => cells
  }

  function ApplyToMap(m: map<int, int>, op: Operation): map<int, int> {
    match op
    case Insert(key, data) => m[key := data]
    case Delete(key) => m - {key}
    case Lookup(_) => m
  }

  ghost predicate HasNull(cells: seq<Cell>) {
    exists z: nat :: z < |cells| && cells[z].Null?
  }

  // Keys are not negative, inserted keys are absent, and some cell is NULL before every operation.
  ghost predicate LawfulRun(cells: seq<Cell>, hash: int -> int, m: map<int, int>, ops: seq<Operation>, dummyItem: Cell)
    requires ValidHash(hash, |cells|)
    decreases |ops|
  {
    ops != [] ==>
      && ops[0].key >= 0 && HasNull(cells)
      && (ops[0].Insert? ==> ops[0].key !in m)
      && LawfulRun(ApplyOperation(cells, hash, ops[0], dummyItem), hash, ApplyToMap(m, ops[0]), ops[1..], dummyItem)
  }

  ghost predicate AgreesThroughout(cells: seq<Cell>, hash: int -> int, m: map<int, int>, ops: seq<Operation>,
                                   dummyItem: Cell)
    requires ValidHash(hash, |cells|)
    decreases |ops|
  {
    && Represents(cells, hash, m)
    && (forall key :: key >= 0 ==>
          var r := Search(cells, hash(key), key);
          if key in m then r.Some? && cells[r.value] == Item(key, m[key]) else r == None)
    && (ops != [] && ops[0].key >= 0 ==>
          AgreesThroughout(ApplyOperation(cells, hash, ops[0], dummyItem), hash, ApplyToMap(m, ops[0]), ops[1..],
                           dummyItem))
  }

  /** After every operation of a lawful run, the table is the map: searching for any key gives what
      looking it up in the map gives. */
  lemma {:induction false} RunAgrees(cells: seq<Cell>, hash: int -> int, m: map<int, int>, ops: seq<Operation>,
                                     dummyItem: Cell)
    requires Represents(cells, hash, m) && dummyItem.Item? && dummyItem.key == -1
    requires LawfulRun(cells, hash, m, ops, dummyItem)
    ensures AgreesThroughout(cells, hash, m, ops, dummyItem)
    decreases |ops|
  {
    forall key | key >= 0
      ensures var r := Search(cells, hash(key), key);
        if key in m then r.Some? && cells[r.value] == Item(key, m[key]) else r == None
    {
      SearchAgrees(cells, hash, m, key);
    }
    if ops != [] {
      var op := ops[0];
      match op {
        case Insert(key, data) =>
          var z: nat :| z < |cells| && cells[z].Null?;
          InsertAgrees(cells, hash, m, key, data, z);
        case Delete(key) => DeleteAgrees(cells, hash, m, key, dummyItem);
        case Lookup(_) =>
      }
      RunAgrees(ApplyOperation(cells, hash, op, dummyItem), hash, ApplyToMap(m, op), ops[1..], dummyItem);
    }
  }
}
