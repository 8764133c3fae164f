/** The header list of a request and the hash table that indexes it. */
module Headers {
  import opened HashTables

  datatype Option<+T> = None | Some(value: T)

  /** A deserialized header. The raw value of a numeric header travels in its length field. */
  datatype Pair = Pair(key: string, text: string, length: int)

  /** The first entry with a key. */
  function FirstEntry(list: seq<Pair>, key: string): Option<Pair>
  {
    if list == [] then None
    else if list[0].key == key then Some(list[0])
    else FirstEntry(list[1..], key)
  }

  /** The map that results from going through the list and skipping keys already seen. */
  function FirstEntries(list: seq<Pair>): map<string, Pair>
  {
    if list == [] then map[]
    else
      var m, pair := FirstEntries(list[..|list| - 1]), list[|list| - 1];
      if pair.key in m then m else m[pair.key := pair]
  }

  lemma {:induction false} FirstEntrySnoc(list: seq<Pair>, pair: Pair, key: string)
    ensures FirstEntry(list + [pair], key) ==
            if FirstEntry(list, key).Some? then FirstEntry(list, key)
            else if pair.key == key then Some(pair) else None
  {
    if list != [] {
      assert (list + [pair])[1..] == list[1..] + [pair];
      FirstEntrySnoc(list[1..], pair, key);
    }
  }

  /** The skipping map holds, for every key, its first entry, and nothing for absent keys. */
  lemma {:induction false} FirstEntriesAreFirst(list: seq<Pair>, key: string)
    ensures FirstEntry(list, key) == if key in FirstEntries(list) then Some(FirstEntries(list)[key]) else None
    ensures key in FirstEntries(list) ==> FirstEntries(list)[key].key == key
  {
    if list != [] {
      var init, pair := list[..|list| - 1], list[|list| - 1];
      FirstEntriesAreFirst(init, key);
      FirstEntrySnoc(init, pair, key);
      assert list == init + [pair];
    }
  }

  /** No two different keys of the list have the same length. */
  predicate KeysToldApartByLength(list: seq<Pair>)
  {
    forall i, j :: 0 <= i < |list| && 0 <= j < |list| && |list[i].key| == |list[j].key| ==> list[i].key == list[j].key
  }

  lemma {:induction false} EntriesComeFromList(list: seq<Pair>, key: string)
    requires key in FirstEntries(list)
    ensures exists i :: 0 <= i < |list| && list[i].key == key
  {
    var init, pair := list[..|list| - 1], list[|list| - 1];
    if key in FirstEntries(init) {
      EntriesComeFromList(init, key);
      var i :| 0 <= i < |init| && init[i].key == key;
      assert list[i].key == key;
    } else {
      assert list[|list| - 1].key == key;
    }
  }

  lemma KeysOfPart(list: seq<Pair>, i: nat)
    requires i <= |list| && KeysToldApartByLength(list)
    ensures KeysToldApartByLength(list[..i])
  {
  }

  lemma SameLengthIsSame(before: seq<Pair>, after: seq<Pair>, pair: Pair, key: string)
    requires KeysToldApartByLength(after) && after == before + [pair]
    requires key in FirstEntries(before) && |key| == |pair.key|
    ensures key == pair.key
  {
    EntriesComeFromList(before, key);
    var j :| 0 <= j < |before| && before[j].key == key;
    assert after[j].key == key && after[|before|] == pair;
  }

  /** One turn of the loop below. */
  method AddFirst(table: HashTable<Pair>, pair: Pair, ghost before: seq<Pair>, ghost after: seq<Pair>)
    requires table.Valid() && after == before + [pair]
    requires table.reading == AsDocumented || KeysToldApartByLength(before) ==> table.contents == FirstEntries(before)
    requires table.contents.Keys <= FirstEntries(before).Keys
    modifies table, table.memory
    ensures table.Valid() && (table.memory == old(table.memory) || fresh(table.memory))
    ensures table.reading == AsDocumented || KeysToldApartByLength(after) ==> table.contents == FirstEntries(after)
    ensures table.contents.Keys <= FirstEntries(after).Keys
  {
    assert after[..|before|] == before;
    var bucket := table.Get(pair.key);
    if KeysToldApartByLength(after) {
      KeysOfPart(after, |before|);
      if bucket.Live? {
        SameLengthIsSame(before, after, pair, bucket.key);
      }
    }
    if bucket.Empty? {
      table.Add(pair.key, pair);
    }
  }

  /** `make_hash_table`. As written the table may miss entries, because a key is also skipped
      when another key of its length is met; it does not when lengths tell the keys apart. */
  method MakeHashTable(list: seq<Pair>, reading: Reading) returns (table: HashTable<Pair>)
    ensures table.Valid() && table.reading == reading && fresh(table) && fresh(table.memory)
    ensures reading == AsDocumented || KeysToldApartByLength(list) ==> table.contents == FirstEntries(list)
    ensures table.contents.Keys <= FirstEntries(list).Keys
  {
    table := new HashTable<Pair>(16, 85, 100, 2, 0, reading);
    for i := 0 to |list|
      invariant table.Valid() && table.reading == reading && fresh(table) && fresh(table.memory)
      invariant reading == AsDocumented || KeysToldApartByLength(list[..i]) ==>
                  table.contents == FirstEntries(list[..i])
      invariant table.contents.Keys <= FirstEntries(list[..i]).Keys
    {
      AddFirst(table, list[i], list[..i], list[..i + 1]);
    }
    assert list[..|list|] == list;
  }

  /** The table holds the first entry of every key of the list. */
  ghost predicate Indexes(table: HashTable<Pair>, list: seq<Pair>)
    reads table, table.memory
  {
    table.Valid() && table.reading == AsDocumented && table.contents == FirstEntries(list)
  }

  /** `s3_attrib_get`: the lookup finds the first entry of the key, and nothing if and only if the
      list has no such entry. */
  method AttribGet(table: HashTable<Pair>, ghost list: seq<Pair>, key: string) returns (found: Option<Pair>)
    requires Indexes(table, list)
    ensures found == FirstEntry(list, key)
  {
    var bucket := table.Get(key);
    FirstEntriesAreFirst(list, key);
    found := if bucket.Live? then Some(bucket.value) else None;
  }

  predicate Contains(list: seq<Pair>, key: string)
  {
    FirstEntry(list, key).Some?
  }

  predicate ContainsAll(list: seq<Pair>, keys: seq<string>)
  {
    forall i :: 0 <= i < |keys| ==> Contains(list, keys[i])
  }

  /** `s3_attribs_assert`. */
  method AttribsAssert(table: HashTable<Pair>, ghost list: seq<Pair>, keys: seq<string>) returns (ok: bool)
    requires Indexes(table, list)
    ensures ok == ContainsAll(list, keys)
  {
    for i := 0 to |keys|
      invariant forall j :: 0 <= j < i ==> Contains(list, keys[j])
    {
      var found := AttribGet(table, list, keys[i]);
      if found.None? {
        return false;
      }
    }
    return true;
  }

  /** Both together: for every list, however often the table grows and keys repeat. */
  method IndexAndGet(list: seq<Pair>, key: string) returns (found: Option<Pair>)
    ensures found == FirstEntry(list, key)
  {
    var table := MakeHashTable(list, AsDocumented);
    found := AttribGet(table, list, key);
  }

  method WrittenTable(first: Pair) returns (table: HashTable<Pair>)
    ensures table.Valid() && table.capacity == 16 && table.reading == AsWritten
    ensures table.contents == map[first.key := first]
  {
    table := new HashTable<Pair>(16, 85, 100, 2, 0, AsWritten);
    table.Add(first.key, first);
  }

  lemma PhantomIsFirst(s: seq<Slot<Pair>>, first: Pair, key: string, p: nat)
    requires |s| == 16 && Represents(s, map[first.key := first]) && FirstStop(s, AsWritten, key, p)
    requires key != first.key && |key| == |first.key| && HashKey(key, 16) == HashKey(first.key, 16)
    ensures s[p] == Live(first.key, first)
  {
    WrittenProbeFindsPhantom(s, map[first.key := first], first.key, key, p);
  }

  /** As written, once a list starts with some key, every key of the same length and start slot
      is reported as present, with the value of that first entry. */
  method WrittenTakesOneKeyForAnother(first: Pair, key: string) returns (bucket: Slot<Pair>)
    requires key != first.key && |key| == |first.key| && HashKey(key, 16) == HashKey(first.key, 16)
    ensures bucket == Live(first.key, first)
  {
    var table := WrittenTable(first);
    bucket := table.Get(key);
    ghost var p: nat :| FirstStop(table.memory[..], AsWritten, key, p) && bucket == table.memory[p];
    PhantomIsFirst(table.memory[..], first, key, p);
  }

  /** So in an update request the user name is taken for the update position. */
  method WrittenTakesUpdateatForUsername(first: Pair) returns (bucket: Slot<Pair>)
    requires first.key == "updateat"
    ensures bucket == Live("updateat", first)
  {
    UpdateKeysCollide();
    bucket := WrittenTakesOneKeyForAnother(first, "username");
  }
}
