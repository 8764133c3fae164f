/** The open-addressing hash table: linear probing with wrap-around, tombstones and growth by
    rehash. The value part states what a slot array means as a map; the class is the table. */
module HashTables {
  import opened Bits

  // ----- the hash functions ------------------------------------------------------------------

  /** A C `char` widened to `int`: bytes above 127 are negative. */
  function SignedChar(c: char): int
  {
    var u := c as int % 256;
    if u >= 128 then u - 256 else u
  }

  /** The djb2 recurrence on 64-bit words. */
  function Djb2(s: string): (h: nat)
    ensures h < WORD
  {
    if s == "" then 5381 else (Djb2(s[..|s| - 1]) * 33 + SignedChar(s[|s| - 1])) % WORD
  }

  /** The part of a key that the string hash reads: its cursor has already moved past the byte
      in hand when it is compared with the end, so the last byte never counts. */
  function HashedPart(key: string): string
  {
    if key == "" then "" else key[..|key| - 1]
  }

  function ByteOf(c: char): nat
  {
    c as int % 256
  }

  /** An 8-byte key read as a little-endian word. */
  function WordOf(key: string): nat
    requires |key| == 8
  {
    ByteOf(key[0]) + 0x100 * ByteOf(key[1]) + 0x1_0000 * ByteOf(key[2]) + 0x100_0000 * ByteOf(key[3])
    + 0x1_0000_0000 * ByteOf(key[4]) + 0x100_0000_0000 * ByteOf(key[5])
    + 0x1_0000_0000_0000 * ByteOf(key[6]) + 0x100_0000_0000_0000 * ByteOf(key[7])
  }

  function HashLong(number: nat, modulus: nat): (h: nat)
    requires modulus > 0
    ensures h < modulus
  {
    var c := (Xor(number * 6654657629 % WORD, number * 98767787 % WORD) + number) % WORD;
    And(c, modulus - 1)
  }

  /** `hash_hash`: where the probe for a key starts. */
  function HashKey(key: string, modulus: nat): (h: nat)
    requires modulus > 0
    ensures h < modulus
  {
    if |key| == 8 then HashLong(WordOf(key), modulus)
    else And(Djb2(HashedPart(key)), modulus - 1)
  }

  /** `hash_string`, with its cursor loop. */
  method HashString(memory: string, modulus: nat) returns (h: nat)
    requires modulus > 0
    ensures h == And(Djb2(HashedPart(memory)), modulus - 1)
  {
    var hash, cursor := 5381, 1;
    while cursor < |memory|
      invariant 1 <= cursor
      invariant memory != "" ==> cursor <= |memory| && hash == Djb2(memory[..cursor - 1])
      invariant memory == "" ==> hash == 5381
    {
      hash := (hash * 33 + SignedChar(memory[cursor - 1])) % WORD;
      assert memory[..cursor][..cursor - 1] == memory[..cursor - 1];
      cursor := cursor + 1;
    }
    h := And(hash, modulus - 1);
  }

  method HashHash(key: string, modulus: nat) returns (h: nat)
    requires modulus > 0
    ensures h == HashKey(key, modulus)
  {
    if |key| == 8 {
      h := HashLong(WordOf(key), modulus);
    } else {
      h := HashString(key, modulus);
    }
  }

  /** For a power of two the start slot is the hash modulo the capacity. */
  lemma MaskIsModulus(h: nat, k: nat)
    ensures And(h, Pow2(k) - 1) == h % Pow2(k)
  {
    AndMask(h, k);
  }

  // ----- slots and probing -------------------------------------------------------------------

  datatype Slot<V> = Empty | Tombstone | Live(key: string, value: V)

  /** `hash_compare` exists in two readings. Its comment says that a slot holding another key
      must be probed past; its last statement stops at any key of the same length. */
  datatype Reading = AsWritten | AsDocumented

  /** `hash_compare`: whether the probe goes on past this slot. */
  predicate HashCompare<V>(reading: Reading, slot: Slot<V>, key: string)
  {
    match slot
    case Empty => false
    case Tombstone => true
    case Live(k, _) =>
      if |k| != |key| then true
      else if k == key then false
      else reading.AsDocumented?
  }

  /** How many steps forward, wrapping at `n`, lead from `h` to `i`. */
  function Dist(h: nat, i: nat, n: nat): (d: nat)
    requires h < n && i < n
  {
    if i >= h then i - h else i + n - h
  }

  function Next(p: nat, n: nat): (r: nat)
    requires p < n
    ensures r < n
  {
    if p + 1 >= n then 0 else p + 1
  }

  /** Every slot on the way from the start slot of `key` to `p` is live. */
  ghost predicate LiveUpTo<V>(s: seq<Slot<V>>, key: string, p: nat)
    requires p < |s|
  {
    var h := HashKey(key, |s|);
    forall j :: 0 <= j < |s| && Dist(h, j, |s|) < Dist(h, p, |s|) ==> s[j].Live?
  }

  /** The probe for `key` ends at slot `p`. */
  ghost predicate FirstStop<V>(s: seq<Slot<V>>, reading: Reading, key: string, p: nat)
  {
    && p < |s|
    && !HashCompare(reading, s[p], key)
    && forall j :: 0 <= j < |s| && Dist(HashKey(key, |s|), j, |s|) < Dist(HashKey(key, |s|), p, |s|) ==>
         HashCompare(reading, s[j], key)
  }

  /** Between the start slot of a stored key and the slot it is in there is no empty slot. */
  ghost predicate Chained<V>(s: seq<Slot<V>>)
  {
    forall i, j :: 0 <= i < |s| && 0 <= j < |s| && s[i].Live?
      && Dist(HashKey(s[i].key, |s|), j, |s|) < Dist(HashKey(s[i].key, |s|), i, |s|)
      ==> !s[j].Empty?
  }

  ghost predicate DistinctKeys<V>(s: seq<Slot<V>>)
  {
    forall i, j :: 0 <= i < j < |s| && s[i].Live? && s[j].Live? ==> s[i].key != s[j].key
  }

  ghost predicate Holds<V>(s: seq<Slot<V>>, key: string)
  {
    exists i :: 0 <= i < |s| && s[i].Live? && s[i].key == key
  }

  /** The live slots are exactly the entries of `m`. */
  ghost predicate Stores<V>(s: seq<Slot<V>>, m: map<string, V>)
  {
    && (forall i :: 0 <= i < |s| && s[i].Live? ==> s[i].key in m && m[s[i].key] == s[i].value)
    && (forall k :: k in m ==> Holds(s, k))
  }

  ghost predicate Represents<V>(s: seq<Slot<V>>, m: map<string, V>)
  {
    && |s| > 0
    && Chained(s)
    && DistinctKeys(s)
    && Stores(s, m)
  }

  /** The slots that a probe does not stop at on its own: live ones and tombstones. */
  function Used<V>(s: seq<Slot<V>>): (n: nat)
    ensures n <= |s|
  {
    if s == [] then 0 else (if s[0].Empty? then 0 else 1) + Used(s[1..])
  }

  function LiveCount<V>(s: seq<Slot<V>>): (n: nat)
    ensures n <= Used(s)
  {
    if s == [] then 0 else (if s[0].Live? then 1 else 0) + LiveCount(s[1..])
  }

  lemma {:induction false} UsedUpdate<V>(s: seq<Slot<V>>, p: nat, slot: Slot<V>)
    requires p < |s|
    ensures Used(s[p := slot]) == Used(s) - (if s[p].Empty? then 0 else 1) + (if slot.Empty? then 0 else 1)
  {
    if p > 0 {
      UsedUpdate(s[1..], p - 1, slot);
      assert s[p := slot][1..] == s[1..][p - 1 := slot];
    } else {
      assert s[p := slot][1..] == s[1..];
    }
  }

  lemma {:induction false} EmptySlotExists<V>(s: seq<Slot<V>>) returns (e: nat)
    requires Used(s) < |s|
    ensures e < |s| && s[e].Empty?
  {
    if s[0].Empty? {
      e := 0;
    } else {
      var e' := EmptySlotExists(s[1..]);
      e := e' + 1;
    }
  }

  lemma {:induction false} NoneUsed<V>(s: seq<Slot<V>>)
    requires forall i :: 0 <= i < |s| ==> s[i].Empty?
    ensures Used(s) == 0
  {
    if s != [] {
      NoneUsed(s[1..]);
    }
  }

  lemma {:induction false} LiveCountSnoc<V>(s: seq<Slot<V>>, i: nat)
    requires i < |s|
    ensures LiveCount(s[..i + 1]) == LiveCount(s[..i]) + (if s[i].Live? then 1 else 0)
    ensures LiveCount(s[..i + 1]) <= LiveCount(s)
  {
    assert s[..i + 1][1..] == s[1..][..i];
    if i > 0 {
      LiveCountSnoc(s[1..], i - 1);
      assert s[..i][1..] == s[1..][..i - 1];
      assert s[1..][..i - 1 + 1] == s[..i + 1][1..];
    } else {
      assert s[..0] == [];
      assert s[..1][1..] == [];
    }
  }

  // ----- what a probe finds ------------------------------------------------------------------

  lemma NoStopBefore<V>(s: seq<Slot<V>>, reading: Reading, key: string, p: nat, i: nat)
    requires FirstStop(s, reading, key, p)
    requires i < |s| && !HashCompare(reading, s[i], key)
    ensures Dist(HashKey(key, |s|), p, |s|) <= Dist(HashKey(key, |s|), i, |s|)
  {
  }

  /** A probe for a stored key passes no empty slot before it reaches the key. */
  lemma WayToKeyIsUsed<V>(s: seq<Slot<V>>, i: nat, p: nat)
    requires Chained(s)
    requires i < |s| && p < |s| && s[i].Live?
    requires Dist(HashKey(s[i].key, |s|), p, |s|) <= Dist(HashKey(s[i].key, |s|), i, |s|)
    ensures !s[p].Empty?
  {
  }

  /** One step of a probe that has not yet come to slot `e`. */
  lemma Advance(h: nat, p: nat, e: nat, n: nat)
    requires h < n && p < n && e < n && p != e
    requires Dist(h, p, n) <= Dist(h, e, n)
    ensures Dist(h, Next(p, n), n) == Dist(h, p, n) + 1 <= Dist(h, e, n)
    ensures forall j :: 0 <= j < n && Dist(h, j, n) < Dist(h, Next(p, n), n) ==> j == p || Dist(h, j, n) < Dist(h, p, n)
  {
  }

  lemma DistInjective(h: nat, i: nat, j: nat, n: nat)
    requires h < n && i < n && j < n
    ensures Dist(h, i, n) == Dist(h, j, n) <==> i == j
  {
  }

  /** In either reading the probe for a stored key does not end at an empty slot. */
  lemma StoredKeyIsMet<V>(s: seq<Slot<V>>, m: map<string, V>, reading: Reading, key: string, p: nat)
    requires Represents(s, m)
    requires FirstStop(s, reading, key, p)
    ensures key in m ==> s[p].Live?
  {
    if key in m {
      assert Holds(s, key);
      var i :| 0 <= i < |s| && s[i].Live? && s[i].key == key;
      NoStopBefore(s, reading, key, p, i);
      WayToKeyIsUsed(s, i, p);
    }
  }

  /** With the documented comparison the probe answers as the map does: no live key is hidden
      behind a tombstone or a wrapped probe, and no absent key is found. */
  lemma DocumentedProbeIsLookup<V>(s: seq<Slot<V>>, m: map<string, V>, key: string, p: nat)
    requires Represents(s, m)
    requires FirstStop(s, AsDocumented, key, p)
    ensures s[p] == if key in m then Live(key, m[key]) else Empty
  {
    if key in m {
      assert Holds(s, key);
      var i :| 0 <= i < |s| && s[i].Live? && s[i].key == key;
      NoStopBefore(s, AsDocumented, key, p, i);
      WayToKeyIsUsed(s, i, p);
    }
  }

  /** A live slot with another key of the same length lies on the way from the start slot of
      `key` to slot `q`. */
  ghost predicate Blocked<V>(s: seq<Slot<V>>, key: string, q: nat)
    requires q < |s|
  {
    exists j :: 0 <= j < |s| && Dist(HashKey(key, |s|), j, |s|) < Dist(HashKey(key, |s|), q, |s|)
      && s[j].Live? && |s[j].key| == |key|
  }

  /** With the comparison as written, a lookup gives the right answer if and only if the way to
      that answer (the slot of the key, or the first empty one) passes no key of equal length. */
  lemma WrittenProbeIsLookupIff<V>(s: seq<Slot<V>>, m: map<string, V>, key: string, p: nat, q: nat)
    requires Represents(s, m)
    requires FirstStop(s, AsWritten, key, p) && FirstStop(s, AsDocumented, key, q)
    ensures s[p] == (if key in m then Live(key, m[key]) else Empty) <==> !Blocked(s, key, q)
  {
    var n, h := |s|, HashKey(key, |s|);
    DocumentedProbeIsLookup(s, m, key, q);
    NoStopBefore(s, AsWritten, key, p, q);
    DistInjective(h, p, q, n);
    if Blocked(s, key, q) {
      var j :| 0 <= j < n && Dist(h, j, n) < Dist(h, q, n) && s[j].Live? && |s[j].key| == |key|;
      NoStopBefore(s, AsWritten, key, p, j);
      assert HashCompare(AsDocumented, s[p], key);
    } else if Dist(h, p, n) < Dist(h, q, n) {
      var j := p;
      assert HashCompare(AsDocumented, s[j], key) && !HashCompare(AsWritten, s[j], key);
    }
  }

  /** As written, every absent key that has the length and the start slot of a stored key is
      reported as present, with the value of some other key. */
  lemma WrittenProbeFindsPhantom<V>(s: seq<Slot<V>>, m: map<string, V>, stored: string, key: string, p: nat)
    requires Represents(s, m)
    requires stored in m && key !in m
    requires |key| == |stored| && HashKey(key, |s|) == HashKey(stored, |s|)
    requires FirstStop(s, AsWritten, key, p)
    ensures s[p].Live? && s[p].key != key && |s[p].key| == |key|
  {
    assert Holds(s, stored);
    var i :| 0 <= i < |s| && s[i].Live? && s[i].key == stored;
    NoStopBefore(s, AsWritten, key, p, i);
    WayToKeyIsUsed(s, i, p);
  }

  /** Such keys are easy to come by: the string hash does not read the last byte. */
  lemma LastByteIsNotHashed(key: string, c: char, modulus: nat)
    requires modulus > 0 && key != "" && |key| != 8
    ensures HashKey(key[|key| - 1 := c], modulus) == HashKey(key, modulus)
  {
    assert key[|key| - 1 := c][..|key| - 1] == key[..|key| - 1];
  }

  // ----- what the operations do to the slots -------------------------------------------------

  /** Writing a new key into a slot whose way from the start slot is all live. */
  lemma PlaceKey<V>(s: seq<Slot<V>>, m: map<string, V>, key: string, value: V, p: nat)
    requires Represents(s, m)
    requires key !in m
    requires p < |s| && !s[p].Live? && LiveUpTo(s, key, p)
    ensures Represents(s[p := Live(key, value)], m[key := value])
  {
    var t, m' := s[p := Live(key, value)], m[key := value];
    assert t[p].Live? && t[p].key == key;
    forall k | k in m'
      ensures Holds(t, k)
    {
      if k != key {
        var i :| 0 <= i < |s| && s[i].Live? && s[i].key == k;
        assert t[i] == s[i];
      }
    }
  }

  lemma BuriedStaysChained<V>(s: seq<Slot<V>>, p: nat, t: seq<Slot<V>>)
    requires Chained(s) && DistinctKeys(s) && p < |s| && t == s[p := Tombstone]
    ensures Chained(t) && DistinctKeys(t)
  {
    assert forall i :: 0 <= i < |t| && i != p ==> t[i] == s[i];
    assert t[p].Tombstone?;
  }

  lemma BuriedStores<V>(s: seq<Slot<V>>, m: map<string, V>, key: string, p: nat, t: seq<Slot<V>>)
    requires Stores(s, m) && DistinctKeys(s) && p < |s| && t == s[p := Tombstone]
    requires (s[p].Live? ==> s[p].key == key) && (key in m ==> s[p].Live?)
    ensures Stores(t, m - {key})
  {
    forall k | k in m - {key}
      ensures Holds(t, k)
    {
      var i :| 0 <= i < |s| && s[i].Live? && s[i].key == k;
      assert t[i] == s[i];
    }
  }

  /** Replacing the slot of a key by a tombstone takes exactly that key out. */
  lemma BuryKey<V>(s: seq<Slot<V>>, m: map<string, V>, key: string, p: nat)
    requires Represents(s, m)
    requires p < |s| && (s[p].Live? ==> s[p].key == key)
    requires key in m ==> s[p].Live?
    ensures Represents(s[p := Tombstone], m - {key})
  {
    BuriedStaysChained(s, p, s[p := Tombstone]);
    BuriedStores(s, m, key, p, s[p := Tombstone]);
  }

  /** What removal does to the load of the table: it stays the same if and only if the key was
      there. An absent key turns the empty slot its probe ends at into a tombstone. */
  lemma RemovalKeepsLoadIff<V>(s: seq<Slot<V>>, m: map<string, V>, key: string, p: nat)
    requires Represents(s, m)
    requires FirstStop(s, AsDocumented, key, p)
    ensures Represents(s[p := Tombstone], m - {key})
    ensures Used(s[p := Tombstone]) == Used(s) + (if key in m then 0 else 1)
  {
    DocumentedProbeIsLookup(s, m, key, p);
    BuryKey(s, m, key, p);
    UsedUpdate(s, p, Tombstone);
  }

  /** A probe for an absent key stops somewhere if and only if an empty slot is left. */
  lemma ProbeEndsIffEmptySlot<V>(s: seq<Slot<V>>, m: map<string, V>, key: string)
    requires Represents(s, m) && key !in m
    ensures (exists p: nat :: FirstStop(s, AsDocumented, key, p)) <==> Used(s) < |s|
  {
    if Used(s) < |s| {
      var e := EmptySlotExists(s);
      var p := NearestStop(s, key, e);
    }
    if p: nat :| FirstStop(s, AsDocumented, key, p) {
      DocumentedProbeIsLookup(s, m, key, p);
      UsedUpdate(s, p, Tombstone);
    }
  }

  lemma NearestStop<V>(s: seq<Slot<V>>, key: string, e: nat) returns (p: nat)
    requires e < |s| && !HashCompare(AsDocumented, s[e], key)
    ensures FirstStop(s, AsDocumented, key, p)
    decreases Dist(HashKey(key, |s|), e, |s|)
  {
    var h := HashKey(key, |s|);
    if j :| 0 <= j < |s| && Dist(h, j, |s|) < Dist(h, e, |s|) && !HashCompare(AsDocumented, s[j], key) {
      p := NearestStop(s, key, j);
    } else {
      p := e;
    }
  }

  /** Growth leaves room: all keys of a table that has just outgrown its limit fit under the
      limit of the next capacity, so adding them back never grows the table again. */
  lemma GrowthMakesRoom(capacity: nat, multiply: nat, add: nat, num: nat, den: nat)
    requires capacity > 0 && multiply >= 2
    requires 0 < num < den <= 2 * num
    ensures capacity * num / den + 1 <= (capacity * multiply + add) * num / den
    ensures capacity * num / den < capacity
  {
    var x, y := capacity * num, (capacity * multiply + add) * num;
    GrownProduct(capacity, multiply, capacity * multiply + add, num, x, y);
    QuotientStep(x, y, den);
    QuotientBelow(x, capacity, den);
  }

  lemma GrownProduct(capacity: nat, multiply: nat, grown: nat, num: nat, x: nat, y: nat)
    requires capacity > 0 && multiply >= 2 && num > 0 && grown >= capacity * multiply
    requires x == capacity * num && y == grown * num
    ensures x >= num && y >= 2 * x
    ensures forall den :: den > num ==> x < capacity * den
  {
    MulMono(num, 1, capacity);
    MulMono(capacity, 2, multiply);
    MulMono(num, 2 * capacity, grown);
    DoubleOfProduct(capacity, num);
    forall den | den > num
      ensures x < capacity * den
    {
      MulMono(capacity, num + 1, den);
    }
  }

  lemma DoubleOfProduct(a: nat, b: nat)
    ensures b * (2 * a) == 2 * (a * b)
  {
  }

  lemma QuotientStep(x: nat, y: nat, den: nat)
    requires den > 0 && y >= 2 * x && 2 * x >= den
    ensures x / den + 1 <= y / den
  {
    if x < den {
      QuotientAtLeast(y, den, 1);
    } else {
      QuotientAtLeast(x, den, 1);
      QuotientDoubles(x, y, den, x / den);
    }
  }

  lemma QuotientDoubles(x: nat, y: nat, den: nat, q: nat)
    requires den > 0 && y >= 2 * x && q == x / den && q >= 1
    ensures q + 1 <= y / den
  {
    MultipleBelow(x, den, q);
    assert den * (2 * q) == 2 * (den * q);
    QuotientAtLeast(y, den, 2 * q);
  }

  lemma MultipleBelow(x: nat, den: nat, q: nat)
    requires den > 0 && q == x / den
    ensures den * q <= x
  {
  }

  lemma QuotientAtLeast(y: nat, den: nat, q: nat)
    requires den > 0 && y >= den * q
    ensures y / den >= q
  {
    if y / den < q {
      MulMono(den, y / den + 1, q);
    }
  }

  lemma QuotientBelow(x: nat, c: nat, den: nat)
    requires den > 0 && x < c * den
    ensures x / den < c
  {
    if x / den >= c {
      MulMono(den, c, x / den);
    }
  }

  // ----- the table ---------------------------------------------------------------------------

  class HashTable<V> {
    const reading: Reading
    const fillNum: nat
    const fillDen: nat
    const expandMultiply: nat
    const expandAdd: nat
    var memory: array<Slot<V>>
    var count: nat
    var capacity: nat
    var capacityMaxFill: nat
    ghost var contents: map<string, V>

    /** The parts that hold even between an insertion and the growth it triggers. */
    ghost predicate Consistent()
      reads this, memory
    {
      && memory.Length == capacity
      && Represents(memory[..], contents)
      && 0 < fillNum < fillDen <= 2 * fillNum
      && expandMultiply >= 2
      && capacityMaxFill == capacity * fillNum / fillDen
      && Used(memory[..]) <= count <= capacityMaxFill + 1
    }

    ghost predicate Valid()
      reads this, memory
    {
      Consistent() && count <= capacityMaxFill
    }

    constructor (initialCount: nat, num: nat, den: nat, multiply: nat, add: nat, mode: Reading)
      requires initialCount > 0 && 0 < num < den <= 2 * num && multiply >= 2
      ensures Valid() && contents == map[] && fresh(memory)
      ensures capacity == initialCount && count == 0 && reading == mode
      ensures capacityMaxFill == initialCount * num / den
    {
      reading, fillNum, fillDen, expandMultiply, expandAdd := mode, num, den, multiply, add;
      memory := new Slot<V>[initialCount](_ => Empty);
      count, capacity, capacityMaxFill := 0, initialCount, initialCount * num / den;
      contents := map[];
      new;
      NoneUsed(memory[..]);
    }

    /** `hash_table_get`: with the documented comparison, exactly the answer of the map. */
    method Get(key: string) returns (bucket: Slot<V>)
      requires Valid()
      ensures reading == AsDocumented ==> bucket == if key in contents then Live(key, contents[key]) else Empty
      ensures exists p: nat :: FirstStop(memory[..], reading, key, p) && bucket == memory[p]
      ensures bucket == Empty ==> key !in contents
      ensures bucket.Live? ==> bucket.key in contents && contents[bucket.key] == bucket.value && |bucket.key| == |key|
    {
      var p := Probe(key);
      bucket := if memory[p].Empty? then Empty else memory[p];
      StoredKeyIsMet(memory[..], contents, reading, key, p);
      if reading == AsDocumented {
        DocumentedProbeIsLookup(memory[..], contents, key, p);
      }
    }

    /** The probe loop that get and remove share; it ends because an empty slot is left. */
    method Probe(key: string) returns (p: nat)
      requires Valid()
      ensures FirstStop(memory[..], reading, key, p)
    {
      var h := HashHash(key, capacity);
      GrowthMakesRoom(capacity, 2, 0, fillNum, fillDen);
      ghost var e := EmptySlotExists(memory[..]);
      p := h;
      while HashCompare(reading, memory[p], key)
        invariant p < capacity && Dist(h, p, capacity) <= Dist(h, e, capacity)
        invariant forall j :: 0 <= j < capacity && Dist(h, j, capacity) < Dist(h, p, capacity) ==>
                    HashCompare(reading, memory[j], key)
        decreases capacity - Dist(h, p, capacity)
      {
        Advance(h, p, e, capacity);
        p := p + 1;
        if p >= capacity {
          p := 0;
        }
      }
    }

    /** The probe of an insertion: the first slot that is not live, tombstones included. */
    method FreeSlot(key: string) returns (p: nat)
      requires Valid()
      ensures p < capacity && !memory[p].Live? && LiveUpTo(memory[..], key, p)
    {
      GrowthMakesRoom(capacity, 2, 0, fillNum, fillDen);
      ghost var e := EmptySlotExists(memory[..]);
      p := ProbeFree(key, e);
    }

    /** The loop, with an empty slot to come to. */
    method ProbeFree(key: string, ghost e: nat) returns (p: nat)
      requires memory.Length == capacity && e < capacity && memory[e].Empty?
      ensures p < capacity && !memory[p].Live? && LiveUpTo(memory[..], key, p)
    {
      var h := HashHash(key, capacity);
      ghost var s := memory[..];
      p := h;
      while memory[p].Live?
        invariant p < capacity && Dist(h, p, capacity) <= Dist(h, e, capacity)
        invariant LiveUpTo(s, key, p)
        decreases capacity - Dist(h, p, capacity)
      {
        Advance(h, p, e, capacity);
        assert s[p].Live?;
        p := p + 1;
        if p >= capacity {
          p := 0;
        }
      }
    }

    /** `hash_table_add`, for a key that is not in the table. The measure says that growth never
        nests: an insertion grows a full table only, and growth inserts below the limit only. */
    method Add(key: string, value: V)
      requires Valid()
      requires key !in contents
      modifies this, memory
      ensures Valid()
      ensures memory == old(memory) || fresh(memory)
      ensures contents == old(contents)[key := value]
      ensures old(count) < old(capacityMaxFill) ==>
                capacity == old(capacity) && memory == old(memory) && count == old(count) + 1
      decreases if count < capacityMaxFill then 0 else 2
    {
      var p := FreeSlot(key);
      ghost var s := memory[..];
      PlaceKey(s, contents, key, value, p);
      UsedUpdate(s, p, Live(key, value));
      memory[p] := Live(key, value);
      assert memory[..] == s[p := Live(key, value)];
      contents := contents[key := value];
      count := count + 1;
      if count > capacityMaxFill {
        Expand();
      }
    }

    /** `hash_table_remove`, for a key that is in the table: with the documented comparison that
        key goes and nothing else; as written, some key of the same length goes. */
    method Remove(key: string)
      requires Valid()
      requires key in contents
      modifies this, memory
      ensures Valid() && memory == old(memory) && capacity == old(capacity)
      ensures exists victim :: victim in old(contents) && |victim| == |key|
                               && (reading == AsDocumented ==> victim == key)
                               && contents == old(contents) - {victim}
    {
      var p := Probe(key);
      ghost var s := memory[..];
      StoredKeyIsMet(memory[..], contents, reading, key, p);
      if reading == AsDocumented {
        DocumentedProbeIsLookup(s, contents, key, p);
      }
      ghost var victim := s[p].key;
      BuryKey(s, contents, victim, p);
      UsedUpdate(s, p, Tombstone);
      memory[p] := Tombstone;
      assert memory[..] == s[p := Tombstone];
      contents := contents - {victim};
    }

    /** `hash_table_expand`: the same entries in a larger array without tombstones. */
    method Expand()
      requires Consistent()
      requires count == capacityMaxFill + 1
      modifies this, memory
      ensures Valid() && fresh(memory)
      ensures contents == old(contents)
      ensures capacity == old(capacity) * expandMultiply + expandAdd
      ensures count == LiveCount(old(memory[..]))
      decreases 1
    {
      var size, source := capacity, memory;
      ghost var s, all := source[..], contents;
      GrowthMakesRoom(capacity, expandMultiply, expandAdd, fillNum, fillDen);
      MulMono(size, 2, expandMultiply);
      count := 0;
      capacity := capacity * expandMultiply + expandAdd;
      capacityMaxFill := capacity * fillNum / fillDen;
      memory := new Slot<V>[capacity](_ => Empty);
      contents := map[];
      NoneUsed(memory[..]);
      ghost var target := memory;
      var i := 0;
      while i < size
        invariant i <= size && source[..] == s && memory == target
        invariant Valid() && capacity == target.Length
        invariant count == LiveCount(s[..i])
        invariant Stores(s[..i], contents)
      {
        LiveCountSnoc(s, i);
        var bucket := source[i];
        if bucket.Live? {
          KeyNotYetStored(s, i, contents);
          StoresSnoc(s, i, contents);
          Add(bucket.key, bucket.value);
        } else {
          StoresSkip(s, i, contents);
        }
        i := i + 1;
      }
      assert s[..size] == s;
      StoresUnique(s, contents, all);
    }
  }

  lemma KeyNotYetStored<V>(s: seq<Slot<V>>, i: nat, m: map<string, V>)
    requires i < |s| && s[i].Live?
    requires DistinctKeys(s) && Stores(s[..i], m)
    ensures s[i].key !in m
  {
  }

  lemma StoresSnoc<V>(s: seq<Slot<V>>, i: nat, m: map<string, V>)
    requires i < |s| && s[i].Live? && s[i].key !in m
    requires Stores(s[..i], m)
    ensures Stores(s[..i + 1], m[s[i].key := s[i].value])
  {
    var t, m' := s[..i + 1], m[s[i].key := s[i].value];
    assert t[i].Live? && t[i].key == s[i].key;
    forall k | k in m'
      ensures Holds(t, k)
    {
      if k != s[i].key {
        var j :| 0 <= j < i && s[..i][j].Live? && s[..i][j].key == k;
        assert t[j].Live? && t[j].key == k;
      }
    }
    assert forall j :: 0 <= j < i ==> t[j] == s[..i][j];
  }

  lemma StoresSkip<V>(s: seq<Slot<V>>, i: nat, m: map<string, V>)
    requires i < |s| && !s[i].Live?
    requires Stores(s[..i], m)
    ensures Stores(s[..i + 1], m)
  {
    var t := s[..i + 1];
    forall k | k in m
      ensures Holds(t, k)
    {
      var j :| 0 <= j < i && s[..i][j].Live? && s[..i][j].key == k;
      assert t[j].Live? && t[j].key == k;
    }
    assert forall j :: 0 <= j < i ==> t[j] == s[..i][j];
  }

  lemma StoresUnique<V>(s: seq<Slot<V>>, m1: map<string, V>, m2: map<string, V>)
    requires Stores(s, m1) && Stores(s, m2)
    ensures m1 == m2
  {
    forall k | k in m1
      ensures k in m2 && m1[k] == m2[k]
    {
      var i :| 0 <= i < |s| && s[i].Live? && s[i].key == k;
    }
    forall k | k in m2
      ensures k in m1
    {
      var i :| 0 <= i < |s| && s[i].Live? && s[i].key == k;
    }
  }

  // ----- whole runs --------------------------------------------------------------------------

  datatype Op<V> = Put(key: string, value: V) | Drop(key: string)

  /** What the operations do to a plain map. */
  function Replay<V>(m: map<string, V>, ops: seq<Op<V>>): map<string, V>
    decreases ops
  {
    if ops == [] then m
    else match ops[0]
         case Put(k, v) => Replay(m[k := v], ops[1..])
         case Drop(k) => Replay(m - {k}, ops[1..])
  }

  /** The callers' side: only absent keys are added and only present keys are removed. */
  predicate Legal<V>(m: map<string, V>, ops: seq<Op<V>>)
    decreases ops
  {
    if ops == [] then true
    else match ops[0]
         case Put(k, v) => k !in m && Legal(m[k := v], ops[1..])
         case Drop(k) => k in m && Legal(m - {k}, ops[1..])
  }

  /** After any legal run from a fresh table, with all the growths it triggers, a lookup answers
      exactly as the plain map does. */
  method LookupAfter<V>(capacity: nat, ops: seq<Op<V>>, key: string) returns (bucket: Slot<V>)
    requires capacity > 0
    requires Legal(map[], ops)
    ensures bucket == if key in Replay(map[], ops) then Live(key, Replay(map[], ops)[key]) else Empty
  {
    var table := new HashTable<V>(capacity, 85, 100, 2, 0, AsDocumented);
    var i := 0;
    while i < |ops|
      invariant i <= |ops|
      invariant table.Valid() && table.reading == AsDocumented
      invariant fresh(table) && fresh(table.memory)
      invariant Legal(table.contents, ops[i..])
      invariant Replay(table.contents, ops[i..]) == Replay(map[], ops)
    {
      assert ops[i..][0] == ops[i] && ops[i..][1..] == ops[i + 1..];
      match ops[i] {
        case Put(k, v) => table.Add(k, v);
        case Drop(k) => table.Remove(k);
      }
      i := i + 1;
    }
    bucket := table.Get(key);
  }

  // ----- the comparison as written, on the keys the program uses -----------------------------

  /** The four bytes of a small file descriptor, as the client table keys them. */
  function FdKey(fd: int): string
    requires 0 <= fd < 0x8000_0000
  {
    [(fd % 256) as char, (fd / 256 % 256) as char, (fd / 65536 % 256) as char, (fd / 16777216) as char]
  }

  lemma FdKeysDiffer(a: int, b: int)
    requires 0 <= a < 0x8000_0000 && 0 <= b < 0x8000_0000
    ensures FdKey(a) == FdKey(b) <==> a == b
  {
    if FdKey(a) == FdKey(b) {
      FourDigits(a, a / 256, a / 65536, a / 16777216);
      FourDigits(b, b / 256, b / 65536, b / 16777216);
      assert FdKey(a)[0] == FdKey(b)[0] && FdKey(a)[1] == FdKey(b)[1];
      assert FdKey(a)[2] == FdKey(b)[2] && FdKey(a)[3] == FdKey(b)[3];
    }
  }

  lemma FourDigits(x: nat, q1: nat, q2: nat, q3: nat)
    requires q1 == x / 256 && q2 == x / 65536 && q3 == x / 16777216
    ensures x == x % 256 + 256 * (q1 % 256) + 65536 * (q2 % 256) + 16777216 * q3
  {
    assert q2 == q1 / 256 && q3 == q2 / 256;
  }

  lemma LowFourOfSum(z: nat, w: nat, number: nat)
    requires z % 16 == w % 16
    ensures (z + number) % WORD % 16 == (w + number) % 16
  {
  }

  /** At 16 slots the start of an 8-byte key depends on the low four bits of three words. */
  lemma LowFourBits(x: nat, y: nat, number: nat)
    ensures And((Xor(x, y) + number) % WORD, 15) == (Xor(x % 16, y % 16) + number) % 16
  {
    var z, w := Xor(x, y), Xor(x % 16, y % 16);
    assert Pow2(4) == 16;
    XorLow(x, y, 4);
    LowFourOfSum(z, w, number);
    AndMask((z + number) % WORD, 4);
  }

  lemma LowFourOfProduct(x: nat, y: nat, factor: nat)
    requires x % 16 == y % 16
    ensures x * factor % WORD % 16 == y * factor % WORD % 16
  {
    LowFourOfWord(x * factor);
    LowFourOfWord(y * factor);
    ProductSplits(x, x / 16, x % 16, factor);
    ProductSplits(y, y / 16, y % 16, factor);
    LowFourOfMultiple(x / 16 * factor, x % 16 * factor);
    LowFourOfMultiple(y / 16 * factor, y % 16 * factor);
  }

  lemma ProductSplits(x: nat, q: nat, r: nat, factor: nat)
    requires x == 16 * q + r
    ensures x * factor == 16 * (q * factor) + r * factor
  {
  }

  lemma LowFourOfMultiple(q: nat, r: nat)
    ensures (16 * q + r) % 16 == r % 16
  {
  }

  lemma LowFourOfWord(z: nat)
    ensures z % WORD % 16 == z % 16
  {
  }

  lemma StartAt16(number: nat)
    ensures HashLong(number, 16)
            == (Xor(number * 6654657629 % WORD % 16, number * 98767787 % WORD % 16) + number) % 16
  {
    LowFourBits(number * 6654657629 % WORD, number * 98767787 % WORD, number);
  }

  lemma SameStart(z: nat, x: nat, y: nat)
    requires x % 16 == y % 16
    ensures (z + x) % 16 == (z + y) % 16
  {
  }

  lemma FirstByteOfWord(key: string)
    requires |key| == 8
    ensures WordOf(key) % 16 == ByteOf(key[0]) % 16
  {
  }

  /** In a 16-slot table all 8-byte keys with the same first byte start at the same slot. */
  lemma EightByteKeysShareStart(a: string, b: string)
    requires |a| == |b| == 8 && a[0] == b[0]
    ensures HashKey(a, 16) == HashKey(b, 16)
  {
    var x, y := WordOf(a), WordOf(b);
    FirstByteOfWord(a);
    FirstByteOfWord(b);
    LowFourOfProduct(x, y, 6654657629);
    LowFourOfProduct(x, y, 98767787);
    StartAt16(x);
    StartAt16(y);
    SameStart(Xor(x * 6654657629 % WORD % 16, x * 98767787 % WORD % 16), x, y);
  }

  /** Two header keys of an update request have the same length and the same start slot in the
      header table: as written, each is taken for the other. */
  lemma UpdateKeysCollide()
    ensures |"updateat"| == |"username"| && "updateat" != "username"
    ensures HashKey("updateat", 16) == HashKey("username", 16)
  {
    assert "updateat"[1] != "username"[1];
    EightByteKeysShareStart("updateat", "username");
  }

  lemma DjbStep(s: string, c: char)
    ensures Djb2(s + [c]) == (Djb2(s) * 33 + SignedChar(c)) % WORD
  {
    assert (s + [c])[..|s|] == s;
  }

  /** Descriptors 4 and 8 start at the same slot of the 100-slot client table. */
  lemma ClientKeysCollide()
    ensures HashKey(FdKey(4), 100) == HashKey(FdKey(8), 100) == 97
  {
    StartOfFd(FdKey(4), '\U{4}');
    StartOfFd(FdKey(8), '\U{8}');
    MaskBy99(1510791);
    MaskBy99(1510825);
  }

  lemma MaskBy99(q: nat)
    ensures And(128 * q + 105, 99) == 97
    ensures And(128 * q + 109, 99) == 97
  {
    assert And(2 * q + 1, 1) == 1;
    assert And(4 * q + 3, 3) == 3;
    assert And(8 * q + 6, 6) == 6;
    assert And(16 * q + 13, 12) == 12;
    assert And(32 * q + 26, 24) == 24 && And(32 * q + 27, 24) == 24;
    assert And(64 * q + 52, 49) == 48 && And(64 * q + 54, 49) == 48;
  }

  lemma StartOfFd(key: string, c: char)
    requires c as int < 128 && key == [c, '\0', '\0', '\0']
    ensures HashKey(key, 100) == And(193376997 + 1089 * c as int, 99)
  {
    ShortKeyHash(c);
  }

  lemma ShortKeyHash(c: char)
    requires c as int < 128
    ensures Djb2(HashedPart([c, '\0', '\0', '\0'])) == 193376997 + 1089 * c as int
  {
    var two := [c, '\0'];
    TwoByteHash(c, two);
    DjbStep(two, '\0');
    assert HashedPart([c, '\0', '\0', '\0']) == two + ['\0'];
  }

  lemma TwoByteHash(c: char, two: string)
    requires c as int < 128 && two == [c, '\0']
    ensures Djb2(two) == 5859909 + 33 * c as int
  {
    assert [c] + ['\0'] == two;
    OneByteHash(c, [c]);
    DjbStep([c], '\0');
  }

  lemma OneByteHash(c: char, one: string)
    requires c as int < 128 && one == [c]
    ensures Djb2(one) == 177573 + c as int
  {
    assert "" + [c] == one;
    DjbStep("", c);
  }
}
