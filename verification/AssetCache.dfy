/** The asset loader's cache: a map into a list that is kept in the order of use,
    with limits on the number of entries and on their bytes. */
module AssetCache {
  type Bytes = seq<int>

  // ----- The order of use, from the history of accesses alone -----

  function Without(keys: seq<string>, key: string): (r: seq<string>)
    ensures key !in r && |r| <= |keys|
  {
    if keys == [] then [] else (if keys[0] == key then [] else [keys[0]]) + Without(keys[1..], key)
  }

  /** Every key accessed so far, the latest first. */
  function Recency(history: seq<string>): seq<string> {
    if history == [] then []
    else
      var n := |history| - 1;
      [history[n]] + Without(Recency(history[..n]), history[n])
  }

  lemma {:induction false} WithoutPrefix(a: seq<string>, b: seq<string>, key: string)
    requires a <= b
    ensures Without(a, key) <= Without(b, key)
  {
    if a != [] {
      WithoutPrefix(a[1..], b[1..], key);
    }
  }

  lemma {:induction false} WithoutAbsent(a: seq<string>, key: string)
    requires key !in a
    ensures Without(a, key) == a
  {
    if a != [] {
      WithoutAbsent(a[1..], key);
    }
  }

  predicate Distinct(keys: seq<string>) {
    forall i, j | 0 <= i < j < |keys| :: keys[i] != keys[j]
  }

  lemma RestIsDistinct(keys: seq<string>)
    requires keys != [] && Distinct(keys)
    ensures Distinct(keys[1..]) && keys[0] !in keys[1..]
  {
  }

  lemma AroundLater(keys: seq<string>, i: nat)
    requires 0 < i < |keys|
    ensures [keys[0]] + (keys[1..][..i - 1] + keys[1..][i..]) == keys[..i] + keys[i + 1..]
  {
    assert keys[..i] == [keys[0]] + keys[1..][..i - 1] && keys[1..][i..] == keys[i + 1..];
  }

  lemma {:induction false} WithoutOne(keys: seq<string>, i: nat)
    requires Distinct(keys) && i < |keys|
    ensures Without(keys, keys[i]) == keys[..i] + keys[i + 1..]
    decreases i
  {
    RestIsDistinct(keys);
    if i == 0 {
      WithoutAbsent(keys[1..], keys[0]);
      assert keys[..0] + keys[1..] == keys[1..];
    } else {
      WithoutOne(keys[1..], i - 1);
      AroundLater(keys, i);
    }
  }

  lemma AccessPrefix(keys: seq<string>, history: seq<string>, key: string)
    requires keys <= Recency(history)
    ensures [key] + Without(keys, key) <= Recency(history + [key])
  {
    WithoutPrefix(keys, Recency(history), key);
    assert (history + [key])[..|history|] == history;
  }

  // ----- List elements -----

  class Element {
    const key: string
    const data: Bytes

    constructor (key: string, data: Bytes)
      ensures this.key == key && this.data == data
    {
      this.key, this.data := key, data;
    }
  }

  function Keys(lru: seq<Element>): (r: seq<string>)
    ensures |r| == |lru| && forall i | 0 <= i < |r| :: r[i] == lru[i].key
  {
    seq(|lru|, i requires 0 <= i < |lru| => lru[i].key)
  }

  function Total(lru: seq<Element>): nat {
    if lru == [] then 0 else Total(lru[..|lru| - 1]) + |lru[|lru| - 1].data|
  }

  lemma {:induction false} TotalJoins(a: seq<Element>, b: seq<Element>)
    ensures Total(a + b) == Total(a) + Total(b)
  {
    if b == [] {
      assert a + b == a;
    } else {
      TotalJoins(a, b[..|b| - 1]);
      assert (a + b)[..|a + b| - 1] == a + b[..|b| - 1];
    }
  }

  predicate Fits(lru: seq<Element>, maxEntries: nat, maxBytes: nat) {
    |lru| <= maxEntries && Total(lru) <= maxBytes
  }

  predicate NoneLongerFits(all: seq<Element>, n: nat, maxEntries: nat, maxBytes: nat) {
    forall m | n < m <= |all| :: !Fits(all[..m], maxEntries, maxBytes)
  }

  /** Of a list, the longest part from the front that fits. */
  predicate LongestFit(kept: seq<Element>, all: seq<Element>, maxEntries: nat, maxBytes: nat) {
    kept <= all && Fits(kept, maxEntries, maxBytes) && NoneLongerFits(all, |kept|, maxEntries, maxBytes)
  }

  /** A list that does not fit can lose its last element, unless its first alone is
      too much. */
  lemma OneShorter(kept: seq<Element>, all: seq<Element>, maxEntries: nat, maxBytes: nat)
    requires kept != [] && kept <= all && NoneLongerFits(all, |kept|, maxEntries, maxBytes)
    requires Fits(all[..1], maxEntries, maxBytes) && !Fits(kept, maxEntries, maxBytes)
    ensures |kept| > 1 && kept[..|kept| - 1] <= all && NoneLongerFits(all, |kept| - 1, maxEntries, maxBytes)
  {
    assert kept == all[..|kept|];
  }

  function Fronted(lru: seq<Element>, i: nat): seq<Element>
    requires i < |lru|
  {
    [lru[i]] + lru[..i] + lru[i + 1..]
  }

  lemma ThreeTotals(a: seq<Element>, b: seq<Element>, c: seq<Element>)
    ensures Total(a + b + c) == Total(a) + Total(b) + Total(c)
  {
    TotalJoins(a + b, c);
    TotalJoins(a, b);
  }

  lemma Rotated(a: seq<Element>, b: seq<Element>, c: seq<Element>)
    ensures Total(b + a + c) == Total(a + b + c)
  {
    ThreeTotals(a, b, c);
    ThreeTotals(b, a, c);
  }

  lemma Split(lru: seq<Element>, i: nat)
    requires i < |lru|
    ensures lru[..i] + [lru[i]] + lru[i + 1..] == lru
  {
  }

  lemma FrontedTotal(lru: seq<Element>, i: nat)
    requires i < |lru|
    ensures Total(Fronted(lru, i)) == Total(lru)
  {
    Split(lru, i);
    Rotated(lru[..i], [lru[i]], lru[i + 1..]);
  }

  lemma FrontedKeys(lru: seq<Element>, i: nat, history: seq<string>)
    requires i < |lru| && Distinct(Keys(lru)) && Keys(lru) <= Recency(history)
    ensures Keys(Fronted(lru, i)) <= Recency(history + [lru[i].key])
  {
    WithoutOne(Keys(lru), i);
    AccessPrefix(Keys(lru), history, lru[i].key);
    FrontedKeyList(lru, i);
  }

  lemma FrontedKeyList(lru: seq<Element>, i: nat)
    requires i < |lru|
    ensures Keys(Fronted(lru, i)) == [lru[i].key] + (Keys(lru)[..i] + Keys(lru)[i + 1..])
  {
  }

  lemma FrontedSame(lru: seq<Element>, i: nat)
    requires i < |lru|
    ensures forall e :: e in Fronted(lru, i) <==> e in lru
    ensures Distinct(Keys(lru)) ==> Distinct(Keys(Fronted(lru, i)))
  {
    assert lru == lru[..i] + [lru[i]] + lru[i + 1..];
    var now := Fronted(lru, i);
    forall a, b | 0 <= a < b < |now| && Distinct(Keys(lru)) ensures Keys(now)[a] != Keys(now)[b] {
      var x, y := if a == 0 then i else if a <= i then a - 1 else a, if b <= i then b - 1 else b;
      assert now[a] == lru[x] && now[b] == lru[y] && x != y;
      assert Keys(lru)[x] != Keys(lru)[y];
    }
  }

  /** The map has exactly the elements of the list, each under its own key. */
  predicate SameEntries(entries: map<string, Element>, lru: seq<Element>) {
    && (forall e | e in lru :: e.key in entries && entries[e.key] == e)
    && (forall k | k in entries :: entries[k] in lru && entries[k].key == k)
  }

  lemma FrontedStaysLinked(entries: map<string, Element>, lru: seq<Element>, i: nat)
    requires i < |lru| && SameEntries(entries, lru)
    ensures SameEntries(entries, Fronted(lru, i)) && |Fronted(lru, i)| == |lru| && Fronted(lru, i)[0] == lru[i]
  {
    FrontedSame(lru, i);
  }

  lemma DropLast(entries: map<string, Element>, lru: seq<Element>)
    requires lru != [] && SameEntries(entries, lru) && Distinct(Keys(lru))
    ensures SameEntries(entries - {lru[|lru| - 1].key}, lru[..|lru| - 1]) && Distinct(Keys(lru[..|lru| - 1]))
  {
    var last, rest := lru[|lru| - 1], lru[..|lru| - 1];
    assert lru == rest + [last];
    forall e | e in rest ensures e.key != last.key {
      var i :| 0 <= i < |rest| && rest[i] == e;
      assert Keys(lru)[i] != Keys(lru)[|lru| - 1];
    }
    forall i, j | 0 <= i < j < |rest| ensures Keys(rest)[i] != Keys(rest)[j] {
      assert Keys(rest)[i] == Keys(lru)[i] && Keys(rest)[j] == Keys(lru)[j];
    }
  }

  lemma AddFirst(entries: map<string, Element>, lru: seq<Element>, element: Element)
    requires SameEntries(entries, lru) && Distinct(Keys(lru)) && element.key !in entries
    ensures SameEntries(entries[element.key := element], [element] + lru) && Distinct(Keys([element] + lru))
    ensures Total([element] + lru) == Total(lru) + |element.data|
  {
    TotalJoins([element], lru);
    assert Total([element]) == |element.data|;
    var now := [element] + lru;
    forall i, j | 0 <= i < j < |now| ensures Keys(now)[i] != Keys(now)[j] {
      assert i > 0 ==> Keys(lru)[i - 1] != Keys(lru)[j - 1];
      assert now[j] in lru;
    }
  }

  lemma {:induction false} CountMatches(entries: map<string, Element>, lru: seq<Element>)
    requires SameEntries(entries, lru) && Distinct(Keys(lru))
    ensures |entries| == |lru|
    decreases |lru|
  {
    if lru == [] {
      assert entries == map[] by {
        assert forall k :: k !in entries;
      }
    } else {
      DropLast(entries, lru);
      CountMatches(entries - {lru[|lru| - 1].key}, lru[..|lru| - 1]);
      assert lru[|lru| - 1] in lru;
      assert entries.Keys == (entries - {lru[|lru| - 1].key}).Keys + {lru[|lru| - 1].key};
    }
  }

  lemma AccessNew(keys: seq<string>, history: seq<string>, key: string)
    requires keys <= Recency(history) && key !in keys
    ensures [key] + keys <= Recency(history + [key])
  {
    WithoutAbsent(keys, key);
    AccessPrefix(keys, history, key);
  }

  lemma KeysCons(element: Element, lru: seq<Element>)
    ensures Keys([element] + lru) == [element.key] + Keys(lru)
  {
  }

  lemma ShorterKeys(kept: seq<Element>, all: seq<Element>, order: seq<string>)
    requires kept <= all && Keys(all) <= order
    ensures Keys(kept) <= order
  {
  }

  lemma FirstFits(element: Element, rest: seq<Element>, maxEntries: nat, maxBytes: nat)
    requires maxEntries >= 1 && |element.data| <= maxBytes
    ensures Fits(([element] + rest)[..1], maxEntries, maxBytes)
  {
    assert ([element] + rest)[..1] == [element];
    assert Total([element]) == |element.data|;
  }

  const DefaultEntries := 16
  const DefaultBytes := 64 * 0x10_0000

  class Loader {
    const maxEntries: nat
    const maxBytes: nat
    var entries: map<string, Element>
    var lru: seq<Element>
    var bytes: nat
    ghost var history: seq<string>

    constructor (maxEntries: int, maxBytes: int)
      ensures Valid() && lru == [] && history == []
      ensures this.maxEntries == (if maxEntries < 1 then 16 else maxEntries)
      ensures this.maxBytes == (if maxBytes < 1 then 64 * 1024 * 1024 else maxBytes)
    {
      this.maxEntries := if maxEntries < 1 then DefaultEntries else maxEntries;
      this.maxBytes := if maxBytes < 1 then DefaultBytes else maxBytes;
      entries, lru, bytes, history := map[], [], 0, [];
    }

    /** Map and list hold the same elements, and the list is what fits of the order
        of use. */
    ghost predicate Valid()
      reads this
    {
      && Linked() && Keys(lru) <= Recency(history)
      && maxEntries >= 1 && maxBytes >= 1 && Fits(lru, maxEntries, maxBytes)
    }

    ghost predicate Linked()
      reads this
    {
      Distinct(Keys(lru)) && bytes == Total(lru) && SameEntries(entries, lru)
    }

    ghost predicate HoldsOnly(content: string -> Bytes)
      reads this
    {
      forall e | e in lru :: e.data == content(e.key)
    }

    method Place(element: Element) returns (i: nat)
      requires element in lru
      ensures i < |lru| && lru[i] == element
    {
      i := 0;
      while lru[i] != element
        invariant i < |lru| && element in lru[i..]
        decreases |lru| - i
      {
        i := i + 1;
      }
    }

    method MoveToFront(element: Element)
      requires Linked() && Keys(lru) <= Recency(history) && element in lru
      modifies this`lru, this`history
      ensures Linked() && Keys(lru) <= Recency(history) && history == old(history) + [element.key]
      ensures |lru| == |old(lru)| > 0 && lru[0] == element && (forall e :: e in lru <==> e in old(lru))
    {
      var i := Place(element);
      FrontedTotal(lru, i);
      FrontedKeys(lru, i, history);
      FrontedSame(lru, i);
      FrontedStaysLinked(entries, lru, i);
      ghost var now := Fronted(lru, i);
      lru := [element] + lru[..i] + lru[i + 1..];
      assert lru == now;
      history := history + [element.key];
    }

    /** A hit returns the bytes stored under the key and makes it the latest. */
    method Cached(key: string) returns (data: Bytes, ok: bool)
      requires Valid()
      modifies this`lru, this`history
      ensures Valid()
      ensures ok <==> key in old(Keys(lru))
      ensures ok ==> lru != [] && lru[0].key == key && data == lru[0].data && lru[0] in old(lru)
      ensures ok ==> history == old(history) + [key] && forall e :: e in lru <==> e in old(lru)
      ensures !ok ==> lru == old(lru) && history == old(history)
      ensures forall content | old(HoldsOnly(content)) :: HoldsOnly(content) && (ok ==> data == content(key))
    {
      KeysAreEntries(entries, lru, key);
      if key !in entries {
        return [], false;
      }
      var element := entries[key];
      MoveToFront(element);
      data := element.data;
      ok := true;
    }

    /** Drops the least recent entry. */
    method EvictOldest()
      requires Linked() && lru != []
      modifies this`entries, this`lru, this`bytes
      ensures Linked() && lru == old(lru)[..|old(lru)| - 1]
    {
      DropLast(entries, lru);
      var old_ := lru[|lru| - 1];
      entries := entries - {old_.key};
      lru := lru[..|lru| - 1];
      bytes := bytes - |old_.data|;
    }

    /** One entry less, while no longer part of `all` would fit. */
    method EvictOne(ghost all: seq<Element>)
      requires Linked() && lru != [] && lru <= all && NoneLongerFits(all, |lru|, maxEntries, maxBytes)
      requires Fits(all[..1], maxEntries, maxBytes) && !Fits(lru, maxEntries, maxBytes)
      modifies this`entries, this`lru, this`bytes
      ensures Linked() && |lru| == |old(lru)| - 1 && lru != [] && lru <= all
      ensures NoneLongerFits(all, |lru|, maxEntries, maxBytes)
    {
      OneShorter(lru, all, maxEntries, maxBytes);
      EvictOldest();
    }

    /** Makes room: exactly the least recent entries that have to go are dropped. */
    method Evict()
      requires Linked() && lru != [] && Fits(lru[..1], maxEntries, maxBytes)
      modifies this`entries, this`lru, this`bytes
      ensures Linked() && lru != [] && LongestFit(lru, old(lru), maxEntries, maxBytes)
    {
      ghost var all := lru;
      CountMatches(entries, lru);
      while |entries| > maxEntries || bytes > maxBytes
        invariant Linked() && |entries| == |lru| && lru != [] && lru <= all
        invariant NoneLongerFits(all, |lru|, maxEntries, maxBytes)
        decreases |lru|
      {
        EvictOne(all);
        CountMatches(entries, lru);
      }
    }

    /** Puts a new entry in front. */
    method Push(key: string, data: Bytes)
      requires Valid() && key !in entries && |data| <= maxBytes
      modifies this
      ensures Linked() && Keys(lru) <= Recency(history) && history == old(history) + [key]
      ensures lru != [] && lru == [lru[0]] + old(lru) && lru[0].key == key && lru[0].data == data
      ensures Fits(lru[..1], maxEntries, maxBytes)
    {
      var element := new Element(key, data);
      AddFirst(entries, lru, element);
      KeysAreEntries(entries, lru, key);
      AccessNew(Keys(lru), history, key);
      KeysCons(element, lru);
      FirstFits(element, lru, maxEntries, maxBytes);
      lru := [element] + lru;
      entries := entries[key := element];
      bytes := bytes + |data|;
      history := history + [key];
    }

    /** Puts a new entry in front and makes room for it. */
    method Insert(key: string, data: Bytes)
      requires Valid() && key !in entries && |data| <= maxBytes
      modifies this
      ensures Valid() && lru != [] && lru[0].key == key && lru[0].data == data && history == old(history) + [key]
      ensures LongestFit(lru, [lru[0]] + old(lru), maxEntries, maxBytes)
    {
      Push(key, data);
      ghost var all := lru;
      Evict();
      ShorterKeys(lru, all, Recency(history));
    }

    method Renew(key: string)
      requires Valid() && key in entries
      modifies this`lru, this`history
      ensures Valid() && lru != [] && lru[0].key == key && lru[0] in old(lru) && history == old(history) + [key]
      ensures forall e :: e in lru <==> e in old(lru)
    {
      MoveToFront(entries[key]);
    }

    /** Stores a copy under a new key; an existing entry is only made the latest. */
    method Store(key: string, data: Bytes)
      requires Valid()
      modifies this
      ensures Valid()
      ensures |data| > maxBytes ==> lru == old(lru) && history == old(history)
      ensures |data| <= maxBytes ==> lru != [] && lru[0].key == key && history == old(history) + [key]
      ensures |data| <= maxBytes && key in old(Keys(lru)) ==>
                lru[0] in old(lru) && (forall e :: e in lru <==> e in old(lru))
      ensures |data| <= maxBytes && key !in old(Keys(lru)) ==>
                lru[0].data == data && LongestFit(lru, [lru[0]] + old(lru), maxEntries, maxBytes)
      ensures forall content | old(HoldsOnly(content)) && data == content(key) :: HoldsOnly(content)
    {
      if |data| > maxBytes {
        return;
      }
      KeysAreEntries(entries, lru, key);
      if key in entries {
        Renew(key);
        return;
      }
      Insert(key, data);
    }
  }

  lemma KeysAreEntries(entries: map<string, Element>, lru: seq<Element>, key: string)
    requires SameEntries(entries, lru)
    ensures key in entries <==> key in Keys(lru)
  {
    if key in entries {
      var i :| 0 <= i < |lru| && lru[i] == entries[key];
      assert Keys(lru)[i] == key;
    }
    if key in Keys(lru) {
      var i :| 0 <= i < |lru| && Keys(lru)[i] == key;
      assert lru[i] in lru;
    }
  }
}
