/** Loading and using the skills taxonomy. */
module Taxonomy {
  import opened Options
  import opened CoveredText

  datatype RawEntry = RawEntry(id: string, displayName: string, aliases: seq<string>)
  datatype Entry = Entry(id: string, displayName: string)

  // Unicode normalization, trimming and full lower-casing of a lookup key.
  type Normalizer = string -> string

  predicate IsSlug(id: string) {
    && id != [] && id[0] !in "._-"
    && forall i :: 0 <= i < |id| ==> 'a' <= id[i] <= 'z' || '0' <= id[i] <= '9' || id[i] in "._-"
  }

  function Publish(e: RawEntry): Entry {
    Entry(e.id, e.displayName)
  }

  /** An entry's lookup keys: its id, then its aliases, normalized. */
  function Keys(normalize: Normalizer, e: RawEntry): (keys: seq<string>)
    ensures |keys| == |e.aliases| + 1
  {
    seq(|e.aliases| + 1, i requires 0 <= i < |e.aliases| + 1 => normalize(([e.id] + e.aliases)[i]))
  }

  predicate Distinct(keys: seq<string>) {
    forall i, j :: 0 <= i < j < |keys| ==> keys[i] != keys[j]
  }

  // What an entry must be by itself.
  predicate EntryFine(normalize: Normalizer, e: RawEntry) {
    && IsSlug(e.id) && Trim(e.displayName) != []
    && [] !in Keys(normalize, e) && Distinct(Keys(normalize, e))
    && normalize(e.displayName) in Keys(normalize, e)
  }

  predicate Disjoint(normalize: Normalizer, a: RawEntry, b: RawEntry) {
    a.id != b.id && forall k :: k in Keys(normalize, a) ==> k !in Keys(normalize, b)
  }

  /** All normalized keys are non-blank and pairwise distinct, ids are distinct slugs, and every display
      name is reachable through its own entry. */
  predicate Acceptable(normalize: Normalizer, entries: seq<RawEntry>) {
    && (forall i :: 0 <= i < |entries| ==> EntryFine(normalize, entries[i]))
    && forall i, j :: 0 <= i < j < |entries| ==> Disjoint(normalize, entries[i], entries[j])
  }

  /** The first entry with the key, found by scanning. */
  function Scan(normalize: Normalizer, entries: seq<RawEntry>, key: string): Option<Entry> {
    if entries == [] then None
    else if key in Keys(normalize, entries[0]) then Some(Publish(entries[0]))
    else Scan(normalize, entries[1..], key)
  }

  function Find(index: map<string, Entry>, key: string): Option<Entry> {
    if key in index then Some(index[key]) else None
  }

  // The index holds exactly these entries' keys.
  ghost predicate Indexes(normalize: Normalizer, entries: seq<RawEntry>, index: map<string, Entry>) {
    forall key :: Find(index, key) == Scan(normalize, entries, key)
  }

  lemma {:induction false} ScanAppend(normalize: Normalizer, entries: seq<RawEntry>, e: RawEntry, key: string)
    ensures Scan(normalize, entries + [e], key) ==
      if Scan(normalize, entries, key).Some? then Scan(normalize, entries, key)
      else if key in Keys(normalize, e) then Some(Publish(e))
      else None
  {
    hide Keys;
    if entries == [] {
      assert entries + [e] == [e];
    } else {
      ScanAppend(normalize, entries[1..], e, key);
      assert (entries + [e])[1..] == entries[1..] + [e];
    }
  }

  lemma {:induction false} ScanFinds(normalize: Normalizer, entries: seq<RawEntry>, key: string)
    ensures Scan(normalize, entries, key).Some? <==> exists i :: 0 <= i < |entries| && key in Keys(normalize, entries[i])
  {
    hide Keys;
    if entries != [] {
      ScanFinds(normalize, entries[1..], key);
      if i :| 0 <= i < |entries| && key in Keys(normalize, entries[i]) {
        assert i > 0 ==> entries[1..][i - 1] == entries[i];
      }
      if i :| 0 <= i < |entries[1..]| && key in Keys(normalize, entries[1..][i]) {
        assert entries[i + 1] == entries[1..][i];
      }
    }
  }

  // What a key finds once an entry's keys have joined the index.
  function FindWith(index: map<string, Entry>, keys: seq<string>, e: RawEntry, key: string): Option<Entry> {
    if key in index then Some(index[key]) else if key in keys then Some(Publish(e)) else None
  }

  // The inner loop: the entry's keys join the index unless one is blank or already taken.
  method AddKeys(normalize: Normalizer, index: map<string, Entry>, e: RawEntry) returns (index': Option<map<string, Entry>>)
    ensures index'.Some? <==> [] !in Keys(normalize, e) && Distinct(Keys(normalize, e)) && forall k :: k in Keys(normalize, e) ==> k !in index
    ensures index'.Some? ==> forall key :: Find(index'.value, key) == FindWith(index, Keys(normalize, e), e, key)
  {
    var keys := Keys(normalize, e);
    var now := index;
    for n := 0 to |keys|
      invariant [] !in keys[..n] && Distinct(keys[..n]) && forall k :: k in keys[..n] ==> k !in index
      invariant forall key :: Find(now, key) == FindWith(index, keys[..n], e, key)
    {
      var key := keys[n];
      assert keys[..n + 1] == keys[..n] + [key] && keys[..n + 1][n] == key;
      assert Find(now, key) == FindWith(index, keys[..n], e, key);
      if key == [] || key in keys[..n] || key in now {
        return None;
      }
      ghost var before := now;
      now := now[key := Publish(e)];
      forall k
        ensures Find(now, k) == FindWith(index, keys[..n + 1], e, k)
      {
        assert Find(before, k) == FindWith(index, keys[..n], e, k);
        assert k in keys[..n + 1] <==> k in keys[..n] || k == key;
      }
    }
    assert keys[..|keys|] == keys;
    index' := Some(now);
  }

  lemma AcceptableOneMore(normalize: Normalizer, entries: seq<RawEntry>, e: RawEntry)
    ensures Acceptable(normalize, entries + [e]) <==>
      Acceptable(normalize, entries) && EntryFine(normalize, e)
      && forall i :: 0 <= i < |entries| ==> Disjoint(normalize, entries[i], e)
  {
    hide EntryFine, Disjoint;
    var all := entries + [e];
    assert forall i :: 0 <= i < |entries| ==> all[i] == entries[i];
    assert all[|entries|] == e;
    if Acceptable(normalize, all) {
      forall i | 0 <= i < |entries|
        ensures Disjoint(normalize, entries[i], e) && EntryFine(normalize, entries[i])
      {
        assert Disjoint(normalize, all[i], all[|entries|]) && EntryFine(normalize, all[i]);
      }
      forall i, j | 0 <= i < j < |entries|
        ensures Disjoint(normalize, entries[i], entries[j])
      {
        assert Disjoint(normalize, all[i], all[j]);
      }
    }
  }

  lemma {:induction false} AcceptablePrefix(normalize: Normalizer, entries: seq<RawEntry>, n: nat)
    requires n <= |entries| && Acceptable(normalize, entries)
    ensures Acceptable(normalize, entries[..n])
  {
    hide EntryFine, Disjoint;
  }

  // The keys of an entry are free in the index exactly when it shares none with the entries indexed.
  lemma FreeIsDisjoint(normalize: Normalizer, entries: seq<RawEntry>, index: map<string, Entry>, e: RawEntry)
    requires Indexes(normalize, entries, index)
    ensures (forall k :: k in Keys(normalize, e) ==> k !in index) && (forall i :: 0 <= i < |entries| ==> entries[i].id != e.id)
      <==> forall i :: 0 <= i < |entries| ==> Disjoint(normalize, entries[i], e)
  {
    hide Keys;
    forall k
      ensures k in index <==> exists i :: 0 <= i < |entries| && k in Keys(normalize, entries[i])
    {
      assert Find(index, k) == Scan(normalize, entries, k);
      ScanFinds(normalize, entries, k);
    }
  }

  /** The loader accepts exactly the acceptable entries, and then the index finds for every key what a
      scan of the entries finds. */
  method Load(normalize: Normalizer, entries: seq<RawEntry>) returns (index: Option<map<string, Entry>>)
    ensures index.Some? <==> Acceptable(normalize, entries)
    ensures index.Some? ==> Indexes(normalize, entries, index.value)
  {
    hide Keys, Acceptable, Disjoint, Scan, Trim, IsSlug;
    var byKey: map<string, Entry> := map[];
    var seen: set<string> := {};
    NothingLoaded(normalize);
    for n := 0 to |entries|
      invariant Acceptable(normalize, entries[..n]) && Indexes(normalize, entries[..n], byKey)
      invariant forall id :: id in seen <==> exists i :: 0 <= i < n && entries[i].id == id
    {
      var e := entries[n];
      var before := entries[..n];
      assert entries[..n + 1] == before + [e];
      AcceptableOneMore(normalize, before, e);
      FreeIsDisjoint(normalize, before, byKey, e);
      forall key
        ensures Scan(normalize, before + [e], key) == FindWith(byKey, Keys(normalize, e), e, key)
      {
        ScanAppend(normalize, before, e, key);
        assert Find(byKey, key) == Scan(normalize, before, key);
      }
      var joined := AddKeys(normalize, byKey, e);
      if !IsSlug(e.id) || Trim(e.displayName) == [] || e.id in seen || joined.None?
         || normalize(e.displayName) !in Keys(normalize, e) {
        Refused(normalize, entries, n + 1);
        return None;
      }
      byKey, seen := joined.value, seen + {e.id};
    }
    assert entries[..|entries|] == entries;
    index := Some(byKey);
  }

  lemma NothingLoaded(normalize: Normalizer)
    ensures Acceptable(normalize, []) && Indexes(normalize, [], map[])
  {
  }

  lemma Refused(normalize: Normalizer, entries: seq<RawEntry>, n: nat)
    requires n <= |entries| && !Acceptable(normalize, entries[..n])
    ensures !Acceptable(normalize, entries)
  {
    hide Acceptable;
    if Acceptable(normalize, entries) {
      AcceptablePrefix(normalize, entries, n);
    }
  }

  // ---------- Using the index ----------

  /** Looking a text up is scanning the entries for its normalized form. */
  function Lookup(normalize: Normalizer, index: map<string, Entry>, text: string): Option<Entry> {
    Find(index, normalize(text))
  }

  function CanonicalIds(index: map<string, Entry>): set<string> {
    set k | k in index :: index[k].id
  }

  lemma {:induction false} ScanPublishes(normalize: Normalizer, entries: seq<RawEntry>, key: string)
    ensures Scan(normalize, entries, key).Some? ==>
      exists i :: 0 <= i < |entries| && key in Keys(normalize, entries[i]) && Scan(normalize, entries, key) == Some(Publish(entries[i]))
  {
    hide Keys;
    if entries != [] && key !in Keys(normalize, entries[0]) {
      ScanPublishes(normalize, entries[1..], key);
      if Scan(normalize, entries[1..], key).Some? {
        var i :| 0 <= i < |entries[1..]| && key in Keys(normalize, entries[1..][i])
          && Scan(normalize, entries[1..], key) == Some(Publish(entries[1..][i]));
        assert entries[i + 1] == entries[1..][i];
      }
    }
  }

  // Of acceptable entries, the one with a key is the one found for it.
  lemma TheEntryIsFound(normalize: Normalizer, entries: seq<RawEntry>, i: nat, key: string)
    requires Acceptable(normalize, entries) && i < |entries| && key in Keys(normalize, entries[i])
    ensures Scan(normalize, entries, key) == Some(Publish(entries[i]))
  {
    hide Keys, EntryFine;
    ScanFinds(normalize, entries, key);
    ScanPublishes(normalize, entries, key);
    var j :| 0 <= j < |entries| && key in Keys(normalize, entries[j]) && Scan(normalize, entries, key) == Some(Publish(entries[j]));
    assert j < i ==> Disjoint(normalize, entries[j], entries[i]);
    assert i < j ==> Disjoint(normalize, entries[i], entries[j]);
  }

  /** On a loaded index every entry is found under its id, each alias and its display name, and any
      other text is unknown, as scanning the entries for the normalized text would have it. */
  lemma LookupIsScan(normalize: Normalizer, entries: seq<RawEntry>, index: map<string, Entry>, i: nat, text: string)
    requires Acceptable(normalize, entries) && Indexes(normalize, entries, index) && i < |entries|
    ensures Lookup(normalize, index, text) == Scan(normalize, entries, normalize(text))
    ensures normalize(text) in Keys(normalize, entries[i]) <==> Lookup(normalize, index, text) == Some(Publish(entries[i]))
    ensures Lookup(normalize, index, entries[i].displayName) == Some(Publish(entries[i]))
  {
    hide Keys, Disjoint;
    var key := normalize(text);
    if key in Keys(normalize, entries[i]) {
      TheEntryIsFound(normalize, entries, i, key);
    }
    ScanPublishes(normalize, entries, key);
    IdsAreDistinct(normalize, entries);
    TheEntryIsFound(normalize, entries, i, normalize(entries[i].displayName));
  }

  lemma IdsAreDistinct(normalize: Normalizer, entries: seq<RawEntry>)
    requires Acceptable(normalize, entries)
    ensures forall i, j :: 0 <= i < j < |entries| ==> entries[i].id != entries[j].id
  {
    hide EntryFine, Keys;
    forall i, j | 0 <= i < j < |entries|
      ensures entries[i].id != entries[j].id
    {
      assert Disjoint(normalize, entries[i], entries[j]);
    }
  }

  /** The canonical ids of a loaded index are exactly the declared ones. */
  lemma CanonicalIdsAreDeclared(normalize: Normalizer, entries: seq<RawEntry>, index: map<string, Entry>)
    requires Acceptable(normalize, entries) && Indexes(normalize, entries, index)
    ensures CanonicalIds(index) == set j | 0 <= j < |entries| :: entries[j].id
  {
    hide Keys, Disjoint, Scan;
    forall id | id in CanonicalIds(index)
      ensures exists j :: 0 <= j < |entries| && entries[j].id == id
    {
      var k :| k in index && index[k].id == id;
      assert Find(index, k) == Scan(normalize, entries, k);
      ScanPublishes(normalize, entries, k);
    }
    forall j | 0 <= j < |entries|
      ensures entries[j].id in CanonicalIds(index)
    {
      var k := normalize(entries[j].displayName);
      assert EntryFine(normalize, entries[j]);
      TheEntryIsFound(normalize, entries, j, k);
      assert Find(index, k) == Scan(normalize, entries, k);
    }
  }
}
