/**
 * The legacy bridge: a provider that turns the flat, multi-valued legacy
 * configuration into a configuration tree. Each call of `Provide` strips
 * the known prefixes from every key, joins the key's values with commas,
 * stores the result at the key's path and then runs the fixed key
 * conversion (the subtree at `jpa.unit` is moved to `jpa.units`).
 */
module LegacyConfig {
  import opened Wrappers
  import opened Strings
  import opened Tree

  const SEEDSTACK_PREFIX: string := "org.seedstack."
  const SEED_PREFIX: string := SEEDSTACK_PREFIX + "seed."
  /** The one conversion of the table: legacy list key and the key of its items. */
  const JPA_UNITS_KEY: string := SEEDSTACK_PREFIX + "jpa.units"
  const JPA_UNIT_KEY: string := SEEDSTACK_PREFIX + "jpa.unit"
  const JPA_UNITS_PATH: Path := ["jpa", "units"]
  const JPA_UNIT_PATH: Path := ["jpa", "unit"]

  /** One key of the flat legacy configuration with the values `getStringArray` returns for it (after interpolation). */
  datatype Entry = Entry(key: string, values: seq<string>)

  /** A flat configuration never lists a key twice. */
  predicate DistinctKeys(entries: seq<Entry>)
  {
    forall i, j :: 0 <= i < j < |entries| ==> entries[i].key != entries[j].key
  }

  function StripPrefix(key: string, prefix: string): string
  {
    if IsPrefix(prefix, key) then key[|prefix|..] else key
  }

  /** `key` after trying each prefix in turn, each one at most once. */
  function StripAll(key: string, prefixes: seq<string>): string
    decreases |prefixes|
  {
    if prefixes == [] then key else StripAll(StripPrefix(key, prefixes[0]), prefixes[1..])
  }

  /** Stripping only ever removes a head: the result is a suffix of the key. */
  lemma {:induction false} StripAllSuffix(key: string, prefixes: seq<string>)
    ensures var r := StripAll(key, prefixes); |r| <= |key| && key[|key| - |r|..] == r
    decreases |prefixes|
  {
    if prefixes != [] {
      var once := StripPrefix(key, prefixes[0]);
      StripAllSuffix(once, prefixes[1..]);
      var r := StripAll(key, prefixes);
      assert key[|key| - |once|..] == once;
      assert once[|once| - |r|..] == r;
      assert key[|key| - |r|..] == key[|key| - |once|..][|once| - |r|..];
    }
  }

  /** The tree path of a (stripped) key: its segments between dots. */
  function KeyPath(key: string): Path
  {
    SplitAll(key, '.')
  }

  /** The values `getStringArray` returns for a key (after interpolation) as one value node; a single value is kept as is. */
  function GetValue(values: seq<string>): (r: TreeNode)
    ensures r.ValueNode?
    ensures |values| == 1 ==> r.value == values[0]
  {
    ValueNode(Join(values, ','))
  }

  /** Comma-free values are recovered by splitting the joined value at its commas. */
  lemma GetValueRoundTrip(values: seq<string>)
    requires |values| >= 1
    requires forall i :: 0 <= i < |values| ==> ',' !in values[i]
    ensures SplitAll(GetValue(values).value, ',') == values
  {
    SplitJoin(values, ',');
  }

  /** The tree after storing every entry, in order, at its stripped path. */
  function Load(entries: seq<Entry>, prefixes: seq<string>): TreeNode
    decreases |entries|
  {
    if entries == [] then EmptyMap
    else
      var last := entries[|entries| - 1];
      Set(Load(entries[..|entries| - 1], prefixes), KeyPath(StripAll(last.key, prefixes)), GetValue(last.values))
  }

  /** Moves the node at `itemPath` to `listPath`, dropping what was at both. */
  function Converted(t: TreeNode, listPath: Path, itemPath: Path): TreeNode
  {
    var item := Get(t, itemPath);
    var cleared := Remove(Remove(t, listPath), itemPath);
    if item.Some? then Set(cleared, listPath, item.value) else cleared
  }

  /** One step of the conversion pass, for the raw key `key`. */
  function ConversionStep(t: TreeNode, key: string, prefixes: seq<string>, conversions: map<string, string>): TreeNode
  {
    if key in conversions then
      Converted(t, KeyPath(StripAll(key, prefixes)), KeyPath(StripAll(conversions[key], prefixes)))
    else t
  }

  /** The conversion pass over the raw keys, in order. */
  function PostProcessed(t: TreeNode, entries: seq<Entry>, prefixes: seq<string>, conversions: map<string, string>): TreeNode
    decreases |entries|
  {
    if entries == [] then t
    else
      ConversionStep(PostProcessed(t, entries[..|entries| - 1], prefixes, conversions),
                     entries[|entries| - 1].key, prefixes, conversions)
  }

  /** What one call of `Provide` returns. */
  function Provided(entries: seq<Entry>, prefixes: seq<string>, conversions: map<string, string>): TreeNode
  {
    PostProcessed(Load(entries, prefixes), entries, prefixes, conversions)
  }

  class LegacyConfigurationProvider {
    const configuration: seq<Entry>
    const prefixesToStrip: seq<string>
    const conversions: map<string, string>

    constructor (configuration: seq<Entry>)
      ensures this.configuration == configuration
      ensures prefixesToStrip == [SEED_PREFIX, SEEDSTACK_PREFIX]
      ensures conversions == map[JPA_UNITS_KEY := JPA_UNIT_KEY]
    {
      this.configuration := configuration;
      prefixesToStrip := [SEED_PREFIX, SEEDSTACK_PREFIX];
      conversions := map[JPA_UNITS_KEY := JPA_UNIT_KEY];
    }

    method StripPrefixes(key: string) returns (r: string)
      ensures r == StripAll(key, prefixesToStrip)
    {
      r := key;
      var i := 0;
      while i < |prefixesToStrip|
        invariant 0 <= i <= |prefixesToStrip|
        invariant StripAll(key, prefixesToStrip) == StripAll(r, prefixesToStrip[i..])
      {
        var prefix := prefixesToStrip[i];
        assert prefixesToStrip[i..][1..] == prefixesToStrip[i + 1..];
        if IsPrefix(prefix, r) {
          r := r[|prefix|..];
        }
        i := i + 1;
      }
    }

    method Provide() returns (tree: MutableMapNode)
      ensures fresh(tree)
      ensures tree.root == Provided(configuration, prefixesToStrip, conversions)
    {
      tree := new MutableMapNode();
      var i := 0;
      while i < |configuration|
        invariant 0 <= i <= |configuration|
        invariant tree.root == Load(configuration[..i], prefixesToStrip)
      {
        var entry := configuration[i];
        var key := StripPrefixes(entry.key);
        assert configuration[..i + 1][..i] == configuration[..i];
        tree.SetAt(KeyPath(key), GetValue(entry.values));
        i := i + 1;
      }
      assert configuration[..|configuration|] == configuration;
      PostProcess(tree);
    }

    method PostProcess(tree: MutableMapNode)
      modifies tree
      ensures tree.root == PostProcessed(old(tree.root), configuration, prefixesToStrip, conversions)
    {
      var i := 0;
      while i < |configuration|
        invariant 0 <= i <= |configuration|
        invariant tree.root == PostProcessed(old(tree.root), configuration[..i], prefixesToStrip, conversions)
      {
        var key := configuration[i].key;
        assert configuration[..i + 1][..i] == configuration[..i];
        if key in conversions {
          var listKey := StripPrefixes(key);
          var itemKey := StripPrefixes(conversions[key]);
          Convert(tree, listKey, itemKey);
        }
        i := i + 1;
      }
      assert configuration[..|configuration|] == configuration;
    }

    method Convert(tree: MutableMapNode, listKey: string, itemKey: string)
      modifies tree
      ensures tree.root == Converted(old(tree.root), KeyPath(listKey), KeyPath(itemKey))
    {
      var itemNode := tree.GetAt(KeyPath(itemKey));
      tree.RemoveAt(KeyPath(listKey));
      tree.RemoveAt(KeyPath(itemKey));
      if itemNode.Some? {
        tree.SetAt(KeyPath(listKey), itemNode.value);
      }
    }

    /** Two calls on the same provider give equal trees, each freshly built. */
    method ProvideTwice() returns (first: MutableMapNode, second: MutableMapNode)
      ensures fresh(first) && fresh(second) && first != second
      ensures first.root == second.root
    {
      first := Provide();
      second := Provide();
    }
  }

  /** The prefix list the provider is built with. */
  const PREFIXES: seq<string> := [SEED_PREFIX, SEEDSTACK_PREFIX]

  /** A key without the `org.seedstack.` prefix is left unchanged. */
  lemma StripUnprefixed(key: string)
    requires !IsPrefix(SEEDSTACK_PREFIX, key)
    ensures StripAll(key, PREFIXES) == key
  {
    StripAllTables(key);
  }

  /** The two steps of stripping with the constructor's prefix list. */
  lemma StripAllTables(key: string)
    ensures StripAll(key, PREFIXES) == StripPrefix(StripPrefix(key, SEED_PREFIX), SEEDSTACK_PREFIX)
  {
    var once := StripPrefix(key, SEED_PREFIX);
    assert PREFIXES[0] == SEED_PREFIX && PREFIXES[1..] == [SEEDSTACK_PREFIX];
    assert StripAll(key, PREFIXES) == StripAll(once, [SEEDSTACK_PREFIX]);
    assert [SEEDSTACK_PREFIX][1..] == [];
    assert StripAll(once, [SEEDSTACK_PREFIX]) == StripAll(StripPrefix(once, SEEDSTACK_PREFIX), []);
  }

  /** `org.seedstack.seed.` is removed first, then `org.seedstack.` is still tried on the rest. */
  lemma StripSeedKey(rest: string)
    ensures StripAll(SEED_PREFIX + rest, PREFIXES) == StripPrefix(rest, SEEDSTACK_PREFIX)
  {
    var key := SEED_PREFIX + rest;
    assert key[..|SEED_PREFIX|] == SEED_PREFIX;
    assert key[|SEED_PREFIX|..] == rest;
    StripAllTables(key);
  }

  /** A key under `org.seedstack.` but not `org.seedstack.seed.` loses exactly that prefix. */
  lemma StripSeedstackKey(rest: string)
    requires !IsPrefix("seed.", rest)
    ensures StripAll(SEEDSTACK_PREFIX + rest, PREFIXES) == rest
  {
    var key := SEEDSTACK_PREFIX + rest;
    assert key[..|SEEDSTACK_PREFIX|] == SEEDSTACK_PREFIX;
    assert key[|SEEDSTACK_PREFIX|..] == rest;
    StripAllTables(key);
  }

  /** The path of a key made of separator-free segments joined with dots is those segments. */
  lemma KeyPathOfJoin(segments: Path)
    requires |segments| >= 1
    requires forall i :: 0 <= i < |segments| ==> '.' !in segments[i]
    ensures KeyPath(Join(segments, '.')) == segments
  {
    SplitJoin(segments, '.');
  }

  /** The list key of the conversion table strips to `jpa.units`. */
  lemma StripJpaUnitsKey()
    ensures StripAll(JPA_UNITS_KEY, PREFIXES) == "jpa.units"
  {
    assert !IsPrefix("seed.", "jpa.units") by {
      assert "jpa.units"[0] != "seed."[0];
    }
    StripSeedstackKey("jpa.units");
  }

  /** The item key of the conversion table strips to `jpa.unit`. */
  lemma StripJpaUnitKey()
    ensures StripAll(JPA_UNIT_KEY, PREFIXES) == "jpa.unit"
  {
    assert !IsPrefix("seed.", "jpa.unit") by {
      assert "jpa.unit"[0] != "seed."[0];
    }
    StripSeedstackKey("jpa.unit");
  }

  /** Two segments join with one dot between them. */
  lemma JoinTwoSegments(a: string, b: string)
    ensures Join([a, b], '.') == a + "." + b
  {
    assert [a, b][1..] == [b];
  }

  /** The conversion table's keys strip to `jpa.units` and `jpa.unit`. */
  lemma JpaPaths()
    ensures KeyPath(StripAll(JPA_UNITS_KEY, PREFIXES)) == JPA_UNITS_PATH
    ensures KeyPath(StripAll(JPA_UNIT_KEY, PREFIXES)) == JPA_UNIT_PATH
  {
    StripJpaUnitsKey();
    StripJpaUnitKey();
    JoinTwoSegments("jpa", "units");
    JoinTwoSegments("jpa", "unit");
    assert "jpa" + "." + "units" == "jpa.units";
    assert "jpa" + "." + "unit" == "jpa.unit";
    KeyPathOfJoin(JPA_UNITS_PATH);
    KeyPathOfJoin(JPA_UNIT_PATH);
  }

  /**
   * An entry is found at its stripped path after loading, unless a later
   * entry's path lies on it (a later entry with the same path wins).
   */
  lemma {:induction false} LoadKeepsEntry(entries: seq<Entry>, prefixes: seq<string>, i: nat)
    requires i < |entries|
    requires forall j :: i < j < |entries| ==>
      Independent(KeyPath(StripAll(entries[i].key, prefixes)), KeyPath(StripAll(entries[j].key, prefixes)))
    ensures Get(Load(entries, prefixes), KeyPath(StripAll(entries[i].key, prefixes))) == Some(GetValue(entries[i].values))
    decreases |entries|
  {
    var n := |entries|;
    var init := entries[..n - 1];
    var p := KeyPath(StripAll(entries[i].key, prefixes));
    var last := KeyPath(StripAll(entries[n - 1].key, prefixes));
    var before := Load(init, prefixes);
    assert Load(entries, prefixes) == Set(before, last, GetValue(entries[n - 1].values));
    if i == n - 1 {
      GetSet(before, p, GetValue(entries[i].values));
    } else {
      assert init[i] == entries[i];
      forall j | i < j < |init|
        ensures Independent(p, KeyPath(StripAll(init[j].key, prefixes)))
      {
        assert init[j] == entries[j];
      }
      LoadKeepsEntry(init, prefixes, i);
      GetSetOther(before, last, GetValue(entries[n - 1].values), p);
    }
  }

  /** A path independent of every entry's path is absent from the loaded tree. */
  lemma {:induction false} LoadUntouched(entries: seq<Entry>, prefixes: seq<string>, q: Path)
    requires q != []
    requires forall j :: 0 <= j < |entries| ==> Independent(KeyPath(StripAll(entries[j].key, prefixes)), q)
    ensures Get(Load(entries, prefixes), q) == None
    decreases |entries|
  {
    var n := |entries|;
    if n > 0 {
      var init := entries[..n - 1];
      assert forall j :: 0 <= j < |init| ==> init[j] == entries[j];
      LoadUntouched(init, prefixes, q);
      GetSetOther(Load(init, prefixes), KeyPath(StripAll(entries[n - 1].key, prefixes)), GetValue(entries[n - 1].values), q);
    }
  }

  /** The conversion moves the subtree, deletes the item path and touches nothing else. */
  lemma ConvertedMoves(t: TreeNode, listPath: Path, itemPath: Path)
    requires listPath != [] && itemPath != []
    requires Independent(listPath, itemPath)
    ensures forall r :: Get(Converted(t, listPath, itemPath), listPath + r) == Get(t, itemPath + r)
    ensures forall r :: Get(Converted(t, listPath, itemPath), itemPath + r) == None
    ensures forall q :: Independent(q, listPath) && Independent(q, itemPath) ==>
      Get(Converted(t, listPath, itemPath), q) == Get(t, q)
  {
    var item := Get(t, itemPath);
    var once := Remove(t, listPath);
    var cleared := Remove(once, itemPath);
    var result := Converted(t, listPath, itemPath);
    forall r ensures Get(result, listPath + r) == Get(t, itemPath + r) {
      GetAppend(t, itemPath, r);
      if item.Some? {
        GetSetBelow(cleared, listPath, item.value, r);
      } else {
        GetRemoveBelow(t, listPath, r);
        GetAppend(once, listPath, r);
        GetAppend(cleared, listPath, r);
        GetRemoveOther(once, itemPath, listPath);
      }
    }
    forall r ensures Get(result, itemPath + r) == None {
      GetRemoveBelow(once, itemPath, r);
      if item.Some? {
        GetAppend(cleared, itemPath, r);
        GetAppend(result, itemPath, r);
        GetSetOther(cleared, listPath, item.value, itemPath);
        GetRemove(once, itemPath);
      }
    }
    forall q | Independent(q, listPath) && Independent(q, itemPath)
      ensures Get(result, q) == Get(t, q)
    {
      GetRemoveOther(t, listPath, q);
      GetRemoveOther(once, itemPath, q);
      if item.Some? {
        GetSetOther(cleared, listPath, item.value, q);
      }
    }
  }

  /** Without a key of the conversion table, the conversion pass changes nothing. */
  lemma {:induction false} PostProcessedNoCandidate(t: TreeNode, entries: seq<Entry>, prefixes: seq<string>, conversions: map<string, string>)
    requires forall i :: 0 <= i < |entries| ==> entries[i].key !in conversions
    ensures PostProcessed(t, entries, prefixes, conversions) == t
    decreases |entries|
  {
    if entries != [] {
      var init := entries[..|entries| - 1];
      assert forall i :: 0 <= i < |init| ==> init[i] == entries[i];
      PostProcessedNoCandidate(t, init, prefixes, conversions);
    }
  }

  /** With the single conversion of the table present once, the pass converts exactly once. */
  lemma {:induction false} PostProcessedOneCandidate(t: TreeNode, entries: seq<Entry>, prefixes: seq<string>, k: nat)
    requires DistinctKeys(entries)
    requires k < |entries| && entries[k].key == JPA_UNITS_KEY
    ensures PostProcessed(t, entries, prefixes, map[JPA_UNITS_KEY := JPA_UNIT_KEY]) ==
      Converted(t, KeyPath(StripAll(JPA_UNITS_KEY, prefixes)), KeyPath(StripAll(JPA_UNIT_KEY, prefixes)))
    decreases |entries|
  {
    var conversions := map[JPA_UNITS_KEY := JPA_UNIT_KEY];
    var n := |entries|;
    var init := entries[..n - 1];
    if k == n - 1 {
      assert forall i :: 0 <= i < |init| ==> init[i] == entries[i] && init[i].key !in conversions;
      PostProcessedNoCandidate(t, init, prefixes, conversions);
    } else {
      assert init[k] == entries[k];
      assert DistinctKeys(init);
      PostProcessedOneCandidate(t, init, prefixes, k);
    }
  }

  /**
   * What the provider built by the constructor returns: the loaded tree,
   * converted when the raw key `org.seedstack.jpa.units` is among the keys.
   */
  lemma ProvidedByConstructorTables(entries: seq<Entry>)
    requires DistinctKeys(entries)
    ensures (exists k :: 0 <= k < |entries| && entries[k].key == JPA_UNITS_KEY) ==>
      Provided(entries, PREFIXES, map[JPA_UNITS_KEY := JPA_UNIT_KEY]) ==
        Converted(Load(entries, PREFIXES), JPA_UNITS_PATH, JPA_UNIT_PATH)
    ensures (forall k :: 0 <= k < |entries| ==> entries[k].key != JPA_UNITS_KEY) ==>
      Provided(entries, PREFIXES, map[JPA_UNITS_KEY := JPA_UNIT_KEY]) == Load(entries, PREFIXES)
  {
    var conversions := map[JPA_UNITS_KEY := JPA_UNIT_KEY];
    JpaPaths();
    if k :| 0 <= k < |entries| && entries[k].key == JPA_UNITS_KEY {
      PostProcessedOneCandidate(Load(entries, PREFIXES), entries, PREFIXES, k);
    } else {
      PostProcessedNoCandidate(Load(entries, PREFIXES), entries, PREFIXES, conversions);
    }
  }

  /**
   * The legacy list key alone: `org.seedstack.jpa.units = X` leaves neither
   * `jpa.units` nor `jpa.unit` in the tree, since the conversion moves the
   * (missing) `jpa.unit` node over it.
   */
  lemma UnitsAloneIsDropped()
    ensures var t := Provided([Entry(JPA_UNITS_KEY, ["X"])], PREFIXES, map[JPA_UNITS_KEY := JPA_UNIT_KEY]);
      Get(t, JPA_UNITS_PATH) == None && Get(t, JPA_UNIT_PATH) == None
  {
    var entries := [Entry(JPA_UNITS_KEY, ["X"])];
    ProvidedByConstructorTables(entries);
    var loaded := Load(entries, PREFIXES);
    JpaPaths();
    assert loaded == Set(EmptyMap, JPA_UNITS_PATH, ValueNode("X"));
    assert Get(loaded, JPA_UNIT_PATH) == None;
    ConvertedMoves(loaded, JPA_UNITS_PATH, JPA_UNIT_PATH);
    assert JPA_UNITS_PATH + [] == JPA_UNITS_PATH && JPA_UNIT_PATH + [] == JPA_UNIT_PATH;
  }

  /** Stripping a prefix no longer than the key commutes with appending to the key. */
  lemma StripPrefixAppend(key: string, tail: string, prefix: string)
    requires |prefix| <= |key|
    ensures StripPrefix(key + tail, prefix) == StripPrefix(key, prefix) + tail
  {
    assert (key + tail)[..|prefix|] == key[..|prefix|];
    if IsPrefix(prefix, key) {
      assert (key + tail)[|prefix|..] == key[|prefix|..] + tail;
    }
  }

  /** Appending `.<segment>` to a key appends one segment to its path. */
  lemma KeyPathChild(key: string, segment: string)
    requires '.' !in segment
    ensures KeyPath(key + "." + segment) == KeyPath(key) + [segment]
  {
    var parts := KeyPath(key) + [segment];
    JoinSplit(key, '.');
    JoinAppend(KeyPath(key), [segment], '.');
    assert Join([segment], '.') == segment;
    assert Join(parts, '.') == key + "." + segment;
    assert forall i :: 0 <= i < |parts| ==> '.' !in parts[i];
    SplitJoin(parts, '.');
  }

  /**
   * A child of a key that is at least as long as `org.seedstack.seed.` and not
   * below it is stripped like its parent.
   */
  lemma StripChild(key: string, tail: string)
    requires |SEED_PREFIX| <= |key| && !IsPrefix(SEED_PREFIX, key)
    ensures StripAll(key + tail, PREFIXES) == StripAll(key, PREFIXES) + tail
  {
    StripPrefixAppend(key, tail, SEED_PREFIX);
    StripPrefixAppend(key, tail, SEEDSTACK_PREFIX);
    StripAllTables(key);
    StripAllTables(key + tail);
  }

  /** A dotted child of such a key lands one segment below the key's path. */
  lemma ChildKeyPath(key: string, segment: string)
    requires |SEED_PREFIX| <= |key| && !IsPrefix(SEED_PREFIX, key)
    requires '.' !in segment
    ensures KeyPath(StripAll(key + "." + segment, PREFIXES)) == KeyPath(StripAll(key, PREFIXES)) + [segment]
  {
    var tail := "." + segment;
    var r := StripAll(key, PREFIXES);
    assert key + "." + segment == key + tail;
    assert r + "." + segment == r + tail;
    StripChild(key, tail);
    KeyPathChild(r, segment);
  }

  /** `org.seedstack.jpa.unit` is not below `org.seedstack.seed.`. */
  lemma UnitKeyNotSeed()
    ensures |SEED_PREFIX| <= |JPA_UNIT_KEY| && !IsPrefix(SEED_PREFIX, JPA_UNIT_KEY)
  {
    assert JPA_UNIT_KEY[14] == 'j' && SEED_PREFIX[14] == 's';
  }

  /** A unit key below `org.seedstack.jpa.unit` has the path `jpa.unit.<unit>`. */
  lemma UnitKeyPath(unit: string)
    requires unit != "" && '.' !in unit
    ensures KeyPath(StripAll(JPA_UNIT_KEY + "." + unit, PREFIXES)) == JPA_UNIT_PATH + [unit]
  {
    UnitKeyNotSeed();
    ChildKeyPath(JPA_UNIT_KEY, unit);
    JpaPaths();
  }

  /** With unit definitions present, they end up under `jpa.units`. */
  lemma UnitsMovedUnderList(unit: string, value: string)
    requires unit != "" && '.' !in unit
    ensures var t := Provided([Entry(JPA_UNITS_KEY, ["X"]), Entry(JPA_UNIT_KEY + "." + unit, [value])],
                              PREFIXES, map[JPA_UNITS_KEY := JPA_UNIT_KEY]);
      && Get(t, JPA_UNITS_PATH + [unit]) == Some(ValueNode(value))
      && Get(t, JPA_UNIT_PATH) == None
  {
    var entries := [Entry(JPA_UNITS_KEY, ["X"]), Entry(JPA_UNIT_KEY + "." + unit, [value])];
    assert |entries[1].key| > |JPA_UNITS_KEY|;
    assert DistinctKeys(entries);
    assert entries[0].key == JPA_UNITS_KEY;
    ProvidedByConstructorTables(entries);
    var loaded := Load(entries, PREFIXES);
    UnitKeyPath(unit);
    LoadKeepsEntry(entries, PREFIXES, 1);
    assert Get(loaded, JPA_UNIT_PATH + [unit]) == Some(ValueNode(value));
    ConvertedMoves(loaded, JPA_UNITS_PATH, JPA_UNIT_PATH);
    assert JPA_UNIT_PATH + [] == JPA_UNIT_PATH;
  }
}
