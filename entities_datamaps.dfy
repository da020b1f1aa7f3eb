/**
 * Field-offset reflection over the engine's datamaps: a class's field
 * descriptors are flattened into a `name -> absolute offset` map, embedded
 * sub-structures contributing dotted names, and offset lookup walks the
 * base-class chain through a per-class cache that is built at most once.
 *
 * Datamaps are values of an inductive datatype, so base chains and
 * embedding are finite and acyclic.
 */
module DataMaps {
  import opened Wrappers

  /** A `typedescription_t`, reduced to what this core reads. */
  datatype TypeDescription = TypeDescription(
    fieldName: Option<string>,     // `fieldName`, possibly null
    externalName: Option<string>,  // `externalName`, possibly null
    kind: FieldKind,
    offset: int)                   // `TypeDescriptionExt::get_offset`

  /**
   * `FIELD_EMBEDDED` with its nested datamap `td`, or any other field type.
   * `Plain` stands for every `fieldType` other than `FIELD_EMBEDDED`: its
   * `fieldType` never holds that value, since such a field is `Embedded`.
   */
  datatype FieldKind = Embedded(td: DataMap) | Plain(fieldType: int)

  /** A `datamap_t`: class name, field descriptors in order, and the base class's datamap. */
  datatype DataMap = DataMap(
    className: string, dataDesc: seq<TypeDescription>, baseMap: Option<DataMap>)

  type OffsetsMap = map<string, int>

  /** One `(name, offset)` pair that flattening offers to `insert`. */
  datatype Entry = Entry(name: string, offset: int)

  datatype Error = InvalidIndex  // IndexError "Invalid index."

  // ---------------------------------------------------------------------------
  // Flattening: AddDataDesc / AddDataMap
  // ---------------------------------------------------------------------------

  /** The key of a field: its bare name at top level, `"<base>.<name>"` below an embedded field. */
  function CurrentName(d: TypeDescription, baseName: Option<string>): string
    requires d.fieldName.Some?
  {
    match baseName
    case None => d.fieldName.value
    case Some(b) => b + "." + d.fieldName.value
  }

  /** The pairs `AddDataDesc` inserts, in order. */
  function DescEntries(d: TypeDescription, offset: int, baseName: Option<string>): seq<Entry>
    decreases d, 0
  {
    if d.fieldName.None? then []
    else
      var currentOffset := offset + d.offset;
      var currentName := CurrentName(d, baseName);
      match d.kind
      case Embedded(td) => MapEntries(td, currentOffset, Some(currentName))
      case Plain(_) => [Entry(currentName, currentOffset)]
  }

  /** The pairs the first `k` descriptors of `dm` insert, in order. */
  function FieldsEntries(dm: DataMap, k: nat, offset: int, baseName: Option<string>): seq<Entry>
    requires k <= |dm.dataDesc|
    decreases dm, 0, k
  {
    if k == 0 then []
    else FieldsEntries(dm, k - 1, offset, baseName) + DescEntries(dm.dataDesc[k - 1], offset, baseName)
  }

  /** The pairs `AddDataMap` inserts, in order. */
  function MapEntries(dm: DataMap, offset: int, baseName: Option<string>): seq<Entry>
    decreases dm, 1
  {
    FieldsEntries(dm, |dm.dataDesc|, offset, baseName)
  }

  /** `offsets.insert(pair)`: an existing key keeps its value. */
  function Insert(m: OffsetsMap, e: Entry): OffsetsMap {
    if e.name in m then m else m[e.name := e.offset]
  }

  function InsertAll(m: OffsetsMap, es: seq<Entry>): OffsetsMap
    decreases |es|
  {
    if es == [] then m else InsertAll(Insert(m, es[0]), es[1..])
  }

  /** The index of the first pair named `k`, or `|es|` when there is none. */
  function FirstWith(es: seq<Entry>, k: string): (i: nat)
    ensures i <= |es|
    ensures forall j :: 0 <= j < i ==> es[j].name != k
    ensures i < |es| ==> es[i].name == k
  {
    if es == [] then 0
    else if es[0].name == k then 0
    else 1 + FirstWith(es[1..], k)
  }

  /** The flattened map of one class, as `find_offset` builds it for the cache. */
  function Flatten(dm: DataMap): OffsetsMap {
    InsertAll(map[], MapEntries(dm, 0, None))
  }

  lemma {:induction false} InsertAllAppend(m: OffsetsMap, a: seq<Entry>, b: seq<Entry>)
    ensures InsertAll(m, a + b) == InsertAll(InsertAll(m, a), b)
    decreases |a|
  {
    if a == [] {
      assert a + b == b;
    } else {
      assert (a + b)[0] == a[0];
      assert (a + b)[1..] == a[1..] + b;
      InsertAllAppend(Insert(m, a[0]), a[1..], b);
    }
  }

  /**
   * Inserting a run of pairs never overwrites: a key already present keeps
   * its value, and a new key takes the offset of the first pair naming it.
   */
  lemma {:induction false} InsertAllFirstWins(m: OffsetsMap, es: seq<Entry>, k: string)
    ensures k in m ==> k in InsertAll(m, es) && InsertAll(m, es)[k] == m[k]
    ensures k !in m ==> (k in InsertAll(m, es) <==> FirstWith(es, k) < |es|)
    ensures k !in m && FirstWith(es, k) < |es| ==> InsertAll(m, es)[k] == es[FirstWith(es, k)].offset
    decreases |es|
  {
    if es != [] {
      InsertAllFirstWins(Insert(m, es[0]), es[1..], k);
      if k !in m && es[0].name != k {
        assert FirstWith(es, k) == 1 + FirstWith(es[1..], k);
      }
    }
  }

  // ---------------------------------------------------------------------------
  // What flattening means: leaf paths
  // ---------------------------------------------------------------------------

  /**
   * A sequence of field indices that starts at a named field of `dm`, goes
   * down through named embedded fields, and ends at a named non-embedded field.
   */
  ghost predicate IsLeafPath(dm: DataMap, path: seq<nat>)
    decreases dm
  {
    && |path| > 0
    && path[0] < |dm.dataDesc|
    && dm.dataDesc[path[0]].fieldName.Some?
    && match dm.dataDesc[path[0]].kind
       case Embedded(td) => IsLeafPath(td, path[1..])
       case Plain(_) => |path| == 1
  }

  /** The field names along a leaf path, joined with dots. */
  ghost function PathName(dm: DataMap, path: seq<nat>): string
    requires IsLeafPath(dm, path)
    decreases dm
  {
    var d := dm.dataDesc[path[0]];
    match d.kind
    case Embedded(td) => d.fieldName.value + "." + PathName(td, path[1..])
    case Plain(_) => d.fieldName.value
  }

  /** The sum of the relative offsets along a leaf path. */
  ghost function PathOffset(dm: DataMap, path: seq<nat>): int
    requires IsLeafPath(dm, path)
    decreases dm
  {
    var d := dm.dataDesc[path[0]];
    match d.kind
    case Embedded(td) => d.offset + PathOffset(td, path[1..])
    case Plain(_) => d.offset
  }

  function Prefixed(baseName: Option<string>, name: string): string {
    match baseName
    case None => name
    case Some(b) => b + "." + name
  }

  lemma {:induction false} FieldsEntriesMembership(dm: DataMap, k: nat, offset: int,
                                                   baseName: Option<string>, e: Entry)
    requires k <= |dm.dataDesc|
    ensures e in FieldsEntries(dm, k, offset, baseName) <==>
              exists j :: 0 <= j < k && e in DescEntries(dm.dataDesc[j], offset, baseName)
  {
    if k > 0 {
      FieldsEntriesMembership(dm, k - 1, offset, baseName, e);
    }
  }

  /** The pair a leaf path yields under `offset` and `baseName`. */
  ghost function LeafEntry(dm: DataMap, path: seq<nat>, offset: int, baseName: Option<string>): Entry
    requires IsLeafPath(dm, path)
  {
    Entry(Prefixed(baseName, PathName(dm, path)), offset + PathOffset(dm, path))
  }

  /** A leaf path through the embedded field `j` yields what its remainder yields inside `td`. */
  lemma LeafEntryThroughEmbedded(dm: DataMap, j: nat, rest: seq<nat>, offset: int, baseName: Option<string>)
    requires j < |dm.dataDesc| && dm.dataDesc[j].fieldName.Some? && dm.dataDesc[j].kind.Embedded?
    requires IsLeafPath(dm.dataDesc[j].kind.td, rest)
    ensures IsLeafPath(dm, [j] + rest)
    ensures LeafEntry(dm, [j] + rest, offset, baseName) ==
              LeafEntry(dm.dataDesc[j].kind.td, rest, offset + dm.dataDesc[j].offset,
                        Some(CurrentName(dm.dataDesc[j], baseName)))
  {
    var d := dm.dataDesc[j];
    var path := [j] + rest;
    assert path[0] == j && path[1..] == rest;
    DottedNameAssociates(baseName, d.fieldName.value, PathName(d.kind.td, rest));
  }

  /** A named plain field `j` is a leaf path of its own and yields the one pair its descriptor inserts. */
  lemma LeafEntryOfPlain(dm: DataMap, j: nat, offset: int, baseName: Option<string>)
    requires j < |dm.dataDesc| && dm.dataDesc[j].fieldName.Some? && dm.dataDesc[j].kind.Plain?
    ensures IsLeafPath(dm, [j])
    ensures DescEntries(dm.dataDesc[j], offset, baseName) == [LeafEntry(dm, [j], offset, baseName)]
  {
    var path := [j];
    assert path[0] == j;
  }

  /** Every pair flattening produces comes from a leaf path. */
  lemma {:induction false} LeafPathOfEntry(dm: DataMap, offset: int, baseName: Option<string>, e: Entry)
    requires e in MapEntries(dm, offset, baseName)
    ensures exists path :: IsLeafPath(dm, path) && e == LeafEntry(dm, path, offset, baseName)
    decreases dm
  {
    FieldsEntriesMembership(dm, |dm.dataDesc|, offset, baseName, e);
    var j :| 0 <= j < |dm.dataDesc| && e in DescEntries(dm.dataDesc[j], offset, baseName);
    var d := dm.dataDesc[j];
    var cn := CurrentName(d, baseName);
    if d.kind.Plain? {
      LeafEntryOfPlain(dm, j, offset, baseName);
    } else {
      var td := d.kind.td;
      assert DescEntries(d, offset, baseName) == MapEntries(td, offset + d.offset, Some(cn));
      LeafPathOfEntry(td, offset + d.offset, Some(cn), e);
      var rest :| IsLeafPath(td, rest) && e == LeafEntry(td, rest, offset + d.offset, Some(cn));
      LeafEntryThroughEmbedded(dm, j, rest, offset, baseName);
      var path := [j] + rest;
      assert IsLeafPath(dm, path) && e == LeafEntry(dm, path, offset, baseName);
    }
  }

  /** Every leaf path yields a pair flattening produces. */
  lemma {:induction false} EntryOfLeafPath(dm: DataMap, path: seq<nat>, offset: int, baseName: Option<string>)
    requires IsLeafPath(dm, path)
    ensures LeafEntry(dm, path, offset, baseName) in MapEntries(dm, offset, baseName)
    decreases dm
  {
    var e := LeafEntry(dm, path, offset, baseName);
    var j := path[0];
    var d := dm.dataDesc[j];
    FieldsEntriesMembership(dm, |dm.dataDesc|, offset, baseName, e);
    match d.kind
    case Plain(_) =>
      assert DescEntries(d, offset, baseName) == [e];
    case Embedded(td) =>
      var rest := path[1..];
      assert path == [j] + rest;
      LeafEntryThroughEmbedded(dm, j, rest, offset, baseName);
      EntryOfLeafPath(td, rest, offset + d.offset, Some(CurrentName(d, baseName)));
      assert e in DescEntries(d, offset, baseName);
  }

  /**
   * Flattening under `offset` and `baseName` produces exactly one pair per
   * leaf path: named by the dotted path below `baseName`, at `offset` plus
   * the relative offsets along the path. So only non-embedded fields become
   * keys, and descriptors without a name contribute nothing.
   */
  lemma MapEntriesAreLeafPaths(dm: DataMap, offset: int, baseName: Option<string>, e: Entry)
    ensures e in MapEntries(dm, offset, baseName) <==>
              exists path :: IsLeafPath(dm, path) && e == LeafEntry(dm, path, offset, baseName)
  {
    if e in MapEntries(dm, offset, baseName) {
      LeafPathOfEntry(dm, offset, baseName, e);
    }
    if exists path :: IsLeafPath(dm, path) && e == LeafEntry(dm, path, offset, baseName) {
      var path :| IsLeafPath(dm, path) && e == LeafEntry(dm, path, offset, baseName);
      EntryOfLeafPath(dm, path, offset, baseName);
    }
  }

  /**
   * An embedded field is never a key itself: every key it contributes is
   * its own dotted name followed by `.`, so it is strictly longer.
   */
  lemma EmbeddedFieldKeysAreNested(d: TypeDescription, offset: int, baseName: Option<string>, e: Entry)
    requires d.fieldName.Some? && d.kind.Embedded?
    requires e in DescEntries(d, offset, baseName)
    ensures |e.name| > |CurrentName(d, baseName)|
    ensures e.name[..|CurrentName(d, baseName)| + 1] == CurrentName(d, baseName) + "."
  {
    var cn := CurrentName(d, baseName);
    LeafPathOfEntry(d.kind.td, offset + d.offset, Some(cn), e);
    var rest :| IsLeafPath(d.kind.td, rest) && e == LeafEntry(d.kind.td, rest, offset + d.offset, Some(cn));
    assert e.name == (cn + ".") + PathName(d.kind.td, rest);
  }

  /**
   * The keys of a class's flattened map are the dotted names of its leaf
   * paths, and each key holds the summed offset of one leaf path so named
   * (the first one inserted).
   */
  lemma FlattenMeaning(dm: DataMap, k: string)
    ensures k in Flatten(dm) <==> exists path :: IsLeafPath(dm, path) && PathName(dm, path) == k
    ensures k in Flatten(dm) ==>
              exists path :: IsLeafPath(dm, path) && PathName(dm, path) == k &&
                Flatten(dm)[k] == PathOffset(dm, path)
  {
    var es := MapEntries(dm, 0, None);
    InsertAllFirstWins(map[], es, k);
    if k in Flatten(dm) {
      var i := FirstWith(es, k);
      LeafPathOfEntry(dm, 0, None, es[i]);
      var path :| IsLeafPath(dm, path) && es[i] == LeafEntry(dm, path, 0, None);
      assert PathName(dm, path) == k && Flatten(dm)[k] == PathOffset(dm, path);
    }
    if exists path :: IsLeafPath(dm, path) && PathName(dm, path) == k {
      var path :| IsLeafPath(dm, path) && PathName(dm, path) == k;
      EntryOfLeafPath(dm, path, 0, None);
      var i :| 0 <= i < |es| && es[i] == LeafEntry(dm, path, 0, None);
      assert es[i].name == k;
    }
  }

  lemma DottedNameAssociates(baseName: Option<string>, field: string, rest: string)
    ensures Prefixed(Some(Prefixed(baseName, field)), rest) == Prefixed(baseName, field + "." + rest)
  {
    if baseName.Some? {
      var b := baseName.value;
      assert (b + "." + field) + "." + rest == b + "." + (field + "." + rest);
    }
  }

  // ---------------------------------------------------------------------------
  // The two flattening procedures as the source runs them
  // ---------------------------------------------------------------------------

  /**
   * `AddDataDesc`: skip an unnamed descriptor, expand an embedded one into
   * its nested datamap under the dotted name, insert any other one.
   */
  method AddDataDesc(d: TypeDescription, offsets: OffsetsMap, offset: int,
                     baseName: Option<string>) returns (result: OffsetsMap)
    ensures result == InsertAll(offsets, DescEntries(d, offset, baseName))
    ensures d.fieldName.None? ==> result == offsets
    ensures forall k :: k in offsets ==> k in result && result[k] == offsets[k]
    decreases d, 0
  {
    if d.fieldName.None? {
      return offsets;
    }
    var currentOffset := offset + d.offset;
    var currentName := CurrentName(d, baseName);
    match d.kind {
      case Embedded(td) =>
        result := AddDataMap(td, offsets, currentOffset, Some(currentName));
      case Plain(_) =>
        if currentName in offsets {
          result := offsets;
        } else {
          result := offsets[currentName := currentOffset];
        }
    }
    forall k | k in offsets ensures k in result && result[k] == offsets[k] {
      InsertAllFirstWins(offsets, DescEntries(d, offset, baseName), k);
    }
  }

  /** `AddDataMap`: add every descriptor of `dm`, in order. */
  method AddDataMap(dm: DataMap, offsets: OffsetsMap, offset: int,
                    baseName: Option<string>) returns (result: OffsetsMap)
    ensures result == InsertAll(offsets, MapEntries(dm, offset, baseName))
    ensures forall k :: k in offsets ==> k in result && result[k] == offsets[k]
    decreases dm, 1
  {
    result := offsets;
    for i := 0 to |dm.dataDesc|
      invariant result == InsertAll(offsets, FieldsEntries(dm, i, offset, baseName))
    {
      InsertAllAppend(offsets, FieldsEntries(dm, i, offset, baseName),
                      DescEntries(dm.dataDesc[i], offset, baseName));
      result := AddDataDesc(dm.dataDesc[i], result, offset, baseName);
    }
    forall k | k in offsets ensures k in result && result[k] == offsets[k] {
      InsertAllFirstWins(offsets, MapEntries(dm, offset, baseName), k);
    }
  }

  // ---------------------------------------------------------------------------
  // Worked example: an embedded structure
  // ---------------------------------------------------------------------------

  const FIELD_INTEGER: int := 5

  /** `Inner` has `x` at relative offset 4. */
  function InnerExample(): DataMap {
    DataMap("Inner", [TypeDescription(Some("x"), None, Plain(FIELD_INTEGER), 4)], None)
  }

  /** `Outer` embeds an `Inner` as `inner` at relative offset 8. */
  function OuterExample(): DataMap {
    DataMap("Outer", [TypeDescription(Some("inner"), None, Embedded(InnerExample()), 8)], None)
  }

  lemma EmbeddedOffsetExample()
    ensures Flatten(OuterExample()) == map["inner.x" := 12]
  {
    var x := InnerExample().dataDesc[0];
    assert CurrentName(x, Some("inner")) == "inner.x";
    assert DescEntries(x, 8, Some("inner")) == [Entry("inner.x", 12)];
    assert FieldsEntries(InnerExample(), 1, 8, Some("inner")) == [] + [Entry("inner.x", 12)];
    assert MapEntries(InnerExample(), 8, Some("inner")) == [Entry("inner.x", 12)];
    assert MapEntries(OuterExample(), 0, None) == [Entry("inner.x", 12)];
  }

  // ---------------------------------------------------------------------------
  // Indexed access: __getitem__
  // ---------------------------------------------------------------------------

  /** `__getitem__`: bounds-checked access to the class's own descriptors. */
  function GetItem(dm: DataMap, index: int): (r: Result<TypeDescription, Error>)
    ensures r.Err? <==> index < 0 || index >= |dm.dataDesc|
    ensures r.Ok? ==> 0 <= index < |dm.dataDesc| && r.value == dm.dataDesc[index]
  {
    if index < 0 || index > |dm.dataDesc| - 1 then Err(InvalidIndex)
    else Ok(dm.dataDesc[index])
  }

  // ---------------------------------------------------------------------------
  // Descriptor search: find
  // ---------------------------------------------------------------------------

  /** The descriptor is named `name`, by field name or by external name. */
  predicate NameMatches(d: TypeDescription, name: string) {
    (d.fieldName.Some? && d.fieldName.value == name) ||
    (d.externalName.Some? && d.externalName.value == name)
  }

  /** `find`: the class's own descriptors first, then its base classes. */
  function Find(dm: DataMap, name: string): Option<TypeDescription>
    decreases dm, 1
  {
    match FindInFields(dm, 0, name)
    case Some(d) => Some(d)
    case None =>
      match dm.baseMap
      case Some(b) => Find(b, name)
      case None => None
  }

  /**
   * The `for` loop of `find` from index `i`: a matching descriptor is
   * returned as it is (even when embedded); a non-matching embedded one is
   * searched, with its own base chain, before the next descriptor.
   */
  function FindInFields(dm: DataMap, i: nat, name: string): Option<TypeDescription>
    requires i <= |dm.dataDesc|
    decreases dm, 0, |dm.dataDesc| - i
  {
    if i == |dm.dataDesc| then None
    else
      var d := dm.dataDesc[i];
      if NameMatches(d, name) then Some(d)
      else
        match d.kind
        case Embedded(td) =>
          (match Find(td, name)
           case Some(r) => Some(r)
           case None => FindInFields(dm, i + 1, name))
        case Plain(_) => FindInFields(dm, i + 1, name)
  }

  /**
   * Reference order of the search: each descriptor, then (if embedded)
   * everything its nested datamap offers, then the next descriptor; the
   * base class after all of the class's own descriptors.
   */
  ghost function SearchOrder(dm: DataMap): seq<TypeDescription>
    decreases dm, 1
  {
    FieldsOrder(dm, 0) +
    match dm.baseMap
    case Some(b) => SearchOrder(b)
    case None => []
  }

  ghost function FieldsOrder(dm: DataMap, i: nat): seq<TypeDescription>
    requires i <= |dm.dataDesc|
    decreases dm, 0, |dm.dataDesc| - i
  {
    if i == |dm.dataDesc| then []
    else
      var d := dm.dataDesc[i];
      [d] +
      (match d.kind
       case Embedded(td) => SearchOrder(td)
       case Plain(_) => []) +
      FieldsOrder(dm, i + 1)
  }

  /** The first descriptor of `s` named `name`. */
  ghost function FirstMatch(s: seq<TypeDescription>, name: string): Option<TypeDescription> {
    if s == [] then None
    else if NameMatches(s[0], name) then Some(s[0])
    else FirstMatch(s[1..], name)
  }

  /** `FirstMatch` is the earliest matching element, and absent only when none matches. */
  lemma {:induction false} FirstMatchMeaning(s: seq<TypeDescription>, name: string)
    ensures FirstMatch(s, name).None? <==> forall k :: 0 <= k < |s| ==> !NameMatches(s[k], name)
    ensures FirstMatch(s, name).Some? ==>
              exists k :: 0 <= k < |s| && s[k] == FirstMatch(s, name).value && NameMatches(s[k], name) &&
                forall j :: 0 <= j < k ==> !NameMatches(s[j], name)
  {
    if s != [] && !NameMatches(s[0], name) {
      FirstMatchMeaning(s[1..], name);
      if FirstMatch(s, name).Some? {
        var k :| 0 <= k < |s[1..]| && s[1..][k] == FirstMatch(s[1..], name).value &&
                 NameMatches(s[1..][k], name) && forall j :: 0 <= j < k ==> !NameMatches(s[1..][j], name);
        assert s[k + 1] == s[1..][k];
        forall j | 0 <= j < k + 1 ensures !NameMatches(s[j], name) {
          if j > 0 { assert s[j] == s[1..][j - 1]; }
        }
      }
      forall k | 0 <= k < |s| - 1 ensures s[1..][k] == s[k + 1] { }
    } else if s != [] {
      assert 0 <= 0 < |s| && s[0] == FirstMatch(s, name).value && NameMatches(s[0], name);
    }
  }

  lemma {:induction false} FirstMatchAppend(a: seq<TypeDescription>, b: seq<TypeDescription>, name: string)
    ensures FirstMatch(a + b, name) == if FirstMatch(a, name).Some? then FirstMatch(a, name) else FirstMatch(b, name)
    decreases |a|
  {
    if a == [] {
      assert a + b == b;
    } else {
      assert (a + b)[0] == a[0];
      assert (a + b)[1..] == a[1..] + b;
      FirstMatchAppend(a[1..], b, name);
    }
  }

  /** `find` returns the first descriptor named `name` in the reference search order. */
  lemma {:induction false} FindIsFirstInSearchOrder(dm: DataMap, name: string)
    ensures Find(dm, name) == FirstMatch(SearchOrder(dm), name)
    decreases dm, 1
  {
    FindInFieldsIsFirst(dm, 0, name);
    var tail := match dm.baseMap case Some(b) => SearchOrder(b) case None => [];
    FirstMatchAppend(FieldsOrder(dm, 0), tail, name);
    if dm.baseMap.Some? {
      FindIsFirstInSearchOrder(dm.baseMap.value, name);
    }
  }

  lemma {:induction false} FindInFieldsIsFirst(dm: DataMap, i: nat, name: string)
    requires i <= |dm.dataDesc|
    ensures FindInFields(dm, i, name) == FirstMatch(FieldsOrder(dm, i), name)
    decreases dm, 0, |dm.dataDesc| - i
  {
    if i < |dm.dataDesc| {
      var d := dm.dataDesc[i];
      var nested := match d.kind case Embedded(td) => SearchOrder(td) case Plain(_) => [];
      var rest := FieldsOrder(dm, i + 1);
      assert FieldsOrder(dm, i) == [d] + (nested + rest);
      FindInFieldsIsFirst(dm, i + 1, name);
      FirstMatchAppend(nested, rest, name);
      if !NameMatches(d, name) {
        assert ([d] + (nested + rest))[1..] == nested + rest;
        match d.kind
        case Embedded(td) => FindIsFirstInSearchOrder(td, name);
        case Plain(_) =>
      }
    }
  }

  // ---------------------------------------------------------------------------
  // Offset lookup through the base chain: find_offset and g_DataMapsCache
  // ---------------------------------------------------------------------------

  /** The class and its base classes, nearest first. */
  function Chain(dm: DataMap): (c: seq<DataMap>)
    ensures |c| >= 1 && c[0] == dm
    decreases dm
  {
    [dm] +
    match dm.baseMap
    case Some(b) => Chain(b)
    case None => []
  }

  /** The offset the nearest class of the chain whose own flattened map has `name` gives it. */
  function NearestOffset(dm: DataMap, name: string): Option<int>
    decreases dm
  {
    var own := Flatten(dm);
    if name in own then Some(own[name])
    else
      match dm.baseMap
      case Some(b) => NearestOffset(b, name)
      case None => None
  }

  /** No class before position `k` of the chain has `name` in its flattened map. */
  ghost predicate AbsentBefore(dm: DataMap, name: string, k: nat) {
    forall j :: 0 <= j < k && j < |Chain(dm)| ==> name !in Flatten(Chain(dm)[j])
  }

  /**
   * `NearestOffset` is the value in the first class of the chain that has
   * the name, and absent exactly when no class of the chain has it.
   */
  lemma {:induction false} NearestOffsetMeaning(dm: DataMap, name: string)
    ensures NearestOffset(dm, name).None? <==>
              forall k :: 0 <= k < |Chain(dm)| ==> name !in Flatten(Chain(dm)[k])
    ensures NearestOffset(dm, name).Some? ==>
              exists k :: 0 <= k < |Chain(dm)| && AbsentBefore(dm, name, k) &&
                name in Flatten(Chain(dm)[k]) &&
                NearestOffset(dm, name).value == Flatten(Chain(dm)[k])[name]
    decreases dm
  {
    if name in Flatten(dm) {
      assert Chain(dm)[0] == dm;
      assert AbsentBefore(dm, name, 0) && name in Flatten(Chain(dm)[0]) &&
             NearestOffset(dm, name).value == Flatten(Chain(dm)[0])[name];
    } else if dm.baseMap.Some? {
      var b := dm.baseMap.value;
      NearestOffsetMeaning(b, name);
      assert Chain(dm) == [dm] + Chain(b);
      forall k | 0 < k < |Chain(dm)| ensures Chain(dm)[k] == Chain(b)[k - 1] { }
      if NearestOffset(dm, name).Some? {
        var k :| 0 <= k < |Chain(b)| && AbsentBefore(b, name, k) && name in Flatten(Chain(b)[k]) &&
                 NearestOffset(b, name).value == Flatten(Chain(b)[k])[name];
        assert Chain(dm)[k + 1] == Chain(b)[k];
        forall j | 0 <= j < k + 1 ensures name !in Flatten(Chain(dm)[j]) {
          if j > 0 { assert Chain(dm)[j] == Chain(b)[j - 1]; }
        }
        assert AbsentBefore(dm, name, k + 1);
      }
    } else {
      assert Chain(dm) == [dm];
    }
  }

  /** Engine class names identify classes: no name repeats along the chain. */
  ghost predicate DistinctClassNames(dm: DataMap) {
    forall i, j :: 0 <= i < j < |Chain(dm)| ==> Chain(dm)[i].className != Chain(dm)[j].className
  }

  /** `find_offset`'s -1 for a name no class of the chain has. */
  function OffsetOrMissing(o: Option<int>): int {
    match o
    case Some(v) => v
    case None => -1
  }

  lemma BaseFallbackExample()
    ensures NearestOffset(DerivedExample(), "hp") == Some(0)
    ensures NearestOffset(DerivedExample(), "armor") == Some(4)
    ensures NearestOffset(DerivedExample(), "speed") == None
  {
    assert Flatten(BaseExample()) == map["hp" := 0];
    assert Flatten(DerivedExample()) == map["armor" := 4];
  }

  /** `Base` defines `hp` at 0. */
  function BaseExample(): DataMap {
    DataMap("Base", [TypeDescription(Some("hp"), None, Plain(FIELD_INTEGER), 0)], None)
  }

  /** `Derived` defines only `armor`, at 4, and inherits from `Base`. */
  function DerivedExample(): DataMap {
    DataMap("Derived", [TypeDescription(Some("armor"), None, Plain(FIELD_INTEGER), 4)],
            Some(BaseExample()))
  }

  /** `Chain` links each class to its base: the next element is the base's datamap. */
  lemma {:induction false} ChainLink(dm: DataMap, k: nat)
    requires k < |Chain(dm)|
    ensures Chain(dm)[k].baseMap.Some? <==> k + 1 < |Chain(dm)|
    ensures k + 1 < |Chain(dm)| ==> Chain(dm)[k + 1] == Chain(dm)[k].baseMap.value
    decreases dm
  {
    if dm.baseMap.Some? {
      var b := dm.baseMap.value;
      assert Chain(dm) == [dm] + Chain(b);
      if k > 0 {
        ChainLink(b, k - 1);
        assert Chain(dm)[k] == Chain(b)[k - 1];
      }
    } else {
      assert Chain(dm) == [dm];
    }
  }

  /** Past classes that lack the name, the nearest offset is the one seen from there on. */
  lemma {:induction false} NearestPastAbsent(dm: DataMap, name: string, k: nat)
    requires k <= |Chain(dm)| && AbsentBefore(dm, name, k)
    ensures NearestOffset(dm, name) == if k < |Chain(dm)| then NearestOffset(Chain(dm)[k], name) else None
    decreases dm
  {
    if k > 0 {
      assert name !in Flatten(dm);
      if dm.baseMap.Some? {
        var b := dm.baseMap.value;
        assert Chain(dm) == [dm] + Chain(b);
        assert AbsentBefore(b, name, k - 1) by {
          forall j | 0 <= j < k - 1 && j < |Chain(b)| ensures name !in Flatten(Chain(b)[j]) {
            assert Chain(b)[j] == Chain(dm)[j + 1];
          }
        }
        NearestPastAbsent(b, name, k - 1);
        if k < |Chain(dm)| {
          assert Chain(dm)[k] == Chain(b)[k - 1];
        }
      } else {
        assert Chain(dm) == [dm];
      }
    }
  }

  /** Class name to that class's own flattened map. */
  type Cache = map<string, OffsetsMap>

  /** Every cached entry for a class of the chain is that class's flattened map. */
  ghost predicate CoherentWith(cache: Cache, dm: DataMap) {
    forall k :: 0 <= k < |Chain(dm)| && Chain(dm)[k].className in cache ==>
      cache[Chain(dm)[k].className] == Flatten(Chain(dm)[k])
  }

  /** `newer` still holds every entry of `older`, unchanged. */
  ghost predicate Keeps(older: Cache, newer: Cache) {
    forall c :: c in older ==> c in newer && newer[c] == older[c]
  }

  /** Every entry `newer` adds to `older` is the flattened map of one of the first `n` classes of the chain. */
  ghost predicate AddedFromChain(older: Cache, newer: Cache, dm: DataMap, n: nat) {
    forall c :: c in newer && c !in older ==>
      exists j :: 0 <= j < n && j < |Chain(dm)| && Chain(dm)[j].className == c && newer[c] == Flatten(Chain(dm)[j])
  }

  /** The first `n` classes of the chain all have an entry. */
  ghost predicate CachedUpTo(cache: Cache, dm: DataMap, n: nat) {
    forall j :: 0 <= j < n && j < |Chain(dm)| ==> Chain(dm)[j].className in cache
  }

  lemma CachedUpToStep(cache: Cache, dm: DataMap, k: nat)
    requires CachedUpTo(cache, dm, k) && k < |Chain(dm)| && Chain(dm)[k].className in cache
    ensures CachedUpTo(cache, dm, k + 1)
  {
  }

  /** Every class a lookup of `name` inspects (all up to the first that has it) has an entry. */
  ghost predicate VisitedCached(cache: Cache, dm: DataMap, name: string) {
    forall k :: 0 <= k < |Chain(dm)| && AbsentBefore(dm, name, k) ==> Chain(dm)[k].className in cache
  }

  /** Caching the `k`-th class's map keeps every old entry and adds only a chain class's map. */
  lemma CacheInsertStep(older: Cache, cache: Cache, dm: DataMap, k: nat)
    requires k < |Chain(dm)| && Chain(dm)[k].className !in cache
    requires Keeps(older, cache) && AddedFromChain(older, cache, dm, k)
    ensures Keeps(older, cache[Chain(dm)[k].className := Flatten(Chain(dm)[k])])
    ensures AddedFromChain(older, cache[Chain(dm)[k].className := Flatten(Chain(dm)[k])], dm, k + 1)
  {
    var c := Chain(dm)[k];
    var next := cache[c.className := Flatten(c)];
    forall n | n in next && n !in older
      ensures exists j :: 0 <= j < k + 1 && j < |Chain(dm)| && Chain(dm)[j].className == n &&
                next[n] == Flatten(Chain(dm)[j])
    {
      if n == c.className {
        assert Chain(dm)[k].className == n && next[n] == Flatten(Chain(dm)[k]);
      } else {
        var j :| 0 <= j < k && j < |Chain(dm)| && Chain(dm)[j].className == n && cache[n] == Flatten(Chain(dm)[j]);
        assert next[n] == cache[n];
      }
    }
  }

  /** Caching the `k`-th class's map extends the cached prefix of the chain. */
  lemma CacheInsertCached(cache: Cache, dm: DataMap, k: nat)
    requires k < |Chain(dm)| && CachedUpTo(cache, dm, k)
    ensures CachedUpTo(cache[Chain(dm)[k].className := Flatten(Chain(dm)[k])], dm, k + 1)
  {
  }

  /** With distinct class names, caching the `k`-th class's map keeps a coherent cache coherent. */
  lemma CacheInsertCoherent(cache: Cache, dm: DataMap, k: nat)
    requires k < |Chain(dm)| && CoherentWith(cache, dm) && DistinctClassNames(dm)
    ensures CoherentWith(cache[Chain(dm)[k].className := Flatten(Chain(dm)[k])], dm)
  {
  }

  /** A new cache entry: an empty map, then `AddDataMap` with offset 0 and no base name. */
  method BuildOffsets(dm: DataMap) returns (offsets: OffsetsMap)
    ensures offsets == Flatten(dm)
  {
    offsets := map[];
    offsets := AddDataMap(dm, offsets, 0, None);
  }

  /** The cache was coherent for the chain at the start, and the chain's class names are distinct. */
  ghost predicate Good(start: Cache, dm: DataMap) {
    CoherentWith(start, dm) && DistinctClassNames(dm)
  }

  /** One visit of `find_offset` to class `c`: its map is built and cached only when its name is absent. */
  function Visit(cache: Cache, c: DataMap): Cache {
    if c.className in cache then cache else cache[c.className := Flatten(c)]
  }

  /** What holds each time the walk that started with cache `start` reaches position `k` of the chain. */
  ghost predicate WalkInv(start: Cache, cache: Cache, dm: DataMap, name: string, k: nat) {
    && k <= |Chain(dm)|
    && Keeps(start, cache) && AddedFromChain(start, cache, dm, k)
    && CachedUpTo(cache, dm, k)
    && (CachedUpTo(start, dm, |Chain(dm)|) ==> cache == start)
    && (Good(start, dm) ==> CoherentWith(cache, dm) && AbsentBefore(dm, name, k))
    && (Good(start, dm) && VisitedCached(start, dm, name) ==> cache == start)
  }

  /** What holds right after the walk has visited position `k`. */
  ghost predicate VisitedInv(start: Cache, cache: Cache, dm: DataMap, name: string, k: nat) {
    && k < |Chain(dm)|
    && Keeps(start, cache) && AddedFromChain(start, cache, dm, k + 1)
    && CachedUpTo(cache, dm, k + 1)
    && (CachedUpTo(start, dm, |Chain(dm)|) ==> cache == start)
    && (Good(start, dm) ==>
          && CoherentWith(cache, dm) && AbsentBefore(dm, name, k)
          && cache[Chain(dm)[k].className] == Flatten(Chain(dm)[k]))
    && (Good(start, dm) && VisitedCached(start, dm, name) ==> cache == start)
  }

  /**
   * The outcome `find_offset` promises, for a walk that started with cache
   * `start` and returned `r`: no entry is replaced; every new entry is the
   * flattened map of a class of the chain; a cache holding every class of
   * the chain is left as it was. If the cache was coherent for the chain and
   * its class names are distinct, it stays coherent, `r` is the nearest
   * class's offset (or -1), every class the lookup inspected is cached, and
   * a cache that already held all of those is left as it was.
   */
  ghost predicate LookupOutcome(start: Cache, cache: Cache, dm: DataMap, name: string, r: int) {
    && Keeps(start, cache)
    && AddedFromChain(start, cache, dm, |Chain(dm)|)
    && (CachedUpTo(start, dm, |Chain(dm)|) ==> cache == start)
    && (Good(start, dm) ==>
          && CoherentWith(cache, dm)
          && r == OffsetOrMissing(NearestOffset(dm, name))
          && VisitedCached(cache, dm, name))
    && (Good(start, dm) && VisitedCached(start, dm, name) ==> cache == start)
  }

  lemma WalkStart(start: Cache, dm: DataMap, name: string)
    ensures WalkInv(start, start, dm, name, 0)
  {
  }

  /**
   * One iteration of the walk at position `k`: after the visit, a hit
   * ends the lookup with the promised outcome, and a miss moves on to the
   * base class with the walk's facts kept.
   */
  lemma WalkStep(start: Cache, cache: Cache, dm: DataMap, name: string, k: nat)
    requires WalkInv(start, cache, dm, name, k) && k < |Chain(dm)|
    ensures var c := Chain(dm)[k];
            var next := Visit(cache, c);
            && c.className in next
            && (name in next[c.className] ==> LookupOutcome(start, next, dm, name, next[c.className][name]))
            && (name !in next[c.className] ==> WalkInv(start, next, dm, name, k + 1))
            && (c.baseMap.Some? <==> k + 1 < |Chain(dm)|)
            && (k + 1 < |Chain(dm)| ==> Chain(dm)[k + 1] == c.baseMap.value)
  {
    var c := Chain(dm)[k];
    var next := Visit(cache, c);
    WalkVisit(start, cache, dm, name, k);
    if name in next[c.className] {
      WalkHit(start, next, dm, name, k);
    } else {
      WalkMiss(start, next, dm, name, k);
    }
    ChainLink(dm, k);
  }

  lemma WalkVisit(start: Cache, cache: Cache, dm: DataMap, name: string, k: nat)
    requires WalkInv(start, cache, dm, name, k) && k < |Chain(dm)|
    ensures VisitedInv(start, Visit(cache, Chain(dm)[k]), dm, name, k)
  {
    var c := Chain(dm)[k];
    if c.className !in cache {
      CacheInsertStep(start, cache, dm, k);
      CacheInsertCached(cache, dm, k);
      if Good(start, dm) {
        CacheInsertCoherent(cache, dm, k);
      }
    } else {
      CachedUpToStep(cache, dm, k);
    }
  }

  lemma WalkMiss(start: Cache, cache: Cache, dm: DataMap, name: string, k: nat)
    requires VisitedInv(start, cache, dm, name, k)
    requires name !in cache[Chain(dm)[k].className]
    ensures WalkInv(start, cache, dm, name, k + 1)
  {
  }

  lemma WalkHit(start: Cache, cache: Cache, dm: DataMap, name: string, k: nat)
    requires VisitedInv(start, cache, dm, name, k)
    requires name in cache[Chain(dm)[k].className]
    ensures LookupOutcome(start, cache, dm, name, cache[Chain(dm)[k].className][name])
  {
    if Good(start, dm) {
      NearestPastAbsent(dm, name, k);
      forall j | k < j < |Chain(dm)| ensures !AbsentBefore(dm, name, j) {
        assert name in Flatten(Chain(dm)[k]);
      }
    }
  }

  lemma WalkEnd(start: Cache, cache: Cache, dm: DataMap, name: string)
    requires WalkInv(start, cache, dm, name, |Chain(dm)|)
    ensures LookupOutcome(start, cache, dm, name, -1)
  {
    if Good(start, dm) {
      NearestPastAbsent(dm, name, |Chain(dm)|);
    }
  }

  /**
   * The walk of `find_offset` from position `k` of the chain on, read as a
   * function: the cache it leaves and the value it returns.
   */
  ghost function LookupFrom(cache: Cache, dm: DataMap, name: string, k: nat): (Cache, int)
    requires k <= |Chain(dm)|
    decreases |Chain(dm)| - k
  {
    if k == |Chain(dm)| then (cache, -1)
    else
      var c := Chain(dm)[k];
      var next := Visit(cache, c);
      if name in next[c.className] then (next, next[c.className][name])
      else LookupFrom(next, dm, name, k + 1)
  }

  /** A walk that has kept its facts up to position `k` ends with the promised outcome. */
  lemma {:induction false} LookupFromOutcome(start: Cache, cache: Cache, dm: DataMap, name: string, k: nat)
    requires WalkInv(start, cache, dm, name, k)
    ensures LookupOutcome(start, LookupFrom(cache, dm, name, k).0, dm, name, LookupFrom(cache, dm, name, k).1)
    decreases |Chain(dm)| - k
  {
    if k == |Chain(dm)| {
      WalkEnd(start, cache, dm, name);
    } else {
      WalkStep(start, cache, dm, name, k);
      var c := Chain(dm)[k];
      var next := Visit(cache, c);
      if name !in next[c.className] {
        LookupFromOutcome(start, next, dm, name, k + 1);
      }
    }
  }

  /** What a whole `find_offset` walk promises, from any starting cache. */
  lemma LookupOutcomeOfWalk(start: Cache, dm: DataMap, name: string)
    ensures LookupOutcome(start, LookupFrom(start, dm, name, 0).0, dm, name, LookupFrom(start, dm, name, 0).1)
  {
    WalkStart(start, dm, name);
    LookupFromOutcome(start, start, dm, name, 0);
  }

  /** The walk from position `k` keeps every entry of the cache it starts with. */
  lemma {:induction false} WalkKeeps(cache: Cache, dm: DataMap, name: string, k: nat)
    requires k <= |Chain(dm)|
    ensures Keeps(cache, LookupFrom(cache, dm, name, k).0)
    decreases |Chain(dm)| - k
  {
    if k < |Chain(dm)| {
      var c := Chain(dm)[k];
      var next := Visit(cache, c);
      if name !in next[c.className] {
        WalkKeeps(next, dm, name, k + 1);
      }
    }
  }

  /**
   * Walking again from the cache a walk leaves changes nothing and returns the
   * same value, whatever the starting cache: `find_offset` is deterministic.
   */
  lemma {:induction false} WalkRepeats(cache: Cache, dm: DataMap, name: string, k: nat)
    requires k <= |Chain(dm)|
    ensures LookupFrom(LookupFrom(cache, dm, name, k).0, dm, name, k) == LookupFrom(cache, dm, name, k)
    decreases |Chain(dm)| - k
  {
    if k < |Chain(dm)| {
      var c := Chain(dm)[k];
      var next := Visit(cache, c);
      if name !in next[c.className] {
        WalkRepeats(next, dm, name, k + 1);
        WalkKeeps(next, dm, name, k + 1);
        var final := LookupFrom(next, dm, name, k + 1).0;
        assert c.className in next;
        assert Visit(final, c) == final && final[c.className] == next[c.className];
      }
    }
  }

  /** The chain walk of `find_offset`, over the process-wide `g_DataMapsCache`. */
  class DataMapsCache {
    var cache: Cache

    constructor ()
      ensures cache == map[]
    {
      cache := map[];
    }

    /**
     * `find_offset`: walk the chain; build and cache a class's map only
     * when its name is not cached yet; return the first hit, or -1.
     * Entries are never replaced, and new ones are flattened maps of the
     * chain's classes. When the cache was coherent for the chain and the
     * chain's class names are distinct, the result is the nearest class's
     * offset, every inspected class is then cached, and a lookup whose
     * classes were all cached already leaves the cache as it was.
     */
    method FindOffset(dm: DataMap, name: string) returns (r: int)
      modifies this
      ensures (cache, r) == LookupFrom(old(cache), dm, name, 0)
    {
      ghost var start := cache;
      var cur := Some(dm);
      ghost var k: nat := 0;
      while cur.Some?
        invariant k <= |Chain(dm)|
        invariant cur.Some? <==> k < |Chain(dm)|
        invariant cur.Some? ==> cur.value == Chain(dm)[k]
        invariant LookupFrom(cache, dm, name, k) == LookupFrom(start, dm, name, 0)
        decreases |Chain(dm)| - k
      {
        var c := cur.value;
        ghost var before := cache;
        if c.className !in cache {
          var built := BuildOffsets(c);
          cache := cache[c.className := built];
        }
        assert cache == Visit(before, c);
        var offsets := cache[c.className];
        if name in offsets {
          r := offsets[name];
          return;
        }
        ChainLink(dm, k);
        cur := c.baseMap;
        k := k + 1;
      }
      r := -1;
    }
  }

  /** Two lookups of one name in a row agree, and the second leaves the cache as the first left it. */
  method LookupTwice(c: DataMapsCache, dm: DataMap, name: string) returns (first: int, second: int)
    modifies c
    ensures first == second
    ensures c.cache == LookupFrom(old(c.cache), dm, name, 0).0
    ensures CoherentWith(old(c.cache), dm) && DistinctClassNames(dm) ==>
              first == OffsetOrMissing(NearestOffset(dm, name))
  {
    ghost var start := c.cache;
    LookupOutcomeOfWalk(start, dm, name);
    WalkRepeats(start, dm, name, 0);
    first := c.FindOffset(dm, name);
    second := c.FindOffset(dm, name);
  }
}
