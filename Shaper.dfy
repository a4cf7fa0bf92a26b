/** The record shapers `getItemData` and `getCollectionData`: a fetched remote
    object becomes a plain record with one key per distinct dromedary-case
    name of the requested facts and collections. The record is specified by `Writes`, the sequence of
    property writes the script performs, and the methods, which perform those
    writes one at a time, are proved to build exactly that record. */
module Shaper {
  import opened Js

  /** `c.toLowerCase()` on one ASCII character. */
  function LowerAscii(c: char): char
  {
    if 'A' <= c <= 'Z' then (c as int + 32) as char else c
  }

  /** `lc0Of`: the string with its first character lower-cased. */
  function Lc0(s: string): (r: string)
    ensures |r| == |s|
    ensures forall i :: 0 < i < |s| ==> r[i] == s[i]
    ensures |s| > 0 ==> !('A' <= r[0] <= 'Z')
    ensures |s| > 0 && !('A' <= s[0] <= 'Z') ==> r[0] == s[0]
    ensures |s| > 0 && 'A' <= s[0] <= 'Z' ==> r[0] as int == s[0] as int + 32
  {
    if |s| == 0 then "" else [LowerAscii(s[0])] + s[1..]
  }

  /** The two kinds of requested field. */
  datatype Kind = Fact | Collection

  /** A field `getItemData` can read as a collection: `obj[collection]._ref`
      throws on `null` and `undefined`. */
  predicate Readable(v: Value)
  {
    !v.Null? && !v.Undef?
  }

  /** Every requested collection field can be read. */
  predicate Present(obj: Object, names: seq<string>, kind: Kind)
  {
    kind == Collection ==> forall i :: 0 <= i < |names| ==> Readable(Get(obj, names[i]))
  }

  /** The value stored for a raw field: a fact that is a non-null object is
      replaced by its `_ref`, any other fact is copied; a collection becomes
      `{ref: _ref, count: Count}`. */
  function Shape(kind: Kind, v: Value): (r: Value)
    requires kind == Collection ==> Readable(v)
    ensures kind == Fact && !v.Obj? ==> r == v
    ensures kind == Fact && v.Obj? ==> r == Get(v.props, "_ref")
    ensures kind == Collection ==>
      && r.Obj? && r.props.Keys == {"ref", "count"}
      && r.props["ref"] == PropOf(v, "_ref") && r.props["count"] == PropOf(v, "Count")
  {
    match kind
    case Fact => if v.Obj? then PropOf(v, "_ref") else v
    case Collection => Obj(map["ref" := PropOf(v, "_ref"), "count" := PropOf(v, "Count")])
  }

  /** The record after `base[lc0Of(n)] = <shaped obj[n]>` for each name `n` of
      `names`, in order. */
  function Writes(base: Object, obj: Object, names: seq<string>, kind: Kind): Object
    requires Present(obj, names, kind)
    decreases |names|
  {
    if names == [] then base
    else
      var n := names[|names| - 1];
      Writes(base, obj, names[..|names| - 1], kind)[Lc0(n) := Shape(kind, Get(obj, n))]
  }

  /** The keys written by `names`. */
  function Keys(names: seq<string>): set<string>
  {
    set n | n in names :: Lc0(n)
  }

  /** No later name of `names` writes the key that `names[i]` writes. */
  predicate LastWrite(names: seq<string>, i: nat)
    requires i < |names|
  {
    forall j :: i < j < |names| ==> Lc0(names[j]) != Lc0(names[i])
  }

  /** The writes add exactly the keys of the names to the base record. */
  lemma {:induction false} WritesKeys(base: Object, obj: Object, names: seq<string>, kind: Kind)
    requires Present(obj, names, kind)
    ensures Writes(base, obj, names, kind).Keys == base.Keys + Keys(names)
    decreases |names|
  {
    if names != [] {
      var init := names[..|names| - 1];
      WritesKeys(base, obj, init, kind);
      assert names == init + [names[|names| - 1]];
      assert Keys(names) == Keys(init) + {Lc0(names[|names| - 1])};
    }
  }

  /** The last write to a key wins. */
  lemma {:induction false} WritesLastWins(base: Object, obj: Object, names: seq<string>, kind: Kind, i: nat)
    requires Present(obj, names, kind)
    requires i < |names| && LastWrite(names, i)
    ensures Lc0(names[i]) in Writes(base, obj, names, kind)
    ensures Writes(base, obj, names, kind)[Lc0(names[i])] == Shape(kind, Get(obj, names[i]))
    decreases |names|
  {
    if i < |names| - 1 {
      WritesLastWins(base, obj, names[..|names| - 1], kind, i);
    }
  }

  /** A key no name writes keeps its value from the base record. */
  lemma {:induction false} WritesKeepBase(base: Object, obj: Object, names: seq<string>, kind: Kind, k: string)
    requires Present(obj, names, kind)
    requires k in base && k !in Keys(names)
    ensures k in Writes(base, obj, names, kind)
    ensures Writes(base, obj, names, kind)[k] == base[k]
    decreases |names|
  {
    if names != [] {
      var init := names[..|names| - 1];
      assert Keys(init) <= Keys(names);
      WritesKeepBase(base, obj, init, kind, k);
    }
  }

  /** The record for one item: the facts are written first, then the
      collections. */
  function ItemRecord(obj: Object, facts: seq<string>, collections: seq<string>): Object
    requires Present(obj, collections, Collection)
  {
    Writes(Writes(map[], obj, facts, Fact), obj, collections, Collection)
  }

  /** The record for one collection member: it starts as `{ref: member._ref}`
      and then receives the same writes as an item record. */
  function MemberRecord(member: Object, facts: seq<string>, collections: seq<string>): Object
    requires Present(member, collections, Collection)
  {
    Writes(Writes(map["ref" := Get(member, "_ref")], member, facts, Fact), member, collections, Collection)
  }

  /** The item record's key set is exactly the dromedary-case names of the
      facts and collections. */
  lemma ItemRecordKeys(obj: Object, facts: seq<string>, collections: seq<string>)
    requires Present(obj, collections, Collection)
    ensures ItemRecord(obj, facts, collections).Keys == Keys(facts) + Keys(collections)
  {
    WritesKeys(map[], obj, facts, Fact);
    WritesKeys(Writes(map[], obj, facts, Fact), obj, collections, Collection);
  }

  /** A fact holds its copied or flattened raw value, unless a later fact or
      any collection writes the same key. */
  lemma ItemRecordFact(obj: Object, facts: seq<string>, collections: seq<string>, i: nat)
    requires Present(obj, collections, Collection)
    requires i < |facts| && LastWrite(facts, i) && Lc0(facts[i]) !in Keys(collections)
    ensures Lc0(facts[i]) in ItemRecord(obj, facts, collections)
    ensures ItemRecord(obj, facts, collections)[Lc0(facts[i])] == Shape(Fact, Get(obj, facts[i]))
  {
    WritesLastWins(map[], obj, facts, Fact, i);
    WritesKeepBase(Writes(map[], obj, facts, Fact), obj, collections, Collection, Lc0(facts[i]));
  }

  /** A collection holds `{ref, count}` unless a later collection writes the
      same key. */
  lemma ItemRecordCollection(obj: Object, facts: seq<string>, collections: seq<string>, i: nat)
    requires Present(obj, collections, Collection)
    requires i < |collections| && LastWrite(collections, i)
    ensures Lc0(collections[i]) in ItemRecord(obj, facts, collections)
    ensures ItemRecord(obj, facts, collections)[Lc0(collections[i])] == Shape(Collection, Get(obj, collections[i]))
  {
    WritesLastWins(Writes(map[], obj, facts, Fact), obj, collections, Collection, i);
  }

  /** A member record has the keys of an item record plus `ref`. */
  lemma MemberRecordKeys(member: Object, facts: seq<string>, collections: seq<string>)
    requires Present(member, collections, Collection)
    ensures MemberRecord(member, facts, collections).Keys == {"ref"} + Keys(facts) + Keys(collections)
  {
    var base := map["ref" := Get(member, "_ref")];
    WritesKeys(base, member, facts, Fact);
    WritesKeys(Writes(base, member, facts, Fact), member, collections, Collection);
  }

  /** `ref` holds the member's own `_ref` unless a fact or collection
      overwrites it. */
  lemma MemberRecordRef(member: Object, facts: seq<string>, collections: seq<string>)
    requires Present(member, collections, Collection)
    requires "ref" !in Keys(facts) + Keys(collections)
    ensures "ref" in MemberRecord(member, facts, collections)
    ensures MemberRecord(member, facts, collections)["ref"] == Get(member, "_ref")
  {
    var base := map["ref" := Get(member, "_ref")];
    WritesKeepBase(base, member, facts, Fact, "ref");
    WritesKeepBase(Writes(base, member, facts, Fact), member, collections, Collection, "ref");
  }

  /** A member's fact is shaped as for an item. */
  lemma MemberRecordFact(member: Object, facts: seq<string>, collections: seq<string>, i: nat)
    requires Present(member, collections, Collection)
    requires i < |facts| && LastWrite(facts, i) && Lc0(facts[i]) !in Keys(collections)
    ensures Lc0(facts[i]) in MemberRecord(member, facts, collections)
    ensures MemberRecord(member, facts, collections)[Lc0(facts[i])] == Shape(Fact, Get(member, facts[i]))
  {
    var base := map["ref" := Get(member, "_ref")];
    WritesLastWins(base, member, facts, Fact, i);
    WritesKeepBase(Writes(base, member, facts, Fact), member, collections, Collection, Lc0(facts[i]));
  }

  /** A member's collection is shaped as for an item. */
  lemma MemberRecordCollection(member: Object, facts: seq<string>, collections: seq<string>, i: nat)
    requires Present(member, collections, Collection)
    requires i < |collections| && LastWrite(collections, i)
    ensures Lc0(collections[i]) in MemberRecord(member, facts, collections)
    ensures MemberRecord(member, facts, collections)[Lc0(collections[i])]
         == Shape(Collection, Get(member, collections[i]))
  {
    var base := map["ref" := Get(member, "_ref")];
    WritesLastWins(Writes(base, member, facts, Fact), member, collections, Collection, i);
  }

  /** What a `restAPI.get` call settles to. */
  datatype Fetch<T> = GetFailed | Got(value: T)

  /** What a shaper resolves to: `Blank` is the `{}` or `[]` given for a falsy
      reference, `Failed` the `''` given when the fetch fails, `Data` the
      shaped record or records. */
  datatype Shaped<T> = Blank | Failed | Data(value: T)

  /** One `forEach` loop of a shaper: each name's shaped field is written
      into `base`, in order. */
  method WriteNames(base: Object, obj: Object, names: seq<string>, kind: Kind)
    returns (data: Object)
    requires Present(obj, names, kind)
    ensures data == Writes(base, obj, names, kind)
  {
    data := base;
    var i := 0;
    while i < |names|
      invariant i <= |names|
      invariant Present(obj, names[..i], kind)
      invariant data == Writes(base, obj, names[..i], kind)
    {
      var n := names[i];
      assert names[..i + 1][..i] == names[..i];
      assert names[..i + 1][i] == n;
      data := data[Lc0(n) := Shape(kind, Get(obj, n))];
      i := i + 1;
    }
    assert names[..i] == names;
  }

  /** The two `forEach` loops of a shaper: each fact, then each collection,
      is written into `base` in order. */
  method WriteFields(base: Object, obj: Object, facts: seq<string>, collections: seq<string>)
    returns (data: Object)
    requires Present(obj, collections, Collection)
    ensures data == Writes(Writes(base, obj, facts, Fact), obj, collections, Collection)
  {
    var afterFacts := WriteNames(base, obj, facts, Fact);
    data := WriteNames(afterFacts, obj, collections, Collection);
  }

  /** `getItemData(ref, facts, collections)`, where `fetched` is what the
      fetch of `ref` settles to. A falsy reference gives `{}` whatever the
      service would answer; a failed fetch gives `''`. */
  method GetItemData(ref: Value, facts: seq<string>, collections: seq<string>, fetched: Fetch<Object>)
    returns (r: Shaped<Object>)
    requires Truthy(ref) && fetched.Got? ==> Present(fetched.value, collections, Collection)
    ensures !Truthy(ref) ==> r == Blank
    ensures Truthy(ref) && fetched.GetFailed? ==> r == Failed
    ensures Truthy(ref) && fetched.Got? ==> r == Data(ItemRecord(fetched.value, facts, collections))
  {
    if !Truthy(ref) {
      return Blank;
    }
    match fetched
    case GetFailed =>
      r := Failed;
    case Got(obj) =>
      var data := WriteFields(map[], obj, facts, collections);
      r := Data(data);
  }

  /** Every member of a collection has its requested collection fields. */
  predicate AllPresent(members: seq<Object>, collections: seq<string>)
  {
    forall i :: 0 <= i < |members| ==> Present(members[i], collections, Collection)
  }

  /** `getCollectionData(ref, facts, collections)`, where `fetched` is what
      the fetch of the collection's members settles to: one member record
      per member, in the service's order. */
  method GetCollectionData(ref: Value, facts: seq<string>, collections: seq<string>,
                           fetched: Fetch<seq<Object>>)
    returns (r: Shaped<seq<Object>>)
    requires Truthy(ref) && fetched.Got? ==> AllPresent(fetched.value, collections)
    ensures !Truthy(ref) ==> r == Blank
    ensures Truthy(ref) && fetched.GetFailed? ==> r == Failed
    ensures Truthy(ref) && fetched.Got? ==>
      && r.Data?
      && |r.value| == |fetched.value|
      && forall i :: 0 <= i < |r.value| ==> r.value[i] == MemberRecord(fetched.value[i], facts, collections)
  {
    if !Truthy(ref) {
      return Blank;
    }
    match fetched
    case GetFailed =>
      r := Failed;
    case Got(members) =>
      var data: seq<Object> := [];
      var i := 0;
      while i < |members|
        invariant i <= |members|
        invariant |data| == i
        invariant forall k :: 0 <= k < i ==> data[k] == MemberRecord(members[k], facts, collections)
      {
        var member := members[i];
        var memberData := WriteFields(map["ref" := Get(member, "_ref")], member, facts, collections);
        data := data + [memberData];
        i := i + 1;
      }
      r := Data(data);
  }
}
