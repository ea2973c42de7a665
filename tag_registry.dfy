/**
 * TagRegistry: a map from tag name to tag, filled once from the host's Tag
 * constants and read with an upper-cased key.
 */
module TagRegistry {
  import opened Wrappers
  import opened JavaStrings
  import opened Items

  /**
   * One declared field of the host's Tag class, as the static initialiser
   * sees it: its name, whether its type is a Tag, whether that Tag's type
   * argument is Material, and its value.
   */
  datatype TagField = TagField(name: string, isTag: bool, ofMaterial: bool, tag: Tag)

  predicate Registered(f: TagField) {
    f.isTag && f.ofMaterial
  }

  /** The map after registering, in declaration order, every field that passes both filters. */
  function StaticTags(fields: seq<TagField>): map<string, Tag>
    decreases |fields|
  {
    if |fields| == 0 then map[]
    else
      var m := StaticTags(fields[..|fields| - 1]);
      var f := fields[|fields| - 1];
      if Registered(f) then m[f.name := f.tag] else m
  }

  /** A name is in the map exactly when some Material tag field has that name. */
  lemma {:induction false} StaticTagsKeys(fields: seq<TagField>, k: string)
    ensures k in StaticTags(fields) <==> exists i :: 0 <= i < |fields| && Registered(fields[i]) && fields[i].name == k
    decreases |fields|
  {
    if |fields| > 0 {
      var init := fields[..|fields| - 1];
      StaticTagsKeys(init, k);
      if exists i :: 0 <= i < |init| && Registered(init[i]) && init[i].name == k {
        var i :| 0 <= i < |init| && Registered(init[i]) && init[i].name == k;
        assert fields[i] == init[i];
      }
      if exists i :: 0 <= i < |fields| && Registered(fields[i]) && fields[i].name == k {
        var i :| 0 <= i < |fields| && Registered(fields[i]) && fields[i].name == k;
        if i < |init| {
          assert init[i] == fields[i];
        }
      }
    }
  }

  /** Under a name, the tag of the last field registered with it. */
  lemma {:induction false} StaticTagsLastWins(fields: seq<TagField>, i: nat)
    requires i < |fields| && Registered(fields[i])
    requires forall j :: i < j < |fields| ==> !(Registered(fields[j]) && fields[j].name == fields[i].name)
    ensures fields[i].name in StaticTags(fields) && StaticTags(fields)[fields[i].name] == fields[i].tag
    decreases |fields|
  {
    if i < |fields| - 1 {
      var init := fields[..|fields| - 1];
      assert init[i] == fields[i];
      StaticTagsLastWins(init, i);
    }
  }

  /** getTag: the tag under the upper-cased key, if any. */
  function Lookup(tagMap: map<string, Tag>, key: string): (r: Option<Tag>)
    ensures r.Some? <==> Upper(key) in tagMap
    ensures r.Some? ==> r.value == tagMap[Upper(key)]
  {
    if Upper(key) in tagMap then Some(tagMap[Upper(key)]) else None
  }

  /** The lookup ignores the case of the key. */
  lemma LookupIgnoresCase(tagMap: map<string, Tag>, a: string, b: string)
    requires EqualsIgnoreCase(a, b)
    ensures Lookup(tagMap, a) == Lookup(tagMap, b)
  {
    EqualsIgnoreCaseIffUpper(a, b);
  }

  /**
   * `register` overwrites: afterwards a key whose upper case is the
   * registered name finds the new tag, and every other key finds what it
   * found before. A name that is not already upper case can never be found.
   */
  lemma LookupAfterRegister(tagMap: map<string, Tag>, name: string, tag: Tag, key: string)
    ensures Upper(key) == name ==> Lookup(tagMap[name := tag], key) == Some(tag)
    ensures Upper(key) != name ==> Lookup(tagMap[name := tag], key) == Lookup(tagMap, key)
    ensures Upper(name) != name ==> Lookup(tagMap[name := tag], key) == Lookup(tagMap, key)
  {
    if Upper(name) != name && Upper(key) == name {
      UpperIdempotent(key);
      assert false;
    }
  }

  /** The registry with its one mutable map. */
  class Registry {
    var tagMap: map<string, Tag>

    /** The static initialiser: every field that is a Tag of Material is registered under its name. */
    constructor (fields: seq<TagField>)
      ensures tagMap == StaticTags(fields)
    {
      var m: map<string, Tag> := map[];
      var i := 0;
      while i < |fields|
        invariant 0 <= i <= |fields|
        invariant m == StaticTags(fields[..i])
      {
        assert fields[..i + 1][..i] == fields[..i];
        if Registered(fields[i]) {
          m := m[fields[i].name := fields[i].tag];
        }
        i := i + 1;
      }
      assert fields[..|fields|] == fields;
      tagMap := m;
    }

    method Register(key: string, tag: Tag)
      modifies this
      ensures tagMap == old(tagMap)[key := tag]
    {
      tagMap := tagMap[key := tag];
    }

    function GetTag(key: string): (r: Option<Tag>)
      reads this
      ensures r == Lookup(tagMap, key)
      ensures r.Some? <==> Upper(key) in tagMap
    {
      if Upper(key) in tagMap then Some(tagMap[Upper(key)]) else None
    }
  }
}
