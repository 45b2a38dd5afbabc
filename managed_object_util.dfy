/** `ManagedObjectUtil`: dotted-path access to a representation's custom
    fragments (`getAttrs()`), reading a stored object back from a fragment,
    and clearing the fields the inventory refuses on update. A path is split
    on '.'; every segment but the last names a nested map. */
module ManagedObjectUtil {
  import opened Wrappers
  import opened Records
  import opened JavaString

  const NPE: string := "NullPointerException"
  const CLASS_CAST: string := "ClassCastException"
  const INDEX_OUT_OF_BOUNDS: string := "ArrayIndexOutOfBoundsException"

  /** `map.get(key)`: null both for an absent key and for a stored null. */
  function Get(m: map<string, Json>, key: string): (r: Option<Json>)
    ensures r.Some? <==> key in m && m[key] != JNull
    ensures r.Some? ==> r.value == m[key]
  {
    if key in m && m[key] != JNull then Some(m[key]) else None
  }

  /** The map reached from `m` by following `segs`, or None when a segment
      is missing or does not hold a map. */
  function Walk(m: map<string, Json>, segs: seq<string>): Option<map<string, Json>>
    decreases |segs|
  {
    if segs == [] then Some(m)
    else if segs[0] in m && m[segs[0]].JMap? then Walk(m[segs[0]].fields, segs[1..])
    else None
  }

  /** What `getNestedProperty(rep, path)` returns. A path that splits into
      no segment at all (".", "..") makes `split[split.length-1]` fail. */
  function NestedGet(attrs: map<string, Json>, path: string): Result<Option<Json>>
  {
    var split := SplitOnDot(path);
    if split == [] then Err(INDEX_OUT_OF_BOUNDS)
    else
      match Walk(attrs, split[..|split| - 1])
      case None => Ok(None)
      case Some(m) => Ok(Get(m, split[|split| - 1]))
  }

  /** `getNestedProperty`: walks the intermediate segments, returning null as
      soon as one is missing or not a map, then reads the last one. */
  method GetNestedProperty(attrs: map<string, Json>, path: string) returns (r: Result<Option<Json>>)
    ensures r == NestedGet(attrs, path)
  {
    var m := attrs;
    var split := SplitOnDot(path);
    var i := 0;
    while i + 1 < |split|
      invariant 0 <= i && (|split| > 0 ==> i <= |split| - 1)
      invariant |split| > 0 ==> Walk(attrs, split[..|split| - 1]) == Walk(m, split[i..|split| - 1])
    {
      var segment := split[i];
      assert split[i..|split| - 1][0] == segment;
      assert split[i..|split| - 1][1..] == split[i + 1..|split| - 1];
      if segment !in m {
        return Ok(None);
      }
      if !m[segment].JMap? {
        return Ok(None);
      }
      m := m[segment].fields;
      i := i + 1;
    }
    if |split| == 0 {
      return Err(INDEX_OUT_OF_BOUNDS);
    }
    return Ok(Get(m, split[|split| - 1]));
  }

  /** The effect of `setNestedProperty`'s put at the end of `segs`: the new
      map, None when an intermediate key is missing (the method returns
      false), or the exception: a null intermediate is dereferenced, any
      other non-map one fails the cast. */
  function NestedPut(m: map<string, Json>, segs: seq<string>, key: string, value: Json): Result<Option<map<string, Json>>>
    decreases |segs|
  {
    if segs == [] then Ok(Some(m[key := value]))
    else if segs[0] !in m then Ok(None)
    else
      match m[segs[0]]
      case JMap(f) =>
        (match NestedPut(f, segs[1..], key, value)
         case Ok(Some(f')) => Ok(Some(m[segs[0] := JMap(f')]))
         case other => other)
      case JNull => Err(NPE)
      case _ => Err(CLASS_CAST)
  }

  /** `setNestedProperty(rep, path, value)`: whether the value was put, and
      the fragments afterwards. */
  function SetNestedProperty(attrs: map<string, Json>, path: string, value: Json): Result<(bool, map<string, Json>)>
  {
    var split := SplitOnDot(path);
    if split == [] then Err(INDEX_OUT_OF_BOUNDS)
    else
      match NestedPut(attrs, split[..|split| - 1], split[|split| - 1], value)
      case Err(e) => Err(e)
      case Ok(None) => Ok((false, attrs))
      case Ok(Some(m)) => Ok((true, m))
  }

  /** A put succeeds exactly where a walk reaches a map, and it changes that
      map at `key` only; the maps above it change only along `segs`. */
  lemma {:induction false} PutAlongWalk(m: map<string, Json>, segs: seq<string>, key: string, value: Json)
    decreases |segs|
    ensures (NestedPut(m, segs, key, value).Ok? && NestedPut(m, segs, key, value).value.Some?) <==> Walk(m, segs).Some?
    ensures Walk(m, segs).Some? ==>
      && NestedPut(m, segs, key, value) == Ok(Some(NestedPut(m, segs, key, value).value.value))
      && Walk(NestedPut(m, segs, key, value).value.value, segs) == Some(Walk(m, segs).value[key := value])
  {
    if segs != [] && segs[0] in m && m[segs[0]].JMap? {
      PutAlongWalk(m[segs[0]].fields, segs[1..], key, value);
    }
  }

  /** `setNestedProperty` returns false exactly when some intermediate key is
      missing from the maps reached before it. */
  lemma {:induction false} PutMissing(m: map<string, Json>, segs: seq<string>, key: string, value: Json)
    decreases |segs|
    ensures NestedPut(m, segs, key, value) == Ok(None) <==>
      exists i :: 0 <= i < |segs| && Walk(m, segs[..i]).Some? && segs[i] !in Walk(m, segs[..i]).value
  {
    if segs != [] {
      assert Walk(m, segs[..0]) == Some(m);
      if segs[0] in m && m[segs[0]].JMap? {
        var f := m[segs[0]].fields;
        PutMissing(f, segs[1..], key, value);
        forall i | 1 <= i <= |segs|
          ensures Walk(m, segs[..i]) == Walk(f, segs[1..][..i - 1])
        {
          assert segs[..i][1..] == segs[1..][..i - 1];
        }
        if exists i :: 0 <= i < |segs| && Walk(m, segs[..i]).Some? && segs[i] !in Walk(m, segs[..i]).value {
          var i :| 0 <= i < |segs| && Walk(m, segs[..i]).Some? && segs[i] !in Walk(m, segs[..i]).value;
          assert i > 0;
          assert segs[1..][i - 1] == segs[i];
        }
        if exists i :: 0 <= i < |segs[1..]| && Walk(f, segs[1..][..i]).Some? && segs[1..][i] !in Walk(f, segs[1..][..i]).value {
          var i :| 0 <= i < |segs[1..]| && Walk(f, segs[1..][..i]).Some? && segs[1..][i] !in Walk(f, segs[1..][..i]).value;
          assert segs[i + 1] == segs[1..][i];
        }
      } else if segs[0] in m {
        forall i | 1 <= i <= |segs|
          ensures Walk(m, segs[..i]).None?
        {
          assert segs[..i][0] == segs[0];
        }
      }
    }
  }

  /** Get after set: once `setNestedProperty` returned true, getting the same
      path gives the value put (null reads back as null), and every top-level
      fragment other than the first segment is unchanged. */
  lemma GetAfterSet(attrs: map<string, Json>, path: string, value: Json)
    requires SetNestedProperty(attrs, path, value).Ok? && SetNestedProperty(attrs, path, value).value.0
    ensures var m' := SetNestedProperty(attrs, path, value).value.1;
      && NestedGet(m', path) == Ok(if value == JNull then None else Some(value))
      && forall k :: k != SplitOnDot(path)[0] ==> (k in m' <==> k in attrs) && (k in attrs ==> m'[k] == attrs[k])
  {
    var split := SplitOnDot(path);
    var segs, key := split[..|split| - 1], split[|split| - 1];
    PutAlongWalk(attrs, segs, key, value);
    if segs != [] {
      assert segs[0] == split[0];
    }
  }

  /** When `path` is a single segment, a get is a plain lookup and a set a
      plain put. */
  lemma SingleSegment(attrs: map<string, Json>, name: string, value: Json)
    requires '.' !in name
    ensures NestedGet(attrs, name) == Ok(Get(attrs, name))
    ensures SetNestedProperty(attrs, name, value) == Ok((true, attrs[name := value]))
  {
    assert SplitOnDot(name) == [name];
    assert [name][..0] == [];
  }

  /** `readObjectFromFragment`: null when the fragment is absent or null,
      otherwise the fragment's map converted by `convert` (Jackson's
      `convertValue`, which is not part of this model). */
  function ReadObjectFromFragment<V>(mo: ManagedObject, fragmentName: string, convert: map<string, Json> -> V): Result<Option<V>>
  {
    match NestedGet(mo.attrs, fragmentName)
    case Err(e) => Err(e)
    case Ok(None) => Ok(None)
    case Ok(Some(JMap(f))) => Ok(Some(convert(f)))
    case Ok(Some(_)) => Err(CLASS_CAST)
  }

  /** For a fragment name without dots, the object is read exactly when the
      fragment holds a map, and null comes back exactly when it is absent. */
  lemma ReadFragment<V>(mo: ManagedObject, fragmentName: string, convert: map<string, Json> -> V)
    requires '.' !in fragmentName
    ensures ReadObjectFromFragment(mo, fragmentName, convert) == Ok(None) <==>
      fragmentName !in mo.attrs || mo.attrs[fragmentName] == JNull
    ensures fragmentName in mo.attrs && mo.attrs[fragmentName].JMap? ==>
      ReadObjectFromFragment(mo, fragmentName, convert) == Ok(Some(convert(mo.attrs[fragmentName].fields)))
  {
    SingleSegment(mo.attrs, fragmentName, JNull);
  }

  /** `writeObjectAsFragment`: stores the object's fields (as Jackson's
      `convertValue` produced them) as a map under `fragmentName`. */
  function WriteObjectAsFragment(mo: ManagedObject, fields: map<string, Json>, fragmentName: string): ManagedObject
  {
    mo.(attrs := mo.attrs[fragmentName := JMap(fields)])
  }

  /** Reading a fragment back after writing it gives the written fields, and
      the rest of the object is unchanged. */
  lemma ReadAfterWrite<V>(mo: ManagedObject, fields: map<string, Json>, fragmentName: string, convert: map<string, Json> -> V)
    requires '.' !in fragmentName
    ensures ReadObjectFromFragment(WriteObjectAsFragment(mo, fields, fragmentName), fragmentName, convert) == Ok(Some(convert(fields)))
    ensures WriteObjectAsFragment(mo, fields, fragmentName).id == mo.id
    ensures forall k :: k != fragmentName && k in mo.attrs ==> WriteObjectAsFragment(mo, fields, fragmentName).attrs[k] == mo.attrs[k]
  {
    ReadFragment(WriteObjectAsFragment(mo, fields, fragmentName), fragmentName, convert);
  }

  /** `filterNonUpdateableMnagedObjectFields`: clears the fields an update
      must not carry and keeps the fragments. */
  function FilterNonUpdateable(mo: ManagedObject): (r: ManagedObject)
    ensures r.id.None? && r.lastUpdated.None? && r.creationTime.None?
    ensures r.childAdditions.None? && r.childDevices.None? && r.deviceParents.None?
    ensures r.attrs == mo.attrs
  {
    mo.(id := None, lastUpdated := None, creationTime := None,
        childAdditions := None, childDevices := None, deviceParents := None)
  }

  /** Filtering twice is filtering once, and objects with the same fragments
      filter to the same object. */
  lemma FilterNonUpdateableByFragments(a: ManagedObject, b: ManagedObject)
    ensures FilterNonUpdateable(FilterNonUpdateable(a)) == FilterNonUpdateable(a)
    ensures FilterNonUpdateable(a) == FilterNonUpdateable(b) <==> a.attrs == b.attrs
  {
  }
}
