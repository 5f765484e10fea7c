/** JSON merge patch (RFC 7396, section 2) as `_merge` and `_touches` of
    anvil_events/reconciliation/json_merge_adapter.py compute it. */
module JsonMerge {
  import opened Basics

  datatype JSON =
    | Null
    | Bool(truth: bool)
    | Number(value: real)
    | String(text: string)
    | Array(items: seq<JSON>)
    | Object(fields: map<string, JSON>)

  type Path = seq<string>

  /** The members of an object; anything else has none. */
  function Fields(j: JSON): map<string, JSON> {
    if j.Object? then j.fields else map[]
  }

  /** The member `key`, with null for a missing one as `dict.get` has it. */
  function Get(j: JSON, key: string): JSON {
    if key in Fields(j) then Fields(j)[key] else Null
  }

  /** The value at a path through objects, if there is one. */
  function Lookup(j: JSON, path: Path): Option<JSON> {
    if path == [] then Some(j)
    else if path[0] !in Fields(j) then None
    else Lookup(Fields(j)[path[0]], path[1..])
  }

  /** The MergePatch of section 2 of RFC 7396. */
  function MergePatch(target: JSON, patch: JSON): JSON
    decreases patch
  {
    if !patch.Object? then patch
    else
      var base := Fields(target);
      Object(map key | key in base.Keys + patch.fields.Keys && !(key in patch.fields && patch.fields[key].Null?) ::
        if key in patch.fields
        then MergePatch(if key in base then base[key] else Null, patch.fields[key])
        else base[key])
  }

  /** The recursion of the original; the loop takes the members of the patch in any order. */
  method Merge(document: JSON, patch: JSON) returns (result: map<string, JSON>)
    requires patch.Object?
    ensures Object(result) == MergePatch(document, patch)
    decreases patch
  {
    var base := if document.Object? then document.fields else map[];
    result := base;
    var todo := patch.fields.Keys;
    while todo != {}
      invariant todo <= patch.fields.Keys
      invariant forall key :: key in todo || key !in patch.fields ==>
                  (key in result <==> key in base) && (key in base ==> result[key] == base[key])
      invariant forall key :: key in patch.fields && key !in todo ==>
                  (key in result <==> !patch.fields[key].Null?)
                  && (key in result ==> result[key] == MergePatch(Get(document, key), patch.fields[key]))
      decreases todo
    {
      var key :| key in todo;
      var value := patch.fields[key];
      if value.Null? {
        result := result - {key};
      } else if value.Object? {
        var merged := Merge(if key in result then result[key] else Null, value);
        result := result[key := Object(merged)];
      } else {
        result := result[key := value];
      }
      todo := todo - {key};
    }
  }

  // ---------------------------------------------------------------------------------
  // Verification is a fixed-point test
  // ---------------------------------------------------------------------------------

  lemma {:induction false} MergeIdempotent(target: JSON, patch: JSON)
    ensures MergePatch(MergePatch(target, patch), patch) == MergePatch(target, patch)
    decreases patch
  {
    if !patch.Object? {
    } else {
      var once := MergePatch(target, patch);
      forall key | key in patch.fields && !patch.fields[key].Null?
        ensures MergePatch(once.fields[key], patch.fields[key]) == once.fields[key]
      {
        MergeIdempotent(Get(target, key), patch.fields[key]);
      }
    }
  }

  /** What a path of the patch asks of the document: null asks for absence, an object for an
      object, any other value for itself. */
  ghost predicate Met(document: JSON, patch: JSON, path: Path) {
    match Lookup(patch, path)
    case None => true
    case Some(Null) => Lookup(document, path) == None
    case Some(Object(_)) => Lookup(document, path).Some? && Lookup(document, path).value.Object?
    case Some(value) => Lookup(document, path) == Some(value)
  }

  ghost predicate AllMet(document: JSON, patch: JSON) {
    forall path :: path != [] ==> Met(document, patch, path)
  }

  lemma LookupMember(j: JSON, key: string)
    ensures Lookup(j, [key]) == if key in Fields(j) then Some(Fields(j)[key]) else None
  {
    assert [key][1..] == [];
  }

  lemma {:induction false} FixedPointMeets(document: JSON, patch: JSON, path: Path)
    requires document.Object? && patch.Object? && MergePatch(document, patch) == document && path != []
    ensures Met(document, patch, path)
    decreases |path|
  {
    var key, rest := path[0], path[1..];
    if rest == [] {
      assert path == [key];
      LookupMember(patch, key);
      LookupMember(document, key);
      assert key in patch.fields && patch.fields[key].Null? ==> key !in document.fields;
      assert key in patch.fields && !patch.fields[key].Null? ==>
        document.fields[key] == MergePatch(document.fields[key], patch.fields[key]);
    } else if key in patch.fields && patch.fields[key].Object? {
      assert key in document.fields;
      assert document.fields[key] == MergePatch(document.fields[key], patch.fields[key]);
      FixedPointMeets(document.fields[key], patch.fields[key], rest);
    }
  }

  lemma {:induction false} MeetsIsFixedPoint(document: JSON, patch: JSON)
    requires document.Object? && patch.Object? && AllMet(document, patch)
    ensures MergePatch(document, patch) == document
    decreases patch
  {
    forall key | key in patch.fields
      ensures patch.fields[key].Null? ==> key !in document.fields
      ensures !patch.fields[key].Null? ==>
                key in document.fields && MergePatch(document.fields[key], patch.fields[key]) == document.fields[key]
    {
      var value := patch.fields[key];
      LookupMember(patch, key);
      LookupMember(document, key);
      assert Met(document, patch, [key]);
      if value.Object? {
        forall path: Path | path != []
          ensures Met(document.fields[key], value, path)
        {
          assert ([key] + path)[1..] == path;
          assert Met(document, patch, [key] + path);
        }
        MeetsIsFixedPoint(document.fields[key], value);
      }
    }
    var merged := MergePatch(document, patch).fields;
    forall key
      ensures (key in merged <==> key in document.fields) && (key in merged ==> merged[key] == document.fields[key])
    {
    }
    assert merged == document.fields;
  }

  /** The test of `verify` holds exactly when every path of the patch is met. */
  lemma VerifyMeansMet(document: JSON, patch: JSON)
    requires document.Object? && patch.Object?
    ensures MergePatch(document, patch) == document <==> AllMet(document, patch)
  {
    if MergePatch(document, patch) == document {
      forall path: Path | path != []
        ensures Met(document, patch, path)
      {
        FixedPointMeets(document, patch, path);
      }
    }
    if AllMet(document, patch) {
      MeetsIsFixedPoint(document, patch);
    }
  }

  // ---------------------------------------------------------------------------------
  // Protected paths
  // ---------------------------------------------------------------------------------

  ghost predicate Touches(path: Path, patch: JSON) {
    if path == [] then true
    else if path[0] !in Fields(patch) then false
    else
      var value := Fields(patch)[path[0]];
      (|path| > 1 && !value.Object?) || Touches(path[1..], value)
  }

  method TouchesPath(path: Path, patch: JSON) returns (touched: bool)
    ensures touched == Touches(path, patch)
  {
    var current := patch;
    for index := 0 to |path|
      invariant Touches(path, patch) == Touches(path[index..], current)
    {
      var segment := path[index];
      assert path[index..][1..] == path[index + 1..];
      if !current.Object? || segment !in current.fields {
        return false;
      }
      current := current.fields[segment];
      if index < |path| - 1 && !current.Object? {
        return true;
      }
    }
    return true;
  }

  /** An untouched path keeps its value or its absence under every merge. */
  lemma {:induction false} UntouchedIsKept(path: Path, document: JSON, patch: JSON)
    requires path != [] && patch.Object? && !Touches(path, patch)
    ensures Lookup(MergePatch(document, patch), path) == Lookup(document, path)
    decreases |path|
  {
    var key, rest := path[0], path[1..];
    if key in patch.fields {
      UntouchedIsKept(rest, Get(document, key), patch.fields[key]);
    }
  }

  /** A document in which the path holds `true`. */
  function Nest(path: Path): JSON {
    if path == [] then Bool(true) else Object(map[path[0] := Nest(path[1..])])
  }

  lemma {:induction false} NestHolds(path: Path)
    ensures Lookup(Nest(path), path) == Some(Bool(true))
  {
    if path == [] {
    } else {
      NestHolds(path[1..]);
    }
  }

  /** A document whose value at a touched path the patch changes. */
  ghost function Exposed(path: Path, patch: JSON): (document: JSON)
    requires path != [] && patch.Object? && Touches(path, patch)
    ensures document.Object?
  {
    var value := patch.fields[path[0]];
    if |path| == 1 then
      if value.Null? then Object(map[path[0] := Bool(true)])
      else if value.Object? then Object(map[path[0] := Null])
      else Object(map[])
    else if value.Object? then Object(map[path[0] := Exposed(path[1..], value)])
    else Nest(path)
  }

  lemma {:induction false} ExposedIsChanged(path: Path, patch: JSON)
    requires path != [] && patch.Object? && Touches(path, patch)
    ensures Lookup(MergePatch(Exposed(path, patch), patch), path) != Lookup(Exposed(path, patch), path)
    decreases |path|
  {
    var value := patch.fields[path[0]];
    if |path| <= 1 {
    } else {
      if value.Object? {
        ExposedIsChanged(path[1..], value);
      } else {
        NestHolds(path);
      }
    }
  }

  ghost predicate KeepsPath(path: Path, patch: JSON) {
    forall document: JSON :: Lookup(MergePatch(document, patch), path) == Lookup(document, path)
  }

  /** `_touches` is exact: it refuses a patch if and only if some document would notice at that path. */
  lemma TouchesIsExact(path: Path, patch: JSON)
    requires path != [] && patch.Object?
    ensures Touches(path, patch) <==> !KeepsPath(path, patch)
  {
    if Touches(path, patch) {
      ExposedIsChanged(path, patch);
    } else {
      forall document: JSON
        ensures Lookup(MergePatch(document, patch), path) == Lookup(document, path)
      {
        UntouchedIsKept(path, document, patch);
      }
    }
  }
}
