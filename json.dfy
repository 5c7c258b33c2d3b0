/** A JSON document as serde_json's `Value` holds it, and the JSON Merge Patch
    algorithm of section 2 of RFC 7396 that `json_patch::merge` implements and
    the configuration loader applies to the override document. */
module Json {

  /** JSON numbers are modelled as integers only (see the README). Object keys
      are unique, as in serde_json's map. */
  datatype Json =
    | Null
    | Bool(b: bool)
    | Number(n: int)
    | String(s: string)
    | Array(items: seq<Json>)
    | Object(members: map<string, Json>)

  /** The members a merge starts from: a target that is not an object is
      replaced by the empty object before any patch member is applied. */
  function BaseMembers(target: Json): map<string, Json> {
    if target.Object? then target.members else map[]
  }

  /** The current value of key `k` in `m`, where an absent key reads as `null`
      (`map.entry(key).or_insert(Value::Null)`). */
  function MemberOrNull(m: map<string, Json>, k: string): Json {
    if k in m then m[k] else Null
  }

  /** MergePatch(Target, Patch) of section 2 of RFC 7396: a non-object patch
      replaces the target wholesale (arrays included); an object patch turns
      the target into an object, deletes every key whose patch value is
      `null`, and merges every other patch member recursively into the
      target's member of the same name. */
  function MergePatch(target: Json, patch: Json): (r: Json)
    ensures r.Object? <==> patch.Object?
    decreases patch
  {
    match patch
    case Object(p) =>
      var base := BaseMembers(target);
      Object(map k | k in base.Keys + p.Keys && !(k in p && p[k].Null?) ::
               if k in p then MergePatch(MemberOrNull(base, k), p[k]) else base[k])
    case _ => patch
  }

  /** A patch that is not an object (a string, a number, an array, `null`, ...)
      is the result, whatever the target was. */
  lemma MergeReplacesWithNonObject(target: Json, patch: Json)
    requires !patch.Object?
    ensures MergePatch(target, patch) == patch
  {
  }

  /** A `null` member of an object patch removes that key from the result. */
  lemma MergeDeletesNullMember(target: Json, patch: Json, k: string)
    requires patch.Object? && k in patch.members && patch.members[k] == Null
    ensures k !in MergePatch(target, patch).members
  {
  }

  /** A non-null member of an object patch is present in the result, holding
      the merge of the target's member (or `null`) with the patch member. */
  lemma MergeRecursesIntoMember(target: Json, patch: Json, k: string)
    requires patch.Object? && k in patch.members && !patch.members[k].Null?
    ensures k in MergePatch(target, patch).members
    ensures MergePatch(target, patch).members[k]
            == MergePatch(MemberOrNull(BaseMembers(target), k), patch.members[k])
  {
  }

  /** Keys an object patch does not mention keep the target's value. */
  lemma MergeKeepsUnmentionedMember(target: Json, patch: Json, k: string)
    requires target.Object? && patch.Object? && k !in patch.members
    ensures k in MergePatch(target, patch).members <==> k in target.members
    ensures k in target.members ==> MergePatch(target, patch).members[k] == target.members[k]
  {
  }

  /** An object patch ignores a target that is not an object: the result is the
      patch merged into the empty object. */
  lemma MergeIgnoresNonObjectTarget(target: Json, patch: Json)
    requires patch.Object? && !target.Object?
    ensures MergePatch(target, patch) == MergePatch(Object(map[]), patch)
  {
  }

  /** The empty object patch leaves an object unchanged. */
  lemma MergeEmptyPatchIsIdentity(target: Json)
    requires target.Object?
    ensures MergePatch(target, Object(map[])) == target
  {
    var r := MergePatch(target, Object(map[]));
    assert r.members.Keys == target.members.Keys;
  }

  /** Applying the same patch twice is the same as applying it once. */
  lemma {:induction false} MergeIsIdempotent(target: Json, patch: Json)
    ensures MergePatch(MergePatch(target, patch), patch) == MergePatch(target, patch)
    decreases patch
  {
    match patch
    case Object(p) =>
      var once := MergePatch(target, patch);
      var twice := MergePatch(once, patch);
      assert twice.members.Keys == once.members.Keys;
      forall k | k in once.members
        ensures twice.members[k] == once.members[k]
      {
        if k in p {
          MergeIsIdempotent(MemberOrNull(BaseMembers(target), k), p[k]);
        }
      }
    case _ =>
  }
}
