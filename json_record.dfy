/**
 * The timestamp patch of `update_json_timestamp`: the record file, once
 * loaded, is a JSON value whose top-level object has its `modified` member
 * set to a new timestamp string, in place, as a Python dict assignment does.
 * Objects are member lists in file order, so the key order is part of the model.
 */
module JsonRecord {
  import opened Wrappers

  datatype Json =
    | JNull
    | JBool(b: bool)
    | JNumber(n: int)
    | JString(s: string)
    | JArray(items: seq<Json>)
    | JObject(members: seq<Member>)

  datatype Member = Member(key: string, value: Json)

  /** The member that the patch rewrites. */
  const ModifiedField: string := "modified"

  /** The keys of an object's members, in order. */
  function Keys(ms: seq<Member>): (ks: seq<string>)
    ensures |ks| == |ms|
    ensures forall i :: 0 <= i < |ms| ==> ks[i] == ms[i].key
  {
    if ms == [] then [] else [ms[0].key] + Keys(ms[1..])
  }

  /** No key occurs twice, as in every loaded Python dict. */
  predicate DistinctKeys(ms: seq<Member>)
  {
    forall i, j :: 0 <= i < j < |ms| ==> ms[i].key != ms[j].key
  }

  /** `obj[k]`: the value of the first member with key `k`, None when there is none. */
  function Lookup(ms: seq<Member>, k: string): (r: Option<Json>)
    ensures r.None? <==> k !in Keys(ms)
  {
    if ms == [] then None
    else if ms[0].key == k then Some(ms[0].value)
    else
      var r := Lookup(ms[1..], k);
      assert Keys(ms) == [ms[0].key] + Keys(ms[1..]);
      r
  }

  /**
   * `obj[k] = v`: an existing key keeps its position and gets the new value;
   * a new key is appended at the end. Every other member stays where it was.
   */
  function SetMember(ms: seq<Member>, k: string, v: Json): (r: seq<Member>)
    ensures Keys(r) == if k in Keys(ms) then Keys(ms) else Keys(ms) + [k]
    ensures forall i :: 0 <= i < |ms| && ms[i].key != k ==> r[i] == ms[i]
  {
    if ms == [] then [Member(k, v)]
    else if ms[0].key == k then [Member(k, v)] + ms[1..]
    else
      var tail := SetMember(ms[1..], k, v);
      var r := [ms[0]] + tail;
      assert Keys(ms) == [ms[0].key] + Keys(ms[1..]);
      assert Keys(r) == [ms[0].key] + Keys(tail);
      r
  }

  /** After `obj[k] = v`, `obj[k]` is `v` and every other key reads as before. */
  lemma {:induction false} SetMemberLookup(ms: seq<Member>, k: string, v: Json)
    ensures Lookup(SetMember(ms, k, v), k) == Some(v)
    ensures forall k' :: k' != k ==> Lookup(SetMember(ms, k, v), k') == Lookup(ms, k')
  {
    if ms != [] && ms[0].key != k {
      SetMemberLookup(ms[1..], k, v);
      var r := SetMember(ms, k, v);
      assert r == [ms[0]] + SetMember(ms[1..], k, v);
      assert r[1..] == SetMember(ms[1..], k, v);
    } else if ms != [] {
      var r := SetMember(ms, k, v);
      assert r[1..] == ms[1..];
    }
  }

  /** Setting a member keeps the keys distinct. */
  lemma SetMemberKeepsKeysDistinct(ms: seq<Member>, k: string, v: Json)
    ensures DistinctKeys(ms) ==> DistinctKeys(SetMember(ms, k, v))
  {
    if !DistinctKeys(ms) {
      return;
    }
    var r := SetMember(ms, k, v);
    var ks, rs := Keys(ms), Keys(r);
    forall i, j | 0 <= i < j < |r| ensures r[i].key != r[j].key {
      assert rs[i] == r[i].key && rs[j] == r[j].key;
      if j == |ms| {
        assert k !in ks;
        assert ks[i] == rs[i];
      } else {
        assert ks[i] == rs[i] && ks[j] == rs[j];
      }
    }
  }

  /**
   * The whole patch on a loaded record: a top-level object gets its
   * `modified` member set to the timestamp. Anything else (a failed read or
   * parse, given as None, or a top-level value that is not an object, on
   * which item assignment raises) makes the patch fail, and nothing is written.
   */
  function PatchTimestamp(loaded: Option<Json>, stamp: string): (written: Option<Json>)
    ensures written.Some? <==> loaded.Some? && loaded.value.JObject?
    ensures written.Some? ==>
      && written.value.JObject?
      && Lookup(written.value.members, ModifiedField) == Some(JString(stamp))
      && (forall k :: k != ModifiedField ==>
            Lookup(written.value.members, k) == Lookup(loaded.value.members, k))
      && Keys(written.value.members) ==
           if ModifiedField in Keys(loaded.value.members) then Keys(loaded.value.members)
           else Keys(loaded.value.members) + [ModifiedField]
    ensures written.Some? && DistinctKeys(loaded.value.members) ==> DistinctKeys(written.value.members)
  {
    match loaded
    case Some(JObject(ms)) =>
      SetMemberLookup(ms, ModifiedField, JString(stamp));
      SetMemberKeepsKeysDistinct(ms, ModifiedField, JString(stamp));
      Some(JObject(SetMember(ms, ModifiedField, JString(stamp))))
    case _ => None
  }
}
