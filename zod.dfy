/**
 * The request bodies the routers validate, and the pieces of zod's
 * semantics the schemas use: type checks, string-length bounds,
 * array-length bounds and `.strict()` key sets.
 */
module Zod {

  /** A parsed JSON request body. JSON numbers are modelled as integers. */
  datatype Json =
    | JNull
    | JBool(b: bool)
    | JNum(n: int)
    | JStr(s: string)
    | JArr(items: seq<Json>)
    | JObj(fields: map<string, Json>)

  /** The schemas whose failed `safeParse` the routers forward. */
  datatype Schema = RegisterSchema | LoginSchema | UserUpdateSchema | SendNotificationSchema

  /**
   * A failed `safeParse`: the schema and the body it rejected. The issue
   * list zod derives from the two is not modelled.
   */
  datatype ZodError = ZodError(schema: Schema, input: Json)

  /** `z.string().min(lo).max(hi)` */
  predicate IsStr(j: Json, lo: nat, hi: nat)
  {
    j.JStr? && lo <= |j.s| <= hi
  }

  /** `z.array(z.string().min(lo).max(hi)).min(minLen).max(maxLen)` */
  predicate IsStrArray(j: Json, lo: nat, hi: nat, minLen: nat, maxLen: nat)
  {
    j.JArr? && minLen <= |j.items| <= maxLen &&
    forall i :: 0 <= i < |j.items| ==> IsStr(j.items[i], lo, hi)
  }

  /** `z.array(z.number()).min(minLen)` */
  predicate IsNumArray(j: Json, minLen: nat)
  {
    j.JArr? && minLen <= |j.items| &&
    forall i :: 0 <= i < |j.items| ==> j.items[i].JNum?
  }

  /** The strings held by an array of JSON strings. */
  function Texts(items: seq<Json>): (ss: seq<string>)
    requires forall i :: 0 <= i < |items| ==> items[i].JStr?
    ensures |ss| == |items|
    ensures forall i :: 0 <= i < |ss| ==> items[i] == JStr(ss[i])
  {
    seq(|items|, i requires 0 <= i < |items| => items[i].s)
  }

  /** The JSON array of the given strings. */
  function StrArray(ss: seq<string>): (j: Json)
    ensures j.JArr? && |j.items| == |ss|
    ensures forall i :: 0 <= i < |ss| ==> j.items[i] == JStr(ss[i])
  {
    JArr(seq(|ss|, i requires 0 <= i < |ss| => JStr(ss[i])))
  }

  /** The numbers held by an array of JSON numbers. */
  function Numbers(items: seq<Json>): (ns: seq<int>)
    requires forall i :: 0 <= i < |items| ==> items[i].JNum?
    ensures |ns| == |items|
    ensures forall i :: 0 <= i < |ns| ==> items[i] == JNum(ns[i])
  {
    seq(|items|, i requires 0 <= i < |items| => items[i].n)
  }

  /** The JSON array of the given numbers. */
  function NumArray(ns: seq<int>): (j: Json)
    ensures j.JArr? && |j.items| == |ns|
    ensures forall i :: 0 <= i < |ns| ==> j.items[i] == JNum(ns[i])
  {
    JArr(seq(|ns|, i requires 0 <= i < |ns| => JNum(ns[i])))
  }

  /** Every string in the sequence has a length in `lo..hi`. */
  predicate AllLengthsIn(ss: seq<string>, lo: nat, hi: nat)
  {
    forall i :: 0 <= i < |ss| ==> lo <= |ss[i]| <= hi
  }

  lemma StrArrayOfTexts(j: Json, lo: nat, hi: nat, minLen: nat, maxLen: nat)
    requires IsStrArray(j, lo, hi, minLen, maxLen)
    ensures StrArray(Texts(j.items)) == j
    ensures minLen <= |Texts(j.items)| <= maxLen && AllLengthsIn(Texts(j.items), lo, hi)
  {
    assert StrArray(Texts(j.items)).items == j.items;
  }

  lemma TextsOfStrArray(ss: seq<string>, lo: nat, hi: nat, minLen: nat, maxLen: nat)
    requires minLen <= |ss| <= maxLen && AllLengthsIn(ss, lo, hi)
    ensures IsStrArray(StrArray(ss), lo, hi, minLen, maxLen)
    ensures Texts(StrArray(ss).items) == ss
  {
  }

  lemma NumArrayOfNumbers(j: Json, minLen: nat)
    requires IsNumArray(j, minLen)
    ensures NumArray(Numbers(j.items)) == j && minLen <= |Numbers(j.items)|
  {
    assert NumArray(Numbers(j.items)).items == j.items;
  }

  lemma NumbersOfNumArray(ns: seq<int>, minLen: nat)
    requires minLen <= |ns|
    ensures IsNumArray(NumArray(ns), minLen)
    ensures Numbers(NumArray(ns).items) == ns
  {
  }
}
