/**
 * `userUpdateSchema`: every field optional, no keys beyond the four
 * profile fields, and at least one key present.
 */
module UserTypes {
  import opened Wrappers
  import opened Zod

  const UpdateKeys: set<string> := {"name", "contact", "bio", "availabilityTime"}

  /** A validated profile update; None marks a field the body did not carry. */
  datatype UserUpdate = UserUpdate(
    name: Option<string>,
    contact: Option<string>,
    bio: Option<string>,
    availabilityTime: Option<seq<string>>)

  /** The constraints `userUpdateSchema` puts on a present field, and the refinement that some field is present. */
  predicate UpdateBounds(d: UserUpdate)
  {
    && (d.name.Some? || d.contact.Some? || d.bio.Some? || d.availabilityTime.Some?)
    && (d.name.Some? ==> 2 <= |d.name.value| <= 20)
    && (d.contact.Some? ==> |d.contact.value| == 10)
    && (d.bio.Some? ==> 2 <= |d.bio.value| <= 100)
    && (d.availabilityTime.Some? ==>
          1 <= |d.availabilityTime.value| <= 7 && AllLengthsIn(d.availabilityTime.value, 1, 20))
  }

  /** The keys of the update's encoding: the fields it carries. */
  function PresentKeys(d: UserUpdate): (ks: set<string>)
    ensures ks <= UpdateKeys
  {
    (if d.name.Some? then {"name"} else {}) +
    (if d.contact.Some? then {"contact"} else {}) +
    (if d.bio.Some? then {"bio"} else {}) +
    (if d.availabilityTime.Some? then {"availabilityTime"} else {})
  }

  function With(m: map<string, Json>, key: string, v: Option<Json>): map<string, Json>
  {
    if v.Some? then m[key := v.value] else m
  }

  /** The request body that carries exactly the present fields of the update. */
  function EncodeUpdate(d: UserUpdate): (j: Json)
    ensures j.JObj? && j.fields.Keys == PresentKeys(d)
  {
    var m0 := With(map[], "name", if d.name.Some? then Some(JStr(d.name.value)) else None);
    var m1 := With(m0, "contact", if d.contact.Some? then Some(JStr(d.contact.value)) else None);
    var m2 := With(m1, "bio", if d.bio.Some? then Some(JStr(d.bio.value)) else None);
    JObj(With(m2, "availabilityTime",
              if d.availabilityTime.Some? then Some(StrArray(d.availabilityTime.value)) else None))
  }

  /** `.optional()` on a string field: absent, or a string of the allowed length. */
  predicate OptStr(m: map<string, Json>, key: string, lo: nat, hi: nat)
  {
    key in m ==> IsStr(m[key], lo, hi)
  }

  function OptText(m: map<string, Json>, key: string): (r: Option<string>)
    ensures r.Some? <==> key in m && m[key].JStr?
  {
    if key in m && m[key].JStr? then Some(m[key].s) else None
  }

  /** `userUpdateSchema.safeParse(body)`. */
  function ParseUpdate(body: Json): (r: Option<UserUpdate>)
    ensures r.Some? ==> body.JObj? && body.fields.Keys != {} && body.fields.Keys <= UpdateKeys
    ensures r.Some? ==> UpdateBounds(r.value) && body == EncodeUpdate(r.value)
  {
    if body.JObj? && body.fields.Keys <= UpdateKeys && body.fields.Keys != {}
      && OptStr(body.fields, "name", 2, 20) && OptStr(body.fields, "contact", 10, 10)
      && OptStr(body.fields, "bio", 2, 100)
      && ("availabilityTime" in body.fields ==> IsStrArray(body.fields["availabilityTime"], 1, 20, 1, 7))
    then
      var m := body.fields;
      var times := if "availabilityTime" in m then Some(Texts(m["availabilityTime"].items)) else None;
      var d := UserUpdate(OptText(m, "name"), OptText(m, "contact"), OptText(m, "bio"), times);
      assert EncodeUpdate(d).fields == m && UpdateBounds(d) by {
        if "availabilityTime" in m {
          StrArrayOfTexts(m["availabilityTime"], 1, 20, 1, 7);
        }
      }
      Some(d)
    else None
  }

  /** Every in-bounds update is accepted when sent as its own encoding. */
  lemma UpdateRoundTrip(d: UserUpdate)
    requires UpdateBounds(d)
    ensures ParseUpdate(EncodeUpdate(d)) == Some(d)
  {
    var m := EncodeUpdate(d).fields;
    if d.availabilityTime.Some? {
      TextsOfStrArray(d.availabilityTime.value, 1, 20, 1, 7);
    }
    assert OptText(m, "name") == d.name;
    assert OptText(m, "contact") == d.contact;
    assert OptText(m, "bio") == d.bio;
  }

  /** An accepted update never carries `email`, `password` or `role`. */
  lemma UpdateNeverCarriesCredentials(body: Json)
    requires ParseUpdate(body).Some?
    ensures "email" !in body.fields && "password" !in body.fields && "role" !in body.fields
  {
  }
}
