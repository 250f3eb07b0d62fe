/**
 * `registerSchema` and `loginSchema`: the shapes the register and login
 * routes accept. Both are strict, so a body is accepted exactly when it
 * is the JSON encoding of an in-bounds record.
 */
module AuthTypes {
  import opened Wrappers
  import opened Zod

  const RegisterKeys: set<string> := {"name", "contact", "bio", "email", "password", "availabilityTime"}
  const LoginKeys: set<string> := {"email", "password"}

  datatype RegisterInput = RegisterInput(
    name: string,
    contact: string,
    bio: string,
    email: string,
    password: string,
    availabilityTime: seq<string>)

  datatype LoginInput = LoginInput(email: string, password: string)

  /** The constraints `registerSchema` puts on each field; `isEmail` stands for zod's email format check. */
  predicate RegisterBounds(d: RegisterInput, isEmail: string -> bool)
  {
    && 2 <= |d.name| <= 20
    && |d.contact| == 10
    && 2 <= |d.bio| <= 100
    && isEmail(d.email)
    && 2 <= |d.password| <= 25
    && |d.availabilityTime| == 5
    && AllLengthsIn(d.availabilityTime, 5, 20)
  }

  /** The constraints `loginSchema` puts on each field. */
  predicate LoginBounds(d: LoginInput, isEmail: string -> bool)
  {
    isEmail(d.email) && 2 <= |d.password| <= 25
  }

  /** The request body that carries exactly the given register input. */
  function EncodeRegister(d: RegisterInput): (j: Json)
    ensures j.JObj? && j.fields.Keys == RegisterKeys
  {
    JObj(map[
      "name" := JStr(d.name),
      "contact" := JStr(d.contact),
      "bio" := JStr(d.bio),
      "email" := JStr(d.email),
      "password" := JStr(d.password),
      "availabilityTime" := StrArray(d.availabilityTime)])
  }

  /** The request body that carries exactly the given login input. */
  function EncodeLogin(d: LoginInput): (j: Json)
    ensures j.JObj? && j.fields.Keys == LoginKeys
  {
    JObj(map["email" := JStr(d.email), "password" := JStr(d.password)])
  }

  /** `registerSchema.safeParse(body)`: the typed input, or None when zod reports issues. */
  function ParseRegister(body: Json, isEmail: string -> bool): (r: Option<RegisterInput>)
    ensures r.Some? ==> body.JObj? && body.fields.Keys == RegisterKeys
    ensures r.Some? ==> RegisterBounds(r.value, isEmail) && body == EncodeRegister(r.value)
  {
    if body.JObj? && body.fields.Keys == RegisterKeys then
      var m := body.fields;
      if IsStr(m["name"], 2, 20) && IsStr(m["contact"], 10, 10) && IsStr(m["bio"], 2, 100)
        && m["email"].JStr? && isEmail(m["email"].s) && IsStr(m["password"], 2, 25)
        && IsStrArray(m["availabilityTime"], 5, 20, 5, 5)
      then
        var d := RegisterInput(m["name"].s, m["contact"].s, m["bio"].s, m["email"].s,
                               m["password"].s, Texts(m["availabilityTime"].items));
        StrArrayOfTexts(m["availabilityTime"], 5, 20, 5, 5);
        assert EncodeRegister(d).fields == m;
        Some(d)
      else None
    else None
  }

  /** `loginSchema.safeParse(body)`. */
  function ParseLogin(body: Json, isEmail: string -> bool): (r: Option<LoginInput>)
    ensures r.Some? ==> body.JObj? && body.fields.Keys == LoginKeys
    ensures r.Some? ==> LoginBounds(r.value, isEmail) && body == EncodeLogin(r.value)
  {
    if body.JObj? && body.fields.Keys == LoginKeys
      && body.fields["email"].JStr? && isEmail(body.fields["email"].s)
      && IsStr(body.fields["password"], 2, 25)
    then
      var d := LoginInput(body.fields["email"].s, body.fields["password"].s);
      assert EncodeLogin(d).fields == body.fields;
      Some(d)
    else None
  }

  /** Every in-bounds register input is accepted when sent as its own encoding. */
  lemma RegisterRoundTrip(d: RegisterInput, isEmail: string -> bool)
    requires RegisterBounds(d, isEmail)
    ensures ParseRegister(EncodeRegister(d), isEmail) == Some(d)
  {
    TextsOfStrArray(d.availabilityTime, 5, 20, 5, 5);
  }

  /** Every in-bounds login input is accepted when sent as its own encoding. */
  lemma LoginRoundTrip(d: LoginInput, isEmail: string -> bool)
    requires LoginBounds(d, isEmail)
    ensures ParseLogin(EncodeLogin(d), isEmail) == Some(d)
  {
  }
}
