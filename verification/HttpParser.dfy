/** Reading the JSON body of a request (src/http_parser.c). */
module HttpParser {
  import opened Common
  import opened Validators

  datatype JsonValue = JsonString(s: string) | JsonInt(n: int) | JsonOther

  /** The members of the body's object; a body that is valid JSON but no object
      has no members. */
  type Json = map<string, JsonValue>

  datatype Parsed =
    | Rejected(code: int)
    | NewSession(user: string)
    | Submit(user: string, passwd: string, salt: string)

  /** A name as the rest of the daemon sees it. */
  predicate CleanUser(user: string) {
    UsernameOk(user) && forall i :: 0 <= i < |user| ==> !IsUpper(user[i])
  }

  predicate StringMember(json: Json, name: string) {
    name in json && json[name].JsonString?
  }

  function SaltName(ty: PostType): string {
    TypeStr(ty) + "_salt"
  }

  function ParseSession(ty: PostType, body: Option<Json>): (p: Parsed)
    ensures p.NewSession? ==> CleanUser(p.user)
    ensures p.Submit? ==> CleanUser(p.user) && HexOk(p.passwd, PASSWD_LEN) && HexOk(p.salt, SALT_LEN)
  {
    if body.None? then Rejected(123015)
    else
      var json := body.value;
      if "ver" !in json || !json["ver"].JsonInt? then Rejected(123020)
      else if !StringMember(json, "username") then Rejected(123030)
      else
        var user := Lowered(json["username"].s);
        if !UsernameOk(user) then Rejected(123033)
        else if !StringMember(json, "passwd") && !StringMember(json, SaltName(ty)) then NewSession(user)
        else if !StringMember(json, "passwd") || !StringMember(json, SaltName(ty)) then Rejected(123040)
        else if |json| > 4 then Rejected(123050)
        else if !HexOk(json["passwd"].s, PASSWD_LEN) then Rejected(123060)
        else if !HexOk(json[SaltName(ty)].s, SALT_LEN) then Rejected(123070)
        else Submit(user, json["passwd"].s, json[SaltName(ty)].s)
  }

  /** The request record the parser fills, field by field. */
  class SessionRequest {
    var ver: int
    var username: Option<string>
    var passwd: Option<string>
    var signupSalt: Option<string>

    constructor ()
      ensures ver == 0 && username.None? && passwd.None? && signupSalt.None?
    {
      ver, username, passwd, signupSalt := 0, None, None, None;
    }

    /** What a parsed request holds, read back from its fields. */
    function Contents(): Parsed
      reads this
    {
      if username.None? then Rejected(0)
      else if passwd.Some? && signupSalt.Some? then Submit(username.value, passwd.value, signupSalt.value)
      else if passwd.None? && signupSalt.None? then NewSession(username.value)
      else Rejected(0)
    }

    /** The C function is declared bool, so every error code reaches the caller as 1. */
    method Parse(ty: PostType, body: Option<Json>) returns (rt: int)
      requires username.None? && passwd.None? && signupSalt.None?
      modifies this
      ensures rt == 0 || rt == 1
      ensures rt == 1 <==> ParseSession(ty, body).Rejected?
      ensures rt == 0 ==> Contents() == ParseSession(ty, body) && ver == body.value["ver"].n
      ensures rt == 0 ==> (passwd.Some? <==> signupSalt.Some?)
    {
      if body.None? { return 1; }
      var json := body.value;
      if "ver" !in json || !json["ver"].JsonInt? { return 1; }
      ver := json["ver"].n;
      if !StringMember(json, "username") { return 1; }
      var raw := json["username"].s;
      var buf := new char[|raw|](i requires 0 <= i < |raw| => raw[i]);
      assert buf[..] == raw;
      LowercaseInPlace(buf);
      username := Some(buf[..]);
      var ok := ValidateUsername(buf[..]);
      if !ok { return 1; }
      if !StringMember(json, "passwd") && !StringMember(json, SaltName(ty)) { return 0; }
      if !StringMember(json, "passwd") || !StringMember(json, SaltName(ty)) { return 1; }
      if |json| > 4 { return 1; }
      passwd := Some(json["passwd"].s);
      signupSalt := Some(json[SaltName(ty)].s);
      ok := ValidateHex(json["passwd"].s, PASSWD_LEN);
      if !ok { return 1; }
      ok := ValidateHex(json[SaltName(ty)].s, SALT_LEN);
      if !ok { return 1; }
      return 0;
    }
  }

  // ----- What is accepted, for every body -----

  /** The body has an integer version and this name, in letters of either case. */
  predicate Names(json: Json, user: string) {
    && "ver" in json && json["ver"].JsonInt?
    && "username" in json && json["username"].JsonString?
    && var raw := json["username"].s;
       && |user| == |raw| && NameChars(user)
       && forall i :: 0 <= i < |raw| ==>
            if 'A' <= raw[i] <= 'Z' then user[i] as int == raw[i] as int + 32 else user[i] == raw[i]
  }

  function SaltMember(ty: PostType): string {
    match ty case Signup => "signup_salt" case Login => "login_salt" case Admin => "admin_salt"
  }

  lemma NamesIs(json: Json, user: string)
    ensures Names(json, user) <==>
              && "ver" in json && json["ver"].JsonInt? && StringMember(json, "username")
              && user == Lowered(json["username"].s) && UsernameOk(user)
  {
    if StringMember(json, "username") && |user| == |json["username"].s| {
      var raw := json["username"].s;
      if Names(json, user) {
        forall i | 0 <= i < |raw| ensures user[i] == Lowered(raw)[i] {
          if 'A' <= raw[i] <= 'Z' { assert (raw[i] as int + 32) as char == user[i]; }
        }
      }
    }
  }

  /** Which bodies ask for a session and which submit one: for every body, exactly these. */
  lemma ParsedExactly(ty: PostType, body: Option<Json>, user: string, passwd: string, salt: string)
    ensures ParseSession(ty, body) == NewSession(user)
       <==> body.Some? && Names(body.value, user)
            && !StringMember(body.value, "passwd") && !StringMember(body.value, SaltMember(ty))
    ensures ParseSession(ty, body) == Submit(user, passwd, salt)
       <==> body.Some? && Names(body.value, user) && |body.value| <= 4
            && "passwd" in body.value && body.value["passwd"] == JsonString(passwd) && HexChars(passwd, 64)
            && SaltMember(ty) in body.value && body.value[SaltMember(ty)] == JsonString(salt) && HexChars(salt, 32)
  {
    hide Names, UsernameOk, HexOk, HexChars;
    assert SaltName(ty) == SaltMember(ty);
    if body.Some? {
      NamesIs(body.value, user);
      HexIs(passwd, 64);
      HexIs(salt, 32);
    }
  }

  lemma HexIs(s: string, n: nat)
    ensures HexOk(s, n) <==> HexChars(s, n)
  {
  }
}
