/** The registration form: password rules, the order of its checks, and the
    sign-in that follows a successful registration. */
module RegisterForm {
  import opened Wrappers
  import opened Types
  import opened Arrays
  import opened AuthSlice
  import opened SessionCookie

  // ----- Password requirements -----

  /** `\d` without the `u` flag: an ASCII digit. */
  predicate IsAsciiDigit(c: char) {
    '0' <= c <= '9'
  }

  predicate IsAsciiUpper(c: char) {
    'A' <= c <= 'Z'
  }

  datatype Requirement = Requirement(text: string, met: bool)

  /** The three checklist entries, in display order. */
  function Requirements(password: string): (rs: seq<Requirement>)
    ensures |rs| == 3
    ensures rs[0].met <==> |password| >= 8
    ensures rs[1].met <==> exists i :: 0 <= i < |password| && IsAsciiDigit(password[i])
    ensures rs[2].met <==> exists i :: 0 <= i < |password| && IsAsciiUpper(password[i])
  {
    [Requirement("At least 8 characters", |password| >= 8),
     Requirement("Contains a number", Any(password, IsAsciiDigit)),
     Requirement("Contains uppercase", Any(password, IsAsciiUpper))]
  }

  /** `every((req) => req.met)`. */
  predicate AllMet(rs: seq<Requirement>) {
    forall k :: 0 <= k < |rs| ==> rs[k].met
  }

  /** A password passes exactly when it is at least 8 long and has an ASCII
      digit and an A-Z letter. */
  lemma RequirementsIff(password: string)
    ensures AllMet(Requirements(password)) <==>
              |password| >= 8 &&
              (exists i :: 0 <= i < |password| && IsAsciiDigit(password[i])) &&
              (exists i :: 0 <= i < |password| && IsAsciiUpper(password[i]))
  {
    var rs := Requirements(password);
    assert AllMet(rs) <==> rs[0].met && rs[1].met && rs[2].met;
  }

  /** "Passw0rd" meets all three requirements. */
  lemma StrongPasswordPasses()
    ensures AllMet(Requirements("Passw0rd"))
  {
    RequirementsIff("Passw0rd");
    assert IsAsciiDigit("Passw0rd"[5]) && IsAsciiUpper("Passw0rd"[0]);
  }

  /** "Pass1" has a digit and a capital but is too short. */
  lemma ShortPasswordFails()
    ensures !AllMet(Requirements("Pass1"))
  {
    assert !Requirements("Pass1")[0].met;
  }

  /** The checks of `handleSubmit`, in order: the mismatch first. */
  function ValidationError(password: string, confirmPassword: string): (e: Option<string>)
    ensures password != confirmPassword ==> e == Some("Passwords do not match")
    ensures password == confirmPassword && !AllMet(Requirements(password)) ==>
              e == Some("Password does not meet requirements")
    ensures e.None? <==> password == confirmPassword && AllMet(Requirements(password))
  {
    if password != confirmPassword then Some("Passwords do not match")
    else if !AllMet(Requirements(password)) then Some("Password does not meet requirements")
    else None
  }

  // ----- Submission -----

  /** The body of the POST to /users. */
  datatype RegisterRequest = RegisterRequest(
    email: string, username: string, password: string, firstname: string, lastname: string)

  /** What the server answered: a failure (network error or a non-ok status)
      or an ok response with the `id` it returned, if any. */
  datatype RegisterResponse = Failed | Ok(resultId: Option<int>)

  const FailureMessage: string := "Registration failed. Please try again."

  /** Every input of the form has an entry. */
  predicate HasAllFields(form: map<string, string>) {
    "firstName" in form && "lastName" in form && "email" in form && "username" in form &&
    "password" in form && "confirmPassword" in form
  }

  function InitialForm(): (f: map<string, string>)
    ensures HasAllFields(f) && forall k :: k in f ==> f[k] == ""
  {
    map["firstName" := "", "lastName" := "", "email" := "", "username" := "", "password" := "",
        "confirmPassword" := ""]
  }

  /** `result.id || Date.now()`. */
  function NewUserId(resultId: Option<int>, now: nat): (id: int)
    ensures resultId.Some? && resultId.value != 0 ==> id == resultId.value
    ensures resultId.None? || resultId == Some(0) ==> id == now
  {
    if resultId.Some? && resultId.value != 0 then resultId.value else now
  }

  /** Every character is at most U+00FF, the only ones `btoa` accepts. */
  predicate IsLatin1(s: string) {
    forall i :: 0 <= i < |s| ==> s[i] as int <= 0xFF
  }

  /** `btoa`: it throws on any character above U+00FF; otherwise it gives the
      base64 text, which `base64` stands for. */
  function Btoa(text: string, base64: string -> string): (r: Option<string>)
    ensures r.None? <==> exists i :: 0 <= i < |text| && text[i] as int > 0xFF
    ensures r.Some? ==> r.value == base64(text)
  {
    if IsLatin1(text) then Some(base64(text)) else None
  }

  /** `JSON.stringify` copies a character above U+00FF into its output as it
      is, so a username holding one makes the token step throw. */
  lemma WideUsernameBreaksToken(json: string, username: string, k: nat, base64: string -> string)
    requires k + |username| <= |json| && json[k..k + |username|] == username
    requires !IsLatin1(username)
    ensures Btoa(json, base64).None?
  {
    var i :| 0 <= i < |username| && username[i] as int > 0xFF;
    assert json[k + i] == username[i];
  }

  /** The token text for "Łukasz" cannot be encoded. */
  lemma LukaszTokenFails(base64: string -> string)
    ensures Btoa("{\"userId\":1,\"username\":\"\U{0141}ukasz\"}", base64).None?
  {
    var json := "{\"userId\":1,\"username\":\"\U{0141}ukasz\"}";
    assert json[24] as int > 0xFF;
  }

  class RegisterFormState {
    var formData: map<string, string>
    var error: Option<string>
    var isSubmitting: bool

    constructor ()
      ensures formData == InitialForm() && error == None && !isSubmitting
    {
      formData := InitialForm();
      error := None;
      isSubmitting := false;
    }

    /** Any edit updates that field and clears the error. */
    method HandleInputChange(name: string, value: string)
      modifies this
      ensures formData == old(formData)[name := value] && error == None
      ensures isSubmitting == old(isSubmitting)
    {
      formData := formData[name := value];
      error := None;
    }

    /** The user record built from the form and the server's answer. */
    function NewUser(resultId: Option<int>, now: nat): (u: User)
      reads this
      requires HasAllFields(formData)
      ensures u.id == NewUserId(resultId, now) && u.email == formData["email"] && u.username == formData["username"]
      ensures u.name == Name(formData["firstName"], formData["lastName"]) && u.address.None? && u.phone.None?
    {
      User(NewUserId(resultId, now), formData["email"], formData["username"],
           Name(formData["firstName"], formData["lastName"]), None, None)
    }

    /** The fake token for an ok answer, None where `btoa` throws. */
    function TokenFor(response: RegisterResponse, now: nat, tokenJson: (int, string) -> string,
                      base64: string -> string): (r: Option<string>)
      reads this
      requires HasAllFields(formData) && response.Ok?
      ensures var user := NewUser(response.resultId, now);
              r.None? <==> !IsLatin1(tokenJson(user.id, user.username))
      ensures var user := NewUser(response.resultId, now);
              r.Some? ==> r.value == base64(tokenJson(user.id, user.username))
    {
      var user := NewUser(response.resultId, now);
      Btoa(tokenJson(user.id, user.username), base64)
    }

    /** Validates, then registers. `tokenJson` stands for
        `JSON.stringify({ userId, username })`, `base64` for the encoding
        `btoa` performs, and `encodeUser` for
        `encodeURIComponent(JSON.stringify(user))`. A thrown `btoa` is caught
        like a failed request. Returns the request sent (None when validation
        stops it), the cookies written and the navigation target. */
    method HandleSubmit(auth: AuthStore, response: RegisterResponse, now: nat,
                        tokenJson: (int, string) -> string, base64: string -> string,
                        encodeUser: User -> string)
      returns (request: Option<RegisterRequest>, cookies: seq<string>, navigate: Option<string>)
      requires HasAllFields(formData)
      modifies this, auth
      ensures !isSubmitting && formData == old(formData)
      ensures request.Some? <==> ValidationError(formData["password"], formData["confirmPassword"]).None?
      ensures request.None? ==>
                error == ValidationError(formData["password"], formData["confirmPassword"]) &&
                cookies == [] && navigate.None? &&
                auth.user == old(auth.user) && auth.token == old(auth.token) &&
                auth.isAuthenticated == old(auth.isAuthenticated) && auth.isLoading == old(auth.isLoading) &&
                auth.error == old(auth.error)
      ensures request.Some? ==>
                request.value == RegisterRequest(formData["email"], formData["username"], formData["password"],
                                                 formData["firstName"], formData["lastName"])
      ensures request.Some? && (response.Failed? || TokenFor(response, now, tokenJson, base64).None?) ==>
                error == Some(FailureMessage) && cookies == [] && navigate.None? &&
                auth.user == old(auth.user) && auth.token == old(auth.token) &&
                auth.isAuthenticated == old(auth.isAuthenticated) && auth.isLoading == old(auth.isLoading) &&
                auth.error == old(auth.error)
      ensures request.Some? && response.Ok? && TokenFor(response, now, tokenJson, base64).Some? ==>
                var user := NewUser(response.resultId, now);
                var token := TokenFor(response, now, tokenJson, base64).value;
                error == None && navigate == Some("/") &&
                cookies == [CookieAssignment("auth-token", token), CookieAssignment("user-data", encodeUser(user))] &&
                auth.user == Some(user) && auth.token == Some(token) && auth.isAuthenticated &&
                !auth.isLoading && auth.error == None
      ensures old(auth.Valid()) ==> auth.Valid()
    {
      isSubmitting := true;
      error := None;
      var validation := ValidationError(formData["password"], formData["confirmPassword"]);
      if validation.Some? {
        error := validation;
        isSubmitting := false;
        return None, [], None;
      }
      request := Some(RegisterRequest(formData["email"], formData["username"], formData["password"],
                                      formData["firstName"], formData["lastName"]));
      cookies := [];
      navigate := None;
      match response {
        case Failed =>
          error := Some(FailureMessage);
        case Ok(resultId) =>
          var user := NewUser(resultId, now);
          var token := Btoa(tokenJson(user.id, user.username), base64);
          if token.None? {
            error := Some(FailureMessage);
          } else {
            cookies := [CookieAssignment("auth-token", token.value), CookieAssignment("user-data", encodeUser(user))];
            auth.SetCredentials(Credentials(user, token.value));
            navigate := Some("/");
          }
      }
      isSubmitting := false;
    }
  }
}
