/** The backend's settings (packages/backend/app/core/config.py): the
    fields with their defaults, and the validation every construction runs,
    which rejects settings whose required secrets are empty. */
module Config {
  import opened Wrappers
  import opened Text

  datatype Settings = Settings(
    host: string,
    port: int,
    debug: bool,
    environment: string,
    jwtSecretKey: string,
    jwtAlgorithm: string,
    jwtAccessTokenExpireMinutes: int,
    openEulerLoginUrl: string,
    openEulerUserInfoUrl: string,
    aiApiKey: string,
    aiBaseUrl: string,
    aiModel: string,
    aiTimeout: int,
    aiMaxRetries: int,
    allowedOrigins: seq<string>,
    logLevel: string,
    mockAuth: bool)

  /** The settings when only the two required values are supplied. */
  function WithDefaults(jwtSecretKey: string, aiApiKey: string): (s: Settings)
    ensures s.jwtSecretKey == jwtSecretKey && s.aiApiKey == aiApiKey
    ensures s.host == "0.0.0.0" && s.port == 8000 && !s.debug && s.environment == "development"
    ensures s.jwtAlgorithm == "HS256" && s.jwtAccessTokenExpireMinutes == 1440
    ensures s.openEulerLoginUrl == "https://id.openeuler.org/login"
    ensures s.openEulerUserInfoUrl == "https://id.openeuler.org/api/user/info"
    ensures s.aiBaseUrl == "https://api.openai.com/v1" && s.aiModel == "gpt-3.5-turbo"
    ensures s.aiTimeout == 30 && s.aiMaxRetries == 3
    ensures s.allowedOrigins == ["vscode-webview://*", "https://localhost:*", "http://localhost:*"]
    ensures s.logLevel == "INFO" && !s.mockAuth
  {
    Settings(
      "0.0.0.0", 8000, false, "development",
      jwtSecretKey, "HS256", 1440,
      "https://id.openeuler.org/login", "https://id.openeuler.org/api/user/info",
      aiApiKey, "https://api.openai.com/v1", "gpt-3.5-turbo", 30, 3,
      ["vscode-webview://*", "https://localhost:*", "http://localhost:*"],
      "INFO", false)
  }

  /** The fields `_validate_required_settings` checks, in the order it checks them. */
  const RequiredFields := ["JWT_SECRET_KEY", "AI_API_KEY"]

  /** `getattr(self, name)` for a required field. */
  function RequiredValue(s: Settings, name: string): string
    requires name in RequiredFields
  {
    if name == "JWT_SECRET_KEY" then s.jwtSecretKey else s.aiApiKey
  }

  /** The names among `fields` whose value is falsy, that is empty, in the
      order of `fields`. */
  function MissingAmong(s: Settings, fields: seq<string>): (r: seq<string>)
    requires forall f :: f in fields ==> f in RequiredFields
    ensures |r| <= |fields|
    ensures forall f :: f in r <==> f in fields && RequiredValue(s, f) == ""
  {
    if fields == [] then []
    else
      var last := fields[|fields| - 1];
      MissingAmong(s, fields[..|fields| - 1]) + (if RequiredValue(s, last) == "" then [last] else [])
  }

  /** The missing list of the two required fields, written out: the JWT key
      first, then the API key, each exactly when it is empty. */
  lemma MissingRequired(s: Settings)
    ensures MissingAmong(s, RequiredFields)
      == (if s.jwtSecretKey == "" then ["JWT_SECRET_KEY"] else [])
         + (if s.aiApiKey == "" then ["AI_API_KEY"] else [])
  {
    assert RequiredFields[..1] == ["JWT_SECRET_KEY"];
    assert RequiredFields[..1][..0] == [];
  }

  /** The loop of `_validate_required_settings` that collects the missing fields. */
  method MissingFields(s: Settings) returns (missing: seq<string>)
    ensures missing == MissingAmong(s, RequiredFields)
  {
    missing := [];
    for n := 0 to |RequiredFields|
      invariant missing == MissingAmong(s, RequiredFields[..n])
    {
      var field := RequiredFields[n];
      if RequiredValue(s, field) == "" {
        missing := missing + [field];
      }
      assert RequiredFields[..n + 1][..n] == RequiredFields[..n];
    }
    assert RequiredFields[..|RequiredFields|] == RequiredFields;
  }

  const MissingHead := "Missing required environment variables: "
  const MissingTail := ". Please check your .env file or environment variables."

  /** The `ValueError` message: the missing names joined by ", " between a
      fixed head and tail. */
  function MissingMessage(missing: seq<string>): (r: string)
    ensures OccursAt(MissingHead, r, 0)
    ensures OccursAt(Join(missing, ", "), r, |MissingHead|)
    ensures r[|MissingHead| + |Join(missing, ", ")|..] == MissingTail
    ensures forall k :: 0 <= k < |missing| ==> IsInfix(missing[k], r)
  {
    var list := Join(missing, ", ");
    var r := Format1(MissingHead, list, MissingTail);
    JoinMentionsEach(missing, ", ");
    forall k | 0 <= k < |missing|
      ensures IsInfix(missing[k], r)
    {
      assert OccursAt(list, r, |MissingHead|);
      InfixTransitive(missing[k], list, r);
    }
    r
  }

  /** `_validate_required_settings()`: nothing when both required values are
      set, otherwise the message naming exactly the empty ones. */
  method ValidateRequiredSettings(s: Settings) returns (error: Option<string>)
    ensures error.None? <==> s.jwtSecretKey != "" && s.aiApiKey != ""
    ensures error.Some? ==> error.value == MissingMessage(MissingAmong(s, RequiredFields))
    ensures error.Some? && s.jwtSecretKey == "" ==> IsInfix("JWT_SECRET_KEY", error.value)
    ensures error.Some? && s.aiApiKey == "" ==> IsInfix("AI_API_KEY", error.value)
  {
    var missing := MissingFields(s);
    MissingRequired(s);
    if missing != [] {
      error := Some(MissingMessage(missing));
      assert s.jwtSecretKey == "" ==> missing[0] == "JWT_SECRET_KEY";
      assert s.aiApiKey == "" ==> missing[|missing| - 1] == "AI_API_KEY";
    } else {
      error := None;
    }
  }

  /** `Settings(**kwargs)`: the populated settings pass through the
      validation, and construction fails with its message. */
  method NewSettings(s: Settings) returns (r: Result<Settings, string>)
    ensures r.Success? <==> s.jwtSecretKey != "" && s.aiApiKey != ""
    ensures r.Success? ==> r.value == s
    ensures r.Failure? ==> r.error == MissingMessage(MissingAmong(s, RequiredFields))
  {
    var error := ValidateRequiredSettings(s);
    if error.Some? {
      return Failure(error.value);
    }
    return Success(s);
  }
}
