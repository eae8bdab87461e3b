/**
 * The settings validator of `config.py`: environment lookups with required
 * and optional variables, the restoration of escaped newlines in a PEM
 * private key, reading `BoxSettings` from the environment, and the checks
 * `build_client` makes before it builds a client.
 *
 * The process environment is an explicit map from variable names to values;
 * every `ValueError` the source raises is a `Failure` carrying a `ConfigError`.
 */
module Config {
  import opened Wrappers
  import opened Strings

  /** The process environment, after any `.env` file has been loaded into it. */
  type Env = map<string, string>

  /** Why reading the settings or building a client raised `ValueError`. */
  datatype ConfigError =
    | Missing(name: string)        // a required variable is unset or empty
    | NotAnInteger(text: string)   // `int()` rejected the value of BOX_MAX_RETRIES
    | NoIdentity                   // neither an enterprise id nor an app user id
    | IncompleteJwt                // a JWT credential is missing or empty

  const DeveloperTokenVar := "BOX_DEVELOPER_TOKEN"
  const ClientIdVar := "BOX_CLIENT_ID"
  const ClientSecretVar := "BOX_CLIENT_SECRET"
  const EnterpriseIdVar := "BOX_ENTERPRISE_ID"
  const PrivateKeyVar := "BOX_JWT_PRIVATE_KEY"
  const PassphraseVar := "BOX_JWT_PASSPHRASE"
  const KeyIdVar := "BOX_JWT_KEY_ID"
  const UploadFolderVar := "BOX_UPLOAD_FOLDER_ID"
  const AppUserIdVar := "BOX_APP_USER_ID"
  const MaxRetriesVar := "BOX_MAX_RETRIES"
  const LocalDataDirVar := "LOCAL_DATA_DIR"
  const UploadLogPathVar := "UPLOAD_LOG_PATH"

  // ---------------------------------------------------------------------------
  // Environment lookups (_get_env)
  // ---------------------------------------------------------------------------

  /** `os.getenv(name, default)`: a set variable wins over the default, even when empty. */
  function OsGetenv(env: Env, name: string, default: Option<string>): Option<string> {
    if name in env then Some(env[name]) else default
  }

  /** Python's falsiness of a `str | None`: None or the empty string. */
  predicate Blank(v: Option<string>) {
    v.None? || v.value == ""
  }

  /**
   * `_get_env(name, default, required)`: a required variable that is unset
   * (with no default) or empty raises; an optional one reads as None; any
   * other value is returned unchanged.
   */
  function GetEnv(env: Env, name: string, default: Option<string>, required: bool): (r: Result<Option<string>, ConfigError>)
    ensures name in env && env[name] != "" ==> r == Success(Some(env[name]))
    ensures name !in env && default.Some? && default.value != "" ==> r == Success(default)
    ensures (name in env && env[name] == "") || (name !in env && Blank(default)) ==>
      r == if required then Failure(Missing(name)) else Success(None)
    ensures r.Success? && r.value.Some? ==> r.value.value != ""
    ensures required && r.Success? ==> r.value.Some?
  {
    var value := OsGetenv(env, name, default);
    if required && Blank(value) then Failure(Missing(name))
    else if Blank(value) then Success(None)
    else Success(value)
  }

  // ---------------------------------------------------------------------------
  // Escaped newlines in a private key (_normalize_private_key)
  // ---------------------------------------------------------------------------

  /** The two characters backslash and `n` that stand for a newline inside an environment variable. */
  const Escape := "\\n"

  /** The marker that identifies PEM text. */
  const PemMarker := "-----BEGIN"

  predicate NoNewline(s: string) {
    forall i :: 0 <= i < |s| ==> s[i] != '\n'
  }

  /**
   * `s.replace("\\n", "\n")`: every backslash-n pair, found left to right
   * without overlap, becomes one newline character.
   */
  function UnescapeNewlines(s: string): (r: string)
    ensures |r| <= |s|
    ensures s == [] <==> r == []
    ensures r != [] ==> r[0] == if Escape <= s then '\n' else s[0]
    ensures !Contains(r, Escape)
    decreases |s|
  {
    if s == [] then []
    else if Escape <= s then ['\n'] + UnescapeNewlines(s[2..])
    else
      var rest := UnescapeNewlines(s[1..]);
      assert s[0] == '\\' && rest != [] ==> rest[0] != 'n';
      [s[0]] + rest
  }

  /** The inverse: every newline character becomes backslash-n, as a key is put into a one-line variable. */
  function EscapeNewlines(t: string): (s: string)
    ensures |t| <= |s|
    ensures t == [] <==> s == []
    ensures s != [] ==> s[0] == if t[0] == '\n' then '\\' else t[0]
    ensures NoNewline(s)
    decreases |t|
  {
    if t == [] then []
    else if t[0] == '\n' then Escape + EscapeNewlines(t[1..])
    else [t[0]] + EscapeNewlines(t[1..])
  }

  /** Unescaping undoes escaping for text without a literal backslash-n pair. */
  lemma {:induction false} UnescapeEscape(t: string)
    requires !Contains(t, Escape)
    ensures UnescapeNewlines(EscapeNewlines(t)) == t
    decreases |t|
  {
    if t != [] {
      var e := EscapeNewlines(t);
      assert !Contains(t[1..], Escape);
      UnescapeEscape(t[1..]);
      if t[0] == '\n' {
        assert e == Escape + EscapeNewlines(t[1..]);
        assert e[2..] == EscapeNewlines(t[1..]);
      } else {
        assert e == [t[0]] + EscapeNewlines(t[1..]);
        assert !(Escape <= t);
        assert !(Escape <= e);
        assert e[1..] == EscapeNewlines(t[1..]);
      }
    }
  }

  /** Escaping undoes unescaping for text without a newline character. */
  lemma {:induction false} EscapeUnescape(s: string)
    requires NoNewline(s)
    ensures EscapeNewlines(UnescapeNewlines(s)) == s
    decreases |s|
  {
    if s != [] {
      if Escape <= s {
        EscapeUnescape(s[2..]);
        assert s == Escape + s[2..];
      } else {
        EscapeUnescape(s[1..]);
        assert s == [s[0]] + s[1..];
      }
    }
  }

  /** Text without a backslash-n pair is left unchanged. */
  lemma {:induction false} UnescapeIdentity(s: string)
    requires !Contains(s, Escape)
    ensures UnescapeNewlines(s) == s
    decreases |s|
  {
    if s != [] {
      UnescapeIdentity(s[1..]);
      assert s == [s[0]] + s[1..];
    }
  }

  /** A string with no backslash, `n` or newline character; the PEM marker is one. */
  predicate Plain(m: string) {
    forall i :: 0 <= i < |m| ==> m[i] != '\\' && m[i] != 'n' && m[i] != '\n'
  }

  lemma {:induction false} PrefixSurvivesUnescape(m: string, s: string)
    requires Plain(m) && m <= s
    ensures m <= UnescapeNewlines(s)
    decreases |m|
  {
    if m != [] {
      assert s[0] == m[0] && m[0] != '\\';
      assert !(Escape <= s);
      assert m[1..] <= s[1..];
      PrefixSurvivesUnescape(m[1..], s[1..]);
    }
  }

  /** Unescaping keeps every occurrence of a plain, non-empty substring such as the PEM marker. */
  lemma {:induction false} ContainsSurvivesUnescape(m: string, s: string)
    requires Plain(m) && m != [] && Contains(s, m)
    ensures Contains(UnescapeNewlines(s), m)
    decreases |s|
  {
    if m <= s {
      PrefixSurvivesUnescape(m, s);
    } else if Escape <= s {
      assert s[1] == 'n' && m[0] != 'n';
      assert !(m <= s[1..]);
      assert s[1..][1..] == s[2..];
      ContainsSurvivesUnescape(m, s[2..]);
      ContainsExtend(['\n'], UnescapeNewlines(s[2..]), m);
    } else {
      ContainsSurvivesUnescape(m, s[1..]);
      ContainsExtend([s[0]], UnescapeNewlines(s[1..]), m);
    }
  }

  lemma {:induction false} PrefixSurvivesEscape(m: string, t: string)
    requires Plain(m) && m <= t
    ensures m <= EscapeNewlines(t)
    decreases |m|
  {
    if m != [] {
      assert m[1..] <= t[1..];
      PrefixSurvivesEscape(m[1..], t[1..]);
    }
  }

  /** Escaping keeps every occurrence of a plain substring such as the PEM marker. */
  lemma {:induction false} ContainsSurvivesEscape(m: string, t: string)
    requires Plain(m) && Contains(t, m)
    ensures Contains(EscapeNewlines(t), m)
    decreases |t|
  {
    if m <= t {
      PrefixSurvivesEscape(m, t);
    } else if t[0] == '\n' {
      ContainsSurvivesEscape(m, t[1..]);
      ContainsExtend(Escape, EscapeNewlines(t[1..]), m);
    } else {
      ContainsSurvivesEscape(m, t[1..]);
      ContainsExtend([t[0]], EscapeNewlines(t[1..]), m);
    }
  }

  lemma PemMarkerIsPlain()
    ensures Plain(PemMarker) && PemMarker != []
  {
  }

  /**
   * `_normalize_private_key`: PEM text gets its escaped newlines restored;
   * any other string is returned as it is.
   */
  function NormalizePrivateKey(raw: string): (r: string)
    ensures !Contains(raw, PemMarker) ==> r == raw
    ensures Contains(raw, PemMarker) ==> Contains(r, PemMarker) && !Contains(r, Escape)
    ensures raw != [] ==> r != []
  {
    if Contains(raw, PemMarker) then
      PemMarkerIsPlain();
      ContainsSurvivesUnescape(PemMarker, raw);
      UnescapeNewlines(raw)
    else raw
  }

  /** Normalising twice is normalising once. */
  lemma NormalizeIdempotent(raw: string)
    ensures NormalizePrivateKey(NormalizePrivateKey(raw)) == NormalizePrivateKey(raw)
  {
    if Contains(raw, PemMarker) {
      UnescapeIdentity(NormalizePrivateKey(raw));
    }
  }

  /**
   * A PEM key squeezed into one line by escaping its newlines comes back
   * exactly as it was.
   */
  lemma NormalizeRestoresPem(pem: string)
    requires Contains(pem, PemMarker) && !Contains(pem, Escape)
    ensures NormalizePrivateKey(EscapeNewlines(pem)) == pem
  {
    PemMarkerIsPlain();
    ContainsSurvivesEscape(PemMarker, pem);
    UnescapeEscape(pem);
  }

  /** Normalisation loses nothing: re-escaping a normalised one-line PEM value gives the value back. */
  lemma NormalizeReversible(raw: string)
    requires Contains(raw, PemMarker) && NoNewline(raw)
    ensures EscapeNewlines(NormalizePrivateKey(raw)) == raw
  {
    EscapeUnescape(raw);
  }

  // ---------------------------------------------------------------------------
  // Integers (int() on BOX_MAX_RETRIES)
  // ---------------------------------------------------------------------------

  predicate IsSign(c: char) {
    c == '+' || c == '-'
  }

  /** `int(text)` for an optional sign followed by ASCII digits; None where `int()` raises. */
  function ParseInt(text: string): (r: Option<int>)
    ensures text == [] ==> r == None
    ensures text != [] && AllDigits(text) ==> r == Some(DigitsValue(text))
    ensures |text| >= 2 && IsSign(text[0]) && AllDigits(text[1..]) ==>
      r == Some(if text[0] == '-' then -(DigitsValue(text[1..]) as int) else DigitsValue(text[1..]))
    ensures r.Some? ==> (text != [] && AllDigits(text)) || (|text| >= 2 && IsSign(text[0]) && AllDigits(text[1..]))
  {
    if text != [] && IsSign(text[0]) then
      var digits := text[1..];
      if digits != [] && AllDigits(digits) then
        Some(if text[0] == '-' then -(DigitsValue(digits) as int) else DigitsValue(digits))
      else None
    else if text != [] && AllDigits(text) then Some(DigitsValue(text))
    else None
  }

  /** Python's `str(n)`. */
  function IntText(n: int): string {
    if n < 0 then "-" + Decimal(-n) else Decimal(n)
  }

  /** `int(str(n)) == n` for every integer. */
  lemma ParseIntText(n: int)
    ensures ParseInt(IntText(n)) == Some(n)
  {
    if n < 0 {
      assert IntText(n)[1..] == Decimal(-n);
    } else {
      assert IsDigit(Decimal(n)[0]);
    }
  }

  // ---------------------------------------------------------------------------
  // Settings (BoxSettings.from_env)
  // ---------------------------------------------------------------------------

  /**
   * The settings record. The three JWT credentials and the passphrase are
   * None in developer-token mode; the two paths are path texts.
   */
  datatype BoxSettings = BoxSettings(
    clientId: Option<string>,
    clientSecret: Option<string>,
    enterpriseId: Option<string>,
    jwtPrivateKey: Option<string>,
    jwtPassphrase: Option<string>,
    jwtKeyId: Option<string>,
    uploadFolderId: string,
    localDataDir: string,
    uploadLogPath: string,
    appUserId: Option<string>,
    maxRetries: int)

  /** A non-empty BOX_DEVELOPER_TOKEN switches the JWT variables from required to optional. */
  predicate DeveloperMode(env: Env) {
    !Blank(OsGetenv(env, DeveloperTokenVar, None))
  }

  /** `Path(text)`: the empty text names the current directory. */
  function PathText(text: string): string {
    if text == "" then "." else text
  }

  /** The variables `from_env` requires, in the order it reads them. */
  function RequiredVars(developer: bool): seq<string> {
    if developer then [UploadFolderVar]
    else [ClientIdVar, ClientSecretVar, PrivateKeyVar, PassphraseVar, KeyIdVar, UploadFolderVar]
  }

  /** The text `int()` is given: BOX_MAX_RETRIES, or "3" when it is unset. */
  function RetriesText(env: Env): string {
    OsGetenv(env, MaxRetriesVar, Some("3")).value
  }

  /** The private-key field: read, required and normalised only outside developer-token mode. */
  function PrivateKeyField(env: Env, developer: bool): (r: Result<Option<string>, ConfigError>)
    ensures developer ==> r == Success(None)
    ensures !developer ==> (r.Failure? <==> Blank(OsGetenv(env, PrivateKeyVar, None)))
    ensures r.Failure? ==> r.error == Missing(PrivateKeyVar)
    ensures !developer && r.Success? ==> r.value == Some(NormalizePrivateKey(env[PrivateKeyVar]))
  {
    if developer then Success(None)
    else
      var key :- GetEnv(env, PrivateKeyVar, None, true);
      Success(Some(NormalizePrivateKey(key.value)))
  }

  function ParseRetries(text: string): Result<int, ConfigError> {
    match ParseInt(text)
    case Some(n) => Success(n)
    case None => Failure(NotAnInteger(text))
  }

  /**
   * `BoxSettings.from_env()`, evaluating the fields in the source's order so
   * that the first failing lookup is the error raised.
   */
  function FromEnv(env: Env): (r: Result<BoxSettings, ConfigError>)
    ensures r.Success? ==> ParseInt(RetriesText(env)) == Some(r.value.maxRetries)
    ensures r.Success? ==> r.value.localDataDir != "" && r.value.uploadLogPath != ""
    ensures r.Success? && DeveloperMode(env) ==> r.value.jwtPrivateKey == None
  {
    var developer := DeveloperMode(env);
    var localDir := PathText(OsGetenv(env, LocalDataDirVar, Some("data")).value);
    var uploadLog := PathText(OsGetenv(env, UploadLogPathVar, Some(".upload_log.json")).value);
    var clientId :- GetEnv(env, ClientIdVar, None, !developer);
    var clientSecret :- GetEnv(env, ClientSecretVar, None, !developer);
    var enterpriseId :- GetEnv(env, EnterpriseIdVar, None, false);
    var privateKey :- PrivateKeyField(env, developer);
    var passphrase :- GetEnv(env, PassphraseVar, None, !developer);
    var keyId :- GetEnv(env, KeyIdVar, None, !developer);
    var folder :- GetEnv(env, UploadFolderVar, None, true);
    var appUserId :- GetEnv(env, AppUserIdVar, None, false);
    var maxRetries :- ParseRetries(RetriesText(env));
    Success(BoxSettings(clientId, clientSecret, enterpriseId, privateKey, passphrase, keyId,
                        folder.value, localDir, uploadLog, appUserId, maxRetries))
  }

  /** The value of a set, non-empty variable, and None otherwise. */
  function Optional(env: Env, name: string): Option<string> {
    if name in env && env[name] != "" then Some(env[name]) else None
  }

  /**
   * Reading the settings succeeds exactly when every required variable is
   * set and non-empty and BOX_MAX_RETRIES (or its default) is an integer.
   */
  lemma FromEnvSucceedsIff(env: Env)
    ensures FromEnv(env).Success? <==>
      (forall v | v in RequiredVars(DeveloperMode(env)) :: !Blank(OsGetenv(env, v, None)))
      && ParseInt(RetriesText(env)).Some?
  {
  }

  /** `req[k]` is the first of `req` that is unset or empty. */
  predicate FirstBlankAt(env: Env, req: seq<string>, k: int) {
    && 0 <= k < |req|
    && Blank(OsGetenv(env, req[k], None))
    && forall j :: 0 <= j < k ==> !Blank(OsGetenv(env, req[j], None))
  }

  /**
   * A failure names the first required variable, in the source's order,
   * that is unset or empty; the retry count is parsed only after all of
   * them are present.
   */
  lemma FromEnvFirstError(env: Env)
    requires FromEnv(env).Failure?
    ensures var e := FromEnv(env).error;
      var req := RequiredVars(DeveloperMode(env));
      && (e.Missing? || e.NotAnInteger?)
      && (e.Missing? ==> (exists k :: FirstBlankAt(env, req, k) && req[k] == e.name))
      && (e.NotAnInteger? ==>
            && e.text == RetriesText(env) && ParseInt(e.text) == None
            && (forall j :: 0 <= j < |req| ==> !Blank(OsGetenv(env, req[j], None))))
  {
    var req := RequiredVars(DeveloperMode(env));
    if DeveloperMode(env) {
      if Blank(OsGetenv(env, UploadFolderVar, None)) {
        assert FirstBlankAt(env, req, 0);
      }
    } else if Blank(OsGetenv(env, ClientIdVar, None)) {
      assert FirstBlankAt(env, req, 0);
    } else if Blank(OsGetenv(env, ClientSecretVar, None)) {
      assert FirstBlankAt(env, req, 1);
    } else if Blank(OsGetenv(env, PrivateKeyVar, None)) {
      assert FirstBlankAt(env, req, 2);
    } else if Blank(OsGetenv(env, PassphraseVar, None)) {
      assert FirstBlankAt(env, req, 3);
    } else if Blank(OsGetenv(env, KeyIdVar, None)) {
      assert FirstBlankAt(env, req, 4);
    } else if Blank(OsGetenv(env, UploadFolderVar, None)) {
      assert FirstBlankAt(env, req, 5);
    }
  }

  /**
   * Outside developer-token mode the fields hold the variables' values, the
   * private key normalised, and the optional ids are None when unset or empty.
   */
  lemma FromEnvJwtFields(env: Env)
    requires !DeveloperMode(env) && FromEnv(env).Success?
    ensures var s := FromEnv(env).value;
      && s.clientId == Some(env[ClientIdVar])
      && s.clientSecret == Some(env[ClientSecretVar])
      && s.jwtPrivateKey == Some(NormalizePrivateKey(env[PrivateKeyVar]))
      && s.jwtPassphrase == Some(env[PassphraseVar])
      && s.jwtKeyId == Some(env[KeyIdVar])
      && s.uploadFolderId == env[UploadFolderVar]
      && s.enterpriseId == Optional(env, EnterpriseIdVar)
      && s.appUserId == Optional(env, AppUserIdVar)
  {
  }

  /**
   * In developer-token mode only the upload folder is required, the private
   * key is None, and the other JWT fields are read as optional.
   */
  lemma FromEnvDeveloperFields(env: Env)
    requires DeveloperMode(env) && FromEnv(env).Success?
    ensures var s := FromEnv(env).value;
      && s.jwtPrivateKey == None
      && s.clientId == Optional(env, ClientIdVar)
      && s.clientSecret == Optional(env, ClientSecretVar)
      && s.jwtPassphrase == Optional(env, PassphraseVar)
      && s.jwtKeyId == Optional(env, KeyIdVar)
      && s.uploadFolderId == env[UploadFolderVar]
      && s.enterpriseId == Optional(env, EnterpriseIdVar)
      && s.appUserId == Optional(env, AppUserIdVar)
  {
  }

  /**
   * In either mode, a set LOCAL_DATA_DIR or UPLOAD_LOG_PATH becomes the path
   * field (an empty one names the current directory), and a set
   * BOX_MAX_RETRIES is parsed by `int()`.
   */
  lemma FromEnvPaths(env: Env)
    requires FromEnv(env).Success?
    ensures var s := FromEnv(env).value;
      && (LocalDataDirVar in env ==> s.localDataDir == PathText(env[LocalDataDirVar]))
      && (Optional(env, LocalDataDirVar).Some? ==> s.localDataDir == env[LocalDataDirVar])
      && (UploadLogPathVar in env ==> s.uploadLogPath == PathText(env[UploadLogPathVar]))
      && (Optional(env, UploadLogPathVar).Some? ==> s.uploadLogPath == env[UploadLogPathVar])
      && (MaxRetriesVar in env ==> ParseInt(env[MaxRetriesVar]) == Some(s.maxRetries))
  {
  }

  /** The defaults: directory "data", log ".upload_log.json", three retries. */
  lemma FromEnvDefaults(env: Env)
    requires LocalDataDirVar !in env && UploadLogPathVar !in env && MaxRetriesVar !in env
    requires FromEnv(env).Success?
    ensures var s := FromEnv(env).value;
      s.localDataDir == "data" && s.uploadLogPath == ".upload_log.json" && s.maxRetries == 3
  {
    assert ParseInt("3") == Some(3);
  }

  // ---------------------------------------------------------------------------
  // Building a client (build_client)
  // ---------------------------------------------------------------------------

  /** The JWT configuration handed to the SDK. */
  datatype JwtConfig = JwtConfig(
    clientId: string,
    clientSecret: string,
    keyId: string,
    privateKey: string,
    passphrase: Option<string>,
    enterpriseId: Option<string>,
    userId: Option<string>)

  /** The authentication the client is built with. */
  datatype Client = DeveloperTokenClient(token: string) | JwtClient(config: JwtConfig)

  /**
   * `build_client(settings)`: a developer token in the environment wins with
   * no further check; otherwise an enterprise or app user id is required
   * first, then all four JWT credentials.
   */
  function BuildClient(env: Env, settings: BoxSettings): (r: Result<Client, ConfigError>)
    ensures DeveloperMode(env) ==> r == Success(DeveloperTokenClient(env[DeveloperTokenVar]))
    ensures !DeveloperMode(env) && settings.enterpriseId.None? && settings.appUserId.None? ==>
      r == Failure(NoIdentity)
    ensures r == Failure(IncompleteJwt) <==>
      && !DeveloperMode(env)
      && (settings.enterpriseId.Some? || settings.appUserId.Some?)
      && (Blank(settings.clientId) || Blank(settings.clientSecret) || Blank(settings.jwtKeyId) || Blank(settings.jwtPrivateKey))
    ensures !DeveloperMode(env) ==>
      (r == Failure(NoIdentity) <==> settings.enterpriseId.None? && settings.appUserId.None?)
    ensures (&& !DeveloperMode(env)
             && (settings.enterpriseId.Some? || settings.appUserId.Some?)
             && !Blank(settings.clientId) && !Blank(settings.clientSecret)
             && !Blank(settings.jwtKeyId) && !Blank(settings.jwtPrivateKey)) ==>
      r.Success? && r.value.JwtClient?
    ensures r.Success? && r.value.JwtClient? ==>
      var c := r.value.config;
      && Some(c.clientId) == settings.clientId && c.clientId != ""
      && Some(c.clientSecret) == settings.clientSecret && c.clientSecret != ""
      && Some(c.keyId) == settings.jwtKeyId && c.keyId != ""
      && Some(c.privateKey) == settings.jwtPrivateKey && c.privateKey != ""
      && c.passphrase == settings.jwtPassphrase
      && c.enterpriseId == settings.enterpriseId && c.userId == settings.appUserId
  {
    if DeveloperMode(env) then Success(DeveloperTokenClient(env[DeveloperTokenVar]))
    else if settings.enterpriseId.None? && settings.appUserId.None? then Failure(NoIdentity)
    else if Blank(settings.clientId) || Blank(settings.clientSecret) || Blank(settings.jwtKeyId) || Blank(settings.jwtPrivateKey) then
      Failure(IncompleteJwt)
    else
      Success(JwtClient(JwtConfig(settings.clientId.value, settings.clientSecret.value, settings.jwtKeyId.value,
                                  settings.jwtPrivateKey.value, settings.jwtPassphrase, settings.enterpriseId,
                                  settings.appUserId)))
  }

  /**
   * Settings read from the same environment never fail the credential
   * check: building a client from them succeeds exactly when a developer
   * token is set or an enterprise or app user id is.
   */
  lemma BuildFromEnv(env: Env)
    requires FromEnv(env).Success?
    ensures var s := FromEnv(env).value;
      && BuildClient(env, s) != Failure(IncompleteJwt)
      && (BuildClient(env, s).Success? <==> DeveloperMode(env) || s.enterpriseId.Some? || s.appUserId.Some?)
  {
    if !DeveloperMode(env) {
      FromEnvJwtFields(env);
    }
  }
}
