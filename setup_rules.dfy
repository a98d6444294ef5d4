/**
 * The decisions the setup wizard's controller takes, as functions of the
 * request, the session and the outcomes of its collaborators (database,
 * file system, e-mail check): the database-overwrite guard and the link
 * that asks for confirmation, the licence check, the connection checks, the
 * validation cascade of the directories step, the normalisation of the
 * setup configuration, the system-requirements summary and the way view
 * options are applied.
 */
module SetupRules {
  import opened Wrappers
  import opened PhpValues
  import QueryString

  /** The wizard steps a handler can select as the next one. */
  datatype Step = StepWelcome | StepDbInfo | StepDirsInfo | StepDbCreate | StepFinish

  /** The name a step is looked up by; the confirmation link carries it as `istep`. */
  function StepCode(step: Step): string
  {
    match step
    case StepWelcome => "STEP_WELCOME"
    case StepDbInfo => "STEP_DB_INFO"
    case StepDirsInfo => "STEP_DIRS_INFO"
    case StepDbCreate => "STEP_DB_CREATE"
    case StepFinish => "STEP_FINISH"
  }

  /** A message set on the view. Localised texts stay abstract: a text is named by its key. */
  datatype Message =
    | NoMessage
      /** the localised text with this key */
    | Text(key: string)
      /** the localised text with this key, a separator, then an exception's message */
    | TextWithDetail(key: string, separator: string, detail: string)
      /** an exception's message */
    | Detail(detail: string)
      /** "database already exists" for this name, then the link that confirms overwriting it */
    | OverwritePrompt(dbName: Value, link: string)

  // ---------------------------------------------------------------------------
  // The database-overwrite guard
  // ---------------------------------------------------------------------------

  /** The user has chosen to overwrite: the GET variable `ow` is set, or the session remembers `blOverwrite`. */
  predicate UserDecidedOverwriteDb(get: map<string, Value>, session: map<string, Value>)
  {
    IsSet(Param(get, "ow")) || Truthy(Param(session, "blOverwrite"))
  }

  /** Without the user's decision, only a database that does not exist yet may be overwritten. */
  predicate DatabaseCanBeOverwritten(get: map<string, Value>, session: map<string, Value>, dbExists: bool)
  {
    if !UserDecidedOverwriteDb(get, session) then !dbExists else true
  }

  /** The guard holds exactly when `ow` is set, or `blOverwrite` is truthy, or the database does not exist. */
  lemma OverwriteGuard(get: map<string, Value>, session: map<string, Value>, dbExists: bool)
    ensures DatabaseCanBeOverwritten(get, session, dbExists)
        <==> IsSet(Param(get, "ow")) || Truthy(Param(session, "blOverwrite")) || !dbExists
  {
  }

  /** Once `blOverwrite` is stored in the session, the guard holds on every later request. */
  lemma OverwriteDecisionIsKept(get: map<string, Value>, session: map<string, Value>, dbExists: bool)
    ensures DatabaseCanBeOverwritten(get, session["blOverwrite" := Bool(true)], dbExists)
  {
  }

  // ---------------------------------------------------------------------------
  // The confirmation link
  // ---------------------------------------------------------------------------

  const LinkPrefix: string := "index.php?"

  /** The parameters of the confirmation link: the session id, the step to return to, and `ow=1`. */
  function ConfirmationParams(sid: string, step: Step): seq<(string, string)>
  {
    [("sid", sid), ("istep", StepCode(step)), ("ow", "1")]
  }

  function ConfirmationLink(sid: string, step: Step): string
  {
    LinkPrefix + QueryString.Render(ConfirmationParams(sid, step))
  }

  /** The link is `index.php?sid=<sid>&istep=<step>&ow=1`. */
  lemma ConfirmationLinkText(sid: string, step: Step)
    ensures ConfirmationLink(sid, step) == "index.php?sid=" + sid + "&istep=" + StepCode(step) + "&ow=1"
  {
    var code := StepCode(step);
    var fs := QueryString.Fields(ConfirmationParams(sid, step));
    var a, b, c := "sid=" + sid, "istep=" + code, "ow=1";
    assert fs[0] == a by { assert "sid" + "=" == "sid="; }
    assert fs[1] == b by { assert "istep" + "=" == "istep="; }
    assert fs[2] == c by { assert "ow" + "=" + "1" == "ow=1"; }
    assert fs[1..][1..] == [c];
    assert QueryString.Join(fs[1..], '&') == b + "&" + c;
    assert QueryString.Join(fs, '&') == a + "&" + (b + "&" + c);
    assert LinkPrefix + (a + "&" + (b + "&" + c)) == "index.php?sid=" + sid + "&istep=" + code + "&ow=1" by {
      assert LinkPrefix + "sid=" == "index.php?sid=";
    }
  }

  /** The query of the link, read back as PHP reads `$_GET`, gives back the session id, the step and `ow`. */
  lemma ConfirmationLinkRoundTrip(sid: string, step: Step)
    requires '&' !in sid
    ensures var link := ConfirmationLink(sid, step);
            |LinkPrefix| <= |link| && QueryString.Parse(link[|LinkPrefix|..]) == ConfirmationParams(sid, step)
  {
    var params := ConfirmationParams(sid, step);
    var link := ConfirmationLink(sid, step);
    assert link[|LinkPrefix|..] == QueryString.Render(params);
    assert forall c :: c in StepCode(step) ==> c != '&';
    QueryString.ParseRender(params);
  }

  /** Following the confirmation link lets the guard pass, whatever the session and the database hold. */
  lemma FollowingConfirmationLinkAllowsOverwrite(sid: string, step: Step, session: map<string, Value>, dbExists: bool)
    requires '&' !in sid
    ensures var link := ConfirmationLink(sid, step);
            |LinkPrefix| <= |link| &&
            DatabaseCanBeOverwritten(QueryString.QueryVars(QueryString.Parse(link[|LinkPrefix|..])), session, dbExists)
  {
    ConfirmationLinkRoundTrip(sid, step);
    var get := QueryString.QueryVars(ConfirmationParams(sid, step));
    assert ConfirmationParams(sid, step)[2].0 == "ow";
    assert "ow" in get;
  }

  // ---------------------------------------------------------------------------
  // The licence check of the database-info step
  // ---------------------------------------------------------------------------

  /** The posted `iEula` if it is truthy, else the session's `eula`, cast to int. */
  function EulaValue(post: map<string, Value>, session: map<string, Value>): int
  {
    var posted := Param(post, "iEula");
    IntCast(if Truthy(posted) then posted else Param(session, "eula"))
  }

  predicate LicenseAccepted(post: map<string, Value>, session: map<string, Value>)
  {
    EulaValue(post, session) != 0
  }

  /** With neither a truthy posted `iEula` nor a truthy session `eula`, the licence counts as refused. */
  lemma LicenseRefusedWhenBothFalsy(post: map<string, Value>, session: map<string, Value>)
    requires !Truthy(Param(post, "iEula")) && !Truthy(Param(session, "eula"))
    ensures !LicenseAccepted(post, session)
  {
    IntCastNonZeroIsTruthy(Param(session, "eula"));
  }

  /** A falsy posted value defers to the session; a truthy one decides alone. */
  lemma LicenseFallsBackToSession(post: map<string, Value>, session: map<string, Value>)
    ensures !Truthy(Param(post, "iEula")) ==>
              (LicenseAccepted(post, session) <==> IntCast(Param(session, "eula")) != 0)
    ensures Truthy(Param(post, "iEula")) ==>
              (LicenseAccepted(post, session) <==> IntCast(Param(post, "iEula")) != 0)
  {
  }

  /** The cast matters: a truthy but non-numeric posted value such as "on" refuses the licence. */
  lemma LicenseNonNumericRefused(session: map<string, Value>)
    ensures !LicenseAccepted(map["iEula" := Str("on")], session)
  {
    var post := map["iEula" := Str("on")];
    assert Truthy(Param(post, "iEula"));
    assert SkipWhitespace("on") == "on";
    assert DigitPrefix("on") == "";
  }

  /** The database settings the database-info page shows: the session's, or the defaults. */
  function DbInfoValues(session: map<string, Value>): (db: Value)
    ensures IsSet(Param(session, "aDB")) ==> db == Param(session, "aDB")
    ensures !IsSet(Param(session, "aDB")) ==>
              Get(db, "dbHost") == Str("localhost") && Get(db, "dbUser") == Str("") &&
              Get(db, "dbPwd") == Str("") && Get(db, "dbName") == Str("") && Get(db, "dbiDemoData") == Int(1)
  {
    var db := Param(session, "aDB");
    if IsSet(db) then db
    else Dict(map["dbHost" := Str("localhost"), "dbUser" := Str(""), "dbPwd" := Str(""),
                  "dbName" := Str(""), "dbiDemoData" := Int(1)])
  }

  // ---------------------------------------------------------------------------
  // First failing check
  // ---------------------------------------------------------------------------

  /** The message of the first check that fails, in order; none when all pass. */
  function FirstFailure<M>(checks: seq<(bool, M)>): Option<M>
  {
    if |checks| == 0 then None
    else if !checks[0].0 then Some(checks[0].1)
    else FirstFailure(checks[1..])
  }

  /** No message exactly when every check passes. */
  lemma {:induction false} FirstFailureNone<M>(checks: seq<(bool, M)>)
    ensures FirstFailure(checks).None? <==> forall i :: 0 <= i < |checks| ==> checks[i].0
  {
    if |checks| > 0 {
      FirstFailureNone(checks[1..]);
      assert forall i :: 1 <= i < |checks| ==> checks[1..][i - 1] == checks[i];
    }
  }

  /** The message is that of the failing check every earlier check passed. */
  lemma {:induction false} FirstFailureAt<M>(checks: seq<(bool, M)>, i: nat)
    requires i < |checks| && !checks[i].0
    requires forall j :: 0 <= j < i ==> checks[j].0
    ensures FirstFailure(checks) == Some(checks[i].1)
  {
    if i > 0 {
      assert checks[0].0;
      assert forall j :: 0 <= j < i - 1 ==> checks[1..][j] == checks[j + 1];
      FirstFailureAt(checks[1..], i - 1);
    }
  }

  // ---------------------------------------------------------------------------
  // The database-connection step
  // ---------------------------------------------------------------------------

  /** The code of the exception the connection attempt raised. */
  datatype ErrorCode = ErrorDbConnect | ErrorMysqlVersion | OtherCode(code: int)

  /** The outcome of opening the database: success, or an exception with a code and a message. */
  datatype OpenResult = Opened | Failed(code: ErrorCode, reason: string)

  /** The posted database settings with `iUtfMode` forced to 1. */
  function WithUtfMode(posted: Value): (db: Value)
    ensures Get(db, "iUtfMode") == Int(1)
    ensures forall k :: k != "iUtfMode" ==> Get(db, k) == Get(posted, k)
  {
    Put(posted, "iUtfMode", Int(1))
  }

  predicate ConnectionFieldsFilled(db: Value)
  {
    Truthy(Get(db, "dbHost")) && Truthy(Get(db, "dbName"))
  }

  /**
   * The message with which the connection step sends the user back to the
   * database-info step, if it does: missing host or name, a refused
   * connection, a MySQL version that does not fit, or a database that could
   * not be created after any other connection error.
   */
  function ConnectFailure(db: Value, open: OpenResult, createDbError: Option<string>): (r: Option<Message>)
    ensures r.None? <==> ConnectionFieldsFilled(db) &&
                         (open.Opened? || (open.code.OtherCode? && createDbError.None?))
    ensures !ConnectionFieldsFilled(db) ==> r == Some(Text("ERROR_FILL_ALL_FIELDS"))
    ensures ConnectionFieldsFilled(db) && open.Failed? && open.code == ErrorDbConnect ==>
              r == Some(TextWithDetail("ERROR_DB_CONNECT", " - ", open.reason))
    ensures ConnectionFieldsFilled(db) && open.Failed? && open.code == ErrorMysqlVersion ==>
              r == Some(Detail(open.reason))
    ensures ConnectionFieldsFilled(db) && open.Failed? && open.code.OtherCode? && createDbError.Some? ==>
              r == Some(Detail(createDbError.value))
  {
    if !ConnectionFieldsFilled(db) then Some(Text("ERROR_FILL_ALL_FIELDS"))
    else match open
      case Opened => None
      case Failed(ErrorDbConnect, reason) => Some(TextWithDetail("ERROR_DB_CONNECT", " - ", reason))
      case Failed(ErrorMysqlVersion, reason) => Some(Detail(reason))
      case Failed(OtherCode(_), _) =>
        match createDbError
        case Some(e) => Some(Detail(e))
        case None => None
  }

  // ---------------------------------------------------------------------------
  // The directories step
  // ---------------------------------------------------------------------------

  /** The posted paths with the three directories prepared and the rewrite base derived from the shop URL. */
  function PreparePaths(posted: Value, prepare: Value -> Value, rewriteBase: Value -> Value): (p: Value)
    ensures Get(p, "sShopURL") == prepare(Get(posted, "sShopURL"))
    ensures Get(p, "sShopDir") == prepare(Get(posted, "sShopDir"))
    ensures Get(p, "sCompileDir") == prepare(Get(posted, "sCompileDir"))
    ensures Get(p, "sBaseUrlPath") == rewriteBase(Get(p, "sShopURL"))
    ensures forall k :: k !in {"sShopURL", "sShopDir", "sCompileDir", "sBaseUrlPath"} ==> Get(p, k) == Get(posted, k)
  {
    var p1 := Put(posted, "sShopURL", prepare(Get(posted, "sShopURL")));
    var p2 := Put(p1, "sShopDir", prepare(Get(p1, "sShopDir")));
    var p3 := Put(p2, "sCompileDir", prepare(Get(p2, "sCompileDir")));
    Put(p3, "sBaseUrlPath", rewriteBase(Get(p3, "sShopURL")))
  }

  /** The setup configuration with `blDelSetupDir` normalised to exactly 1 (set and truthy) or 0. */
  function NormaliseSetupConfig(cfg: Value): (r: Value)
    ensures Get(r, "blDelSetupDir") == Int(1) || Get(r, "blDelSetupDir") == Int(0)
    ensures Get(r, "blDelSetupDir") == Int(1) <==> IsSet(Get(cfg, "blDelSetupDir")) && Truthy(Get(cfg, "blDelSetupDir"))
    ensures forall k :: k != "blDelSetupDir" ==> Get(r, k) == Get(cfg, k)
  {
    var flag := Get(cfg, "blDelSetupDir");
    Put(cfg, "blDelSetupDir", if IsSet(flag) && Truthy(flag) then Int(1) else Int(0))
  }

  /** Normalising twice changes nothing more. */
  lemma NormaliseSetupConfigIdempotent(cfg: Value)
    ensures NormaliseSetupConfig(NormaliseSetupConfig(cfg)) == NormaliseSetupConfig(cfg)
  {
    var once := NormaliseSetupConfig(cfg);
    var twice := NormaliseSetupConfig(once);
    assert twice.entries.Keys == once.entries.Keys;
    forall k | k in once.entries.Keys
      ensures twice.entries[k] == once.entries[k]
    {
      assert Get(twice, k) == Get(once, k);
    }
  }

  predicate RequiredDirsFieldsFilled(paths: Value, admin: Value)
  {
    && Truthy(Get(paths, "sShopURL")) && Truthy(Get(paths, "sShopDir")) && Truthy(Get(paths, "sCompileDir"))
    && Truthy(Get(admin, "sLoginName")) && Truthy(Get(admin, "sPassword")) && Truthy(Get(admin, "sPasswordConfirm"))
  }

  predicate PasswordTooShort(admin: Value)
  {
    StrLen(Get(admin, "sPassword")) < 6
  }

  /** The password and its confirmation are the same value. */
  predicate PasswordsMatch(admin: Value)
  {
    Get(admin, "sPassword") == Get(admin, "sPasswordConfirm")
  }

  /** The comparison as written in the controller: PHP's loose `==`. */
  predicate PasswordsMatchAsWritten(admin: Value)
  {
    LooseEquals(Get(admin, "sPassword"), Get(admin, "sPasswordConfirm"))
  }

  /** The checks of the directories step in the order they run, each with the message it sets when it fails. */
  function DirsChecks(paths: Value, admin: Value, emailValid: bool, passwordsMatch: bool): seq<(bool, Message)>
  {
    [ (RequiredDirsFieldsFilled(paths, admin), Text("ERROR_FILL_ALL_FIELDS")),
      (!PasswordTooShort(admin), Text("ERROR_PASSWORD_TOO_SHORT")),
      (passwordsMatch, Text("ERROR_PASSWORDS_DO_NOT_MATCH")),
      (emailValid, Text("ERROR_USER_NAME_DOES_NOT_MATCH_PATTERN")) ]
  }


  /** The cascade over `DirsChecks`: the first failing check alone names the message. */
  lemma DirsChecksCascade(paths: Value, admin: Value, emailValid: bool, passwordsMatch: bool)
    ensures var r := FirstFailure(DirsChecks(paths, admin, emailValid, passwordsMatch));
      && (!RequiredDirsFieldsFilled(paths, admin) ==> r == Some(Text("ERROR_FILL_ALL_FIELDS")))
      && (RequiredDirsFieldsFilled(paths, admin) && PasswordTooShort(admin) ==>
            r == Some(Text("ERROR_PASSWORD_TOO_SHORT")))
      && (RequiredDirsFieldsFilled(paths, admin) && !PasswordTooShort(admin) && !passwordsMatch ==>
            r == Some(Text("ERROR_PASSWORDS_DO_NOT_MATCH")))
      && (RequiredDirsFieldsFilled(paths, admin) && !PasswordTooShort(admin) && passwordsMatch && !emailValid ==>
            r == Some(Text("ERROR_USER_NAME_DOES_NOT_MATCH_PATTERN")))
      && (r.None? <==> RequiredDirsFieldsFilled(paths, admin) && !PasswordTooShort(admin) && passwordsMatch && emailValid)
  {
    var checks := DirsChecks(paths, admin, emailValid, passwordsMatch);
    FirstFailureNone(checks);
    if !checks[0].0 {
      FirstFailureAt(checks, 0);
    } else if !checks[1].0 {
      FirstFailureAt(checks, 1);
    } else if !checks[2].0 {
      FirstFailureAt(checks, 2);
    } else if !checks[3].0 {
      FirstFailureAt(checks, 3);
    }
  }

  /**
   * The validation cascade of the directories step, with the passwords
   * compared strictly: the first failing check alone names the message.
   */
  function DirsCheck(paths: Value, admin: Value, emailValid: bool): (r: Option<Message>)
    ensures !RequiredDirsFieldsFilled(paths, admin) ==> r == Some(Text("ERROR_FILL_ALL_FIELDS"))
    ensures RequiredDirsFieldsFilled(paths, admin) && PasswordTooShort(admin) ==>
              r == Some(Text("ERROR_PASSWORD_TOO_SHORT"))
    ensures RequiredDirsFieldsFilled(paths, admin) && !PasswordTooShort(admin) && !PasswordsMatch(admin) ==>
              r == Some(Text("ERROR_PASSWORDS_DO_NOT_MATCH"))
    ensures RequiredDirsFieldsFilled(paths, admin) && !PasswordTooShort(admin) && PasswordsMatch(admin) && !emailValid ==>
              r == Some(Text("ERROR_USER_NAME_DOES_NOT_MATCH_PATTERN"))
    ensures r.None? <==> RequiredDirsFieldsFilled(paths, admin) && !PasswordTooShort(admin) && PasswordsMatch(admin) && emailValid
  {
    DirsChecksCascade(paths, admin, emailValid, PasswordsMatch(admin));
    FirstFailure(DirsChecks(paths, admin, emailValid, PasswordsMatch(admin)))
  }

  /** The validation cascade as written, with the loose password comparison. */
  function DirsCheckAsWritten(paths: Value, admin: Value, emailValid: bool): (r: Option<Message>)
    ensures !RequiredDirsFieldsFilled(paths, admin) ==> r == Some(Text("ERROR_FILL_ALL_FIELDS"))
    ensures RequiredDirsFieldsFilled(paths, admin) && PasswordTooShort(admin) ==>
              r == Some(Text("ERROR_PASSWORD_TOO_SHORT"))
    ensures RequiredDirsFieldsFilled(paths, admin) && !PasswordTooShort(admin) && !PasswordsMatchAsWritten(admin) ==>
              r == Some(Text("ERROR_PASSWORDS_DO_NOT_MATCH"))
    ensures RequiredDirsFieldsFilled(paths, admin) && !PasswordTooShort(admin) && PasswordsMatchAsWritten(admin)
              && !emailValid ==>
              r == Some(Text("ERROR_USER_NAME_DOES_NOT_MATCH_PATTERN"))
    ensures r.None? <==>
              RequiredDirsFieldsFilled(paths, admin) && !PasswordTooShort(admin) && PasswordsMatchAsWritten(admin)
              && emailValid
  {
    DirsChecksCascade(paths, admin, emailValid, PasswordsMatchAsWritten(admin));
    FirstFailure(DirsChecks(paths, admin, emailValid, PasswordsMatchAsWritten(admin)))
  }

  /**
   * The corrected cascade departs from the one as written only on a form
   * whose password loosely equals its confirmation without being the same
   * string: there the corrected one refuses it, where the one as written
   * goes on to the e-mail check.
   */
  lemma CorrectedCheckDiffersOnlyOnLooseMatches(paths: Value, admin: Value, emailValid: bool)
    ensures DirsCheck(paths, admin, emailValid) != DirsCheckAsWritten(paths, admin, emailValid) ==>
              && DirsCheck(paths, admin, emailValid) == Some(Text("ERROR_PASSWORDS_DO_NOT_MATCH"))
              && PasswordsMatchAsWritten(admin) && !PasswordsMatch(admin)
  {
    if PasswordsMatch(admin) {
      assert PasswordsMatchAsWritten(admin);
    }
  }

  /** An accepted form has a password of at least six characters that equals its confirmation. */
  lemma DirsCheckAcceptsOnlyConfirmedPasswords(paths: Value, admin: Value, emailValid: bool)
    requires DirsCheck(paths, admin, emailValid).None?
    ensures Get(admin, "sPassword") == Get(admin, "sPasswordConfirm")
    ensures StrLen(Get(admin, "sPassword")) >= 6
  {
  }

  predicate IsDigits(d: string)
  {
    forall i :: 0 <= i < |d| ==> IsDigit(d[i])
  }

  lemma {:induction false} DigitPrefixOfDigits(d: string)
    requires IsDigits(d)
    ensures DigitPrefix(d) == d
  {
    if |d| > 0 {
      DigitPrefixOfDigits(d[1..]);
      assert [d[0]] + d[1..] == d;
    }
  }

  /** A leading zero does not change the number a digit string denotes. */
  lemma {:induction false} DigitsValueLeadingZero(d: string)
    ensures DigitsValue("0" + d) == DigitsValue(d)
  {
    if |d| > 0 {
      var z := "0" + d;
      assert z[..|z| - 1] == "0" + d[..|d| - 1];
      assert z[|z| - 1] == d[|d| - 1];
      DigitsValueLeadingZero(d[..|d| - 1]);
    } else {
      assert DigitsValue("0") == 0 by { DigitsValueOfZeros("0"); }
    }
  }

  /** A non-empty digit string is an integer string and denotes its digits' value. */
  lemma IntegerStringOfDigits(d: string)
    requires |d| > 0 && IsDigits(d)
    ensures IsIntegerString(d) && StringToInt(d) == DigitsValue(d)
  {
    DigitPrefixOfDigits(d);
    assert !IsWhitespace(d[0]);
    assert SkipWhitespace(d) == d;
    assert d[0] != '-' && d[0] != '+';
  }

  /** A digit string and the same string with a leading zero are two integer strings of the same value. */
  lemma LeadingZeroLooselyEqual(d: string)
    requires |d| > 0 && IsDigits(d) && DigitsValue(d) <= PhpIntMax
    ensures LooseEquals(Str(d), Str("0" + d)) && Str(d) != Str("0" + d)
  {
    var z := "0" + d;
    assert IsDigits(z) by {
      assert forall i :: 1 <= i < |z| ==> z[i] == d[i - 1];
    }
    IntegerStringOfDigits(d);
    IntegerStringOfDigits(z);
    DigitsValueLeadingZero(d);
    assert |z| != |d|;
  }

  /**
   * As written, a password of six or more digits within PHP's integer
   * range and a confirmation that adds a leading zero pass the cascade,
   * although the two strings differ; the strict comparison refuses them.
   */
  lemma LooseComparisonAcceptsDifferentPasswords(paths: Value, admin: Value, password: string)
    requires RequiredDirsFieldsFilled(paths, admin)
    requires |password| >= 6 && IsDigits(password) && DigitsValue(password) <= PhpIntMax
    requires Get(admin, "sPassword") == Str(password) && Get(admin, "sPasswordConfirm") == Str("0" + password)
    ensures DirsCheckAsWritten(paths, admin, true).None?
    ensures DirsCheck(paths, admin, true) == Some(Text("ERROR_PASSWORDS_DO_NOT_MATCH"))
  {
    LeadingZeroLooselyEqual(password);
    DirsChecksCascade(paths, admin, true, PasswordsMatchAsWritten(admin));
  }

  function Pow10(n: nat): (p: nat)
    ensures p >= 1
  {
    if n == 0 then 1 else 10 * Pow10(n - 1)
  }

  /** A string of at most n characters denotes less than 10 to the n. */
  lemma {:induction false} DigitsValueBelow(d: string, n: nat)
    requires |d| <= n
    ensures DigitsValue(d) < Pow10(n)
  {
    if |d| > 0 {
      DigitsValueBelow(d[..|d| - 1], n - 1);
      assert DigitsValue(d[..|d| - 1]) * 10 <= (Pow10(n - 1) - 1) * 10;
    }
  }

  /** Past PHP's integer range two digit strings compare as strings, so a leading zero makes them differ. */
  lemma LeadingZeroOverflowNotLooselyEqual(d: string)
    requires |d| > 0 && IsDigits(d) && DigitsValue(d) > PhpIntMax
    ensures !LooseEquals(Str(d), Str("0" + d))
  {
    var z := "0" + d;
    IntegerStringOfDigits(d);
    assert !InIntRange(StringToInt(d));
    assert |z| != |d|;
  }

  /** A digit password past PHP's integer range with a leading-zero confirmation is refused as written too. */
  lemma LooseComparisonRefusesOverflowingPasswords(paths: Value, admin: Value, password: string)
    requires RequiredDirsFieldsFilled(paths, admin)
    requires |password| > 0 && IsDigits(password) && DigitsValue(password) > PhpIntMax
    requires Get(admin, "sPassword") == Str(password) && Get(admin, "sPasswordConfirm") == Str("0" + password)
    ensures DirsCheckAsWritten(paths, admin, true) == Some(Text("ERROR_PASSWORDS_DO_NOT_MATCH"))
  {
    LeadingZeroOverflowNotLooselyEqual(password);
    if |password| < 6 {
      DigitsValueBelow(password, 5);
    }
  }

  /** The instance: password "123456", confirmation "0123456". */
  lemma LooseComparisonExample()
    ensures var paths := Dict(map["sShopURL" := Str("http://shop/"), "sShopDir" := Str("/shop/"),
                                  "sCompileDir" := Str("/shop/tmp/")]);
            var admin := Dict(map["sLoginName" := Str("admin@shop"), "sPassword" := Str("123456"),
                                  "sPasswordConfirm" := Str("0123456")]);
            DirsCheckAsWritten(paths, admin, true).None? && DirsCheck(paths, admin, true).Some?
  {
    var paths := Dict(map["sShopURL" := Str("http://shop/"), "sShopDir" := Str("/shop/"),
                          "sCompileDir" := Str("/shop/tmp/")]);
    var admin := Dict(map["sLoginName" := Str("admin@shop"), "sPassword" := Str("123456"),
                          "sPasswordConfirm" := Str("0123456")]);
    assert "0" + "123456" == "0123456";
    assert IsDigits("123456");
    DigitsValueBelow("123456", 6);
    LooseComparisonAcceptsDifferentPasswords(paths, admin, "123456");
  }

  // ---------------------------------------------------------------------------
  // The database-creation step
  // ---------------------------------------------------------------------------

  /** What the collaborators of the database-creation step report; each error carries its exception's message. */
  datatype DbCreateOutcomes = DbCreateOutcomes(
    createViewError: Option<string>,
    dbExists: bool,
    schemaError: Option<string>,
    shopDataError: Option<string>,
    regenerateViewsError: Option<string>,
    adminWriteError: Option<string>)

  function ErrorCheck(e: Option<string>): (bool, Message)
  {
    match e
    case None => (true, NoMessage)
    case Some(m) => (false, Detail(m))
  }

  /** The stages of the database-creation step in order, each with the message it sets when it fails. */
  function DbCreateChecks(o: DbCreateOutcomes, canOverwrite: bool, prompt: Message): seq<(bool, Message)>
  {
    [ ErrorCheck(o.createViewError),
      (canOverwrite, prompt),
      ErrorCheck(o.schemaError),
      (o.shopDataError.None?,
       TextWithDetail("ERROR_BAD_DEMODATA", "<br><br>", if o.shopDataError.Some? then o.shopDataError.value else "")),
      ErrorCheck(o.regenerateViewsError),
      ErrorCheck(o.adminWriteError) ]
  }

  /** The stages over `DbCreateChecks`: the first failing stage alone names the message. */
  lemma DbCreateChecksCascade(o: DbCreateOutcomes, canOverwrite: bool, prompt: Message)
    ensures var r := FirstFailure(DbCreateChecks(o, canOverwrite, prompt));
      && (r.None? <==> o.createViewError.None? && canOverwrite && o.schemaError.None? &&
                       o.shopDataError.None? && o.regenerateViewsError.None? && o.adminWriteError.None?)
      && (o.createViewError.Some? ==> r == Some(Detail(o.createViewError.value)))
      && (o.createViewError.None? && !canOverwrite ==> r == Some(prompt))
      && (o.createViewError.None? && canOverwrite && o.schemaError.Some? ==> r == Some(Detail(o.schemaError.value)))
      && (o.createViewError.None? && canOverwrite && o.schemaError.None? && o.shopDataError.Some? ==>
            r == Some(TextWithDetail("ERROR_BAD_DEMODATA", "<br><br>", o.shopDataError.value)))
      && (o.createViewError.None? && canOverwrite && o.schemaError.None? && o.shopDataError.None? &&
            o.regenerateViewsError.Some?
          ==> r == Some(Detail(o.regenerateViewsError.value)))
      && (o.createViewError.None? && canOverwrite && o.schemaError.None? && o.shopDataError.None? &&
            o.regenerateViewsError.None? && o.adminWriteError.Some?
          ==> r == Some(Detail(o.adminWriteError.value)))
  {
    var checks := DbCreateChecks(o, canOverwrite, prompt);
    FirstFailureNone(checks);
    if !checks[0].0 {
      FirstFailureAt(checks, 0);
    } else if !checks[1].0 {
      FirstFailureAt(checks, 1);
    } else if !checks[2].0 {
      FirstFailureAt(checks, 2);
    } else if !checks[3].0 {
      FirstFailureAt(checks, 3);
    } else if !checks[4].0 {
      FirstFailureAt(checks, 4);
    } else if !checks[5].0 {
      FirstFailureAt(checks, 5);
    } else {
      forall i | 0 <= i < |checks|
        ensures checks[i].0
      {
        if i == 0 {} else if i == 1 {} else if i == 2 {} else if i == 3 {} else if i == 4 {} else {}
      }
    }
  }

  /** The message of the first stage of the database-creation step that fails, if one does. */
  function DbCreateFailure(o: DbCreateOutcomes, canOverwrite: bool, prompt: Message): (r: Option<Message>)
    ensures r.None? <==> o.createViewError.None? && canOverwrite && o.schemaError.None? &&
                         o.shopDataError.None? && o.regenerateViewsError.None? && o.adminWriteError.None?
    ensures o.createViewError.Some? ==> r == Some(Detail(o.createViewError.value))
    ensures o.createViewError.None? && !canOverwrite ==> r == Some(prompt)
    ensures o.createViewError.None? && canOverwrite && o.schemaError.Some? ==> r == Some(Detail(o.schemaError.value))
    ensures o.createViewError.None? && canOverwrite && o.schemaError.None? && o.shopDataError.Some? ==>
              r == Some(TextWithDetail("ERROR_BAD_DEMODATA", "<br><br>", o.shopDataError.value))
    ensures o.createViewError.None? && canOverwrite && o.schemaError.None? && o.shopDataError.None? &&
              o.regenerateViewsError.Some?
            ==> r == Some(Detail(o.regenerateViewsError.value))
    ensures o.createViewError.None? && canOverwrite && o.schemaError.None? && o.shopDataError.None? &&
              o.regenerateViewsError.None? && o.adminWriteError.Some?
            ==> r == Some(Detail(o.adminWriteError.value))
  {
    DbCreateChecksCascade(o, canOverwrite, prompt);
    FirstFailure(DbCreateChecks(o, canOverwrite, prompt))
  }

  // ---------------------------------------------------------------------------
  // The system-requirements summary
  // ---------------------------------------------------------------------------

  const ServerPermissions: string := "server_permissions"

  /** A checked requirement and its state (0 means not met). */
  datatype ModuleState = ModuleState(name: string, state: int)

  /** A group of requirements, in the order they are checked. */
  datatype RequirementGroup = RequirementGroup(name: string, modules: seq<ModuleState>)

  /** One line of the summary: the module, its status class and its translated name. */
  datatype ModuleRow = ModuleRow(name: string, statusClass: string, moduleName: string)

  /** Every module of every group is met (a non-zero state). */
  ghost predicate AllModulesAvailable(info: seq<RequirementGroup>)
  {
    forall g, m :: 0 <= g < |info| && 0 <= m < |info[g].modules| ==> info[g].modules[m].state != 0
  }

  ghost predicate HasModule(info: seq<RequirementGroup>, name: string)
  {
    exists g, m :: 0 <= g < |info| && 0 <= m < |info[g].modules| && info[g].modules[m].name == name
  }

  /** Installation may continue: all modules are met, and the rewrite-rule file could be updated or no server-permissions module is checked. */
  ghost predicate SystemReqContinue(info: seq<RequirementGroup>, htaccessUpdateError: bool)
  {
    AllModulesAvailable(info) && !(htaccessUpdateError && HasModule(info, ServerPermissions))
  }

  /** The modules before position (i, j), in group-major order, are all met. */
  ghost predicate AvailableBefore(info: seq<RequirementGroup>, i: int, j: int)
  {
    forall g, m :: 0 <= g < |info| && 0 <= m < |info[g].modules| && (g < i || (g == i && m < j)) ==>
      info[g].modules[m].state != 0
  }

  /** A module before position (i, j) has this name. */
  ghost predicate NamedBefore(info: seq<RequirementGroup>, name: string, i: int, j: int)
  {
    exists g, m :: 0 <= g < |info| && 0 <= m < |info[g].modules| && (g < i || (g == i && m < j)) &&
      info[g].modules[m].name == name
  }

  lemma AvailableBeforeStart(info: seq<RequirementGroup>)
    ensures AvailableBefore(info, 0, 0) && !NamedBefore(info, ServerPermissions, 0, 0)
  {
  }

  /** Stepping over module (i, j) adds its state and its name. */
  lemma AvailableBeforeNext(info: seq<RequirementGroup>, i: nat, j: nat)
    requires i < |info| && j < |info[i].modules|
    ensures AvailableBefore(info, i, j + 1) == (AvailableBefore(info, i, j) && info[i].modules[j].state != 0)
    ensures NamedBefore(info, ServerPermissions, i, j + 1) ==
            (NamedBefore(info, ServerPermissions, i, j) || info[i].modules[j].name == ServerPermissions)
  {
  }

  /** The end of group i is the start of group i + 1. */
  lemma AvailableBeforeNextGroup(info: seq<RequirementGroup>, i: nat)
    requires i < |info|
    ensures AvailableBefore(info, i, |info[i].modules|) == AvailableBefore(info, i + 1, 0)
    ensures NamedBefore(info, ServerPermissions, i, |info[i].modules|) == NamedBefore(info, ServerPermissions, i + 1, 0)
  {
  }

  /** Past the last group, the positions before cover every module. */
  lemma AvailableBeforeEnd(info: seq<RequirementGroup>, htaccessUpdateError: bool)
    ensures (AvailableBefore(info, |info|, 0) && !(htaccessUpdateError && NamedBefore(info, ServerPermissions, |info|, 0)))
            == SystemReqContinue(info, htaccessUpdateError)
  {
  }

  /** A module's summary line; when the rewrite-rule file could not be updated, server permissions show as not met. */
  function RowOf(m: ModuleState, htaccessUpdateError: bool, translate: string -> string, moduleClass: int -> string): ModuleRow
  {
    ModuleRow(m.name,
              if htaccessUpdateError && m.name == ServerPermissions then moduleClass(0) else moduleClass(m.state),
              translate(m.name))
  }

  /** `$groups[$group][] = $row`. */
  function AddRow(groups: map<string, seq<ModuleRow>>, group: string, row: ModuleRow): map<string, seq<ModuleRow>>
  {
    groups[group := (if group in groups then groups[group] else []) + [row]]
  }

  /** The lines of `mods` appended under `group`, in order. */
  function AddModules(groups: map<string, seq<ModuleRow>>, group: string, mods: seq<ModuleState>,
                      htaccessUpdateError: bool, translate: string -> string, moduleClass: int -> string): (r: map<string, seq<ModuleRow>>)
    ensures r.Keys == groups.Keys + (if |mods| > 0 then {group} else {})
  {
    if |mods| == 0 then groups
    else
      AddRow(AddModules(groups, group, mods[..|mods| - 1], htaccessUpdateError, translate, moduleClass),
             group, RowOf(mods[|mods| - 1], htaccessUpdateError, translate, moduleClass))
  }

  /** Adding the first j + 1 modules is adding the first j, then the line of module j. */
  lemma AddModulesNext(groups: map<string, seq<ModuleRow>>, group: string, mods: seq<ModuleState>, j: nat,
                       htaccessUpdateError: bool, translate: string -> string, moduleClass: int -> string)
    requires j < |mods|
    ensures AddModules(groups, group, mods[..j + 1], htaccessUpdateError, translate, moduleClass) ==
            AddRow(AddModules(groups, group, mods[..j], htaccessUpdateError, translate, moduleClass),
                   group, RowOf(mods[j], htaccessUpdateError, translate, moduleClass))
  {
    assert mods[..j + 1][..j] == mods[..j];
  }

  /** The summary: the lines of every group's modules, grouped by translated group name. */
  function GroupInfo(info: seq<RequirementGroup>, htaccessUpdateError: bool, translate: string -> string,
                     moduleClass: int -> string): map<string, seq<ModuleRow>>
  {
    if |info| == 0 then map[]
    else
      var last := info[|info| - 1];
      AddModules(GroupInfo(info[..|info| - 1], htaccessUpdateError, translate, moduleClass),
                 translate(last.name), last.modules, htaccessUpdateError, translate, moduleClass)
  }

  /** The summary has an entry exactly for the translated name of each group that checks at least one module. */
  lemma {:induction false} GroupInfoKeys(info: seq<RequirementGroup>, htaccessUpdateError: bool,
                                         translate: string -> string, moduleClass: int -> string)
    ensures forall k :: k in GroupInfo(info, htaccessUpdateError, translate, moduleClass) <==>
                        exists g :: 0 <= g < |info| && |info[g].modules| > 0 && translate(info[g].name) == k
  {
    if |info| > 0 {
      var init := info[..|info| - 1];
      GroupInfoKeys(init, htaccessUpdateError, translate, moduleClass);
      assert forall g :: 0 <= g < |init| ==> init[g] == info[g];
    }
  }

  function EncodeRow(r: ModuleRow): Value
  {
    Dict(map["module" := Str(r.name), "class" := Str(r.statusClass), "modulename" := Str(r.moduleName)])
  }

  /** The summary as the PHP array handed to the view. */
  function EncodeGroups(groups: map<string, seq<ModuleRow>>): Value
  {
    Dict(map k | k in groups :: List(seq(|groups[k]|, i requires 0 <= i < |groups[k]| => EncodeRow(groups[k][i]))))
  }

  // ---------------------------------------------------------------------------
  // View options
  // ---------------------------------------------------------------------------

  /** The view parameters after setting each option in turn. */
  function WithOptions(params: map<string, Value>, options: seq<(string, Value)>): map<string, Value>
  {
    if |options| == 0 then params
    else
      var last := options[|options| - 1];
      WithOptions(params, options[..|options| - 1])[last.0 := last.1]
  }

  /** Options add their keys to the parameters and remove none. */
  lemma {:induction false} WithOptionsKeys(params: map<string, Value>, options: seq<(string, Value)>)
    ensures forall k :: k in WithOptions(params, options) <==>
                        k in params || exists i :: 0 <= i < |options| && options[i].0 == k
  {
    if |options| > 0 {
      var init := options[..|options| - 1];
      WithOptionsKeys(params, init);
      assert forall i :: 0 <= i < |init| ==> init[i] == options[i];
    }
  }

  /** The last option with a key gives that key its value. */
  lemma {:induction false} WithOptionsLastWins(params: map<string, Value>, options: seq<(string, Value)>, i: nat)
    requires i < |options|
    requires forall j :: i < j < |options| ==> options[j].0 != options[i].0
    ensures options[i].0 in WithOptions(params, options)
    ensures WithOptions(params, options)[options[i].0] == options[i].1
  {
    if i < |options| - 1 {
      var init := options[..|options| - 1];
      assert forall j :: i < j < |init| ==> init[j] == options[j];
      WithOptionsLastWins(params, init, i);
    }
  }

  /** A parameter no option names keeps its value. */
  lemma {:induction false} WithOptionsKeeps(params: map<string, Value>, options: seq<(string, Value)>, k: string)
    requires k in params
    requires forall i :: 0 <= i < |options| ==> options[i].0 != k
    ensures k in WithOptions(params, options) && WithOptions(params, options)[k] == params[k]
  {
    if |options| > 0 {
      var init := options[..|options| - 1];
      assert forall i :: 0 <= i < |init| ==> init[i] == options[i];
      WithOptionsKeeps(params, init, k);
    }
  }
}
