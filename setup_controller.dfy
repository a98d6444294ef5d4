/**
 * The setup wizard's controller: one handler per step. Each handler reads
 * the request and the session, runs its checks in a fixed order, and leaves
 * behind the next step, a message, the view's title and parameters, and the
 * name of the template it renders. What the collaborators would report
 * (database, file system, e-mail check, translations) is passed in.
 */
module SetupController {
  import opened Wrappers
  import opened PhpValues
  import opened SetupRules

  /** The request of one step: its POST and GET variables. */
  datatype Request = Request(post: map<string, Value>, get: map<string, Value>)

  /**
   * One group of the requirement check's fold: each module of group `i`
   * updates `continue` and adds its line under the group's translated name.
   */
  method FoldGroup(info: seq<RequirementGroup>, i: nat, htaccessUpdateError: bool,
                   translate: string -> string, moduleClass: int -> string,
                   cont0: bool, groups0: map<string, seq<ModuleRow>>)
    returns (cont: bool, groups: map<string, seq<ModuleRow>>)
    requires i < |info|
    requires cont0 == (AvailableBefore(info, i, 0) && !(htaccessUpdateError && NamedBefore(info, ServerPermissions, i, 0)))
    ensures cont == (AvailableBefore(info, i + 1, 0) && !(htaccessUpdateError && NamedBefore(info, ServerPermissions, i + 1, 0)))
    ensures groups == AddModules(groups0, translate(info[i].name), info[i].modules, htaccessUpdateError, translate, moduleClass)
  {
    var group := info[i];
    var groupName := translate(group.name);
    cont, groups := cont0, groups0;
    var j := 0;
    while j < |group.modules|
      invariant 0 <= j <= |group.modules|
      invariant cont == (AvailableBefore(info, i, j) && !(htaccessUpdateError && NamedBefore(info, ServerPermissions, i, j)))
      invariant groups == AddModules(groups0, groupName, group.modules[..j], htaccessUpdateError, translate, moduleClass)
    {
      var m := group.modules[j];
      AvailableBeforeNext(info, i, j);
      cont := cont && m.state != 0;
      var statusClass;
      if htaccessUpdateError && m.name == ServerPermissions {
        statusClass := moduleClass(0);
        cont := false;
      } else {
        statusClass := moduleClass(m.state);
      }
      assert ModuleRow(m.name, statusClass, translate(m.name)) == RowOf(m, htaccessUpdateError, translate, moduleClass);
      AddModulesNext(groups0, groupName, group.modules, j, htaccessUpdateError, translate, moduleClass);
      groups := AddRow(groups, groupName, ModuleRow(m.name, statusClass, translate(m.name)));
      j := j + 1;
    }
    AvailableBeforeNextGroup(info, i);
    assert group.modules[..j] == group.modules;
  }

  /**
   * The requirement check's fold: `continue` stays true while every module
   * is met, and is forced to false by the server-permissions module when
   * the rewrite-rule file could not be updated; the summary lists every
   * module under its translated group.
   */
  method FoldModules(info: seq<RequirementGroup>, htaccessUpdateError: bool,
                     translate: string -> string, moduleClass: int -> string)
    returns (cont: bool, groups: map<string, seq<ModuleRow>>)
    ensures cont == SystemReqContinue(info, htaccessUpdateError)
    ensures groups == GroupInfo(info, htaccessUpdateError, translate, moduleClass)
  {
    cont := true;
    groups := map[];
    AvailableBeforeStart(info);
    var i := 0;
    while i < |info|
      invariant 0 <= i <= |info|
      invariant cont == (AvailableBefore(info, i, 0) && !(htaccessUpdateError && NamedBefore(info, ServerPermissions, i, 0)))
      invariant groups == GroupInfo(info[..i], htaccessUpdateError, translate, moduleClass)
    {
      cont, groups := FoldGroup(info, i, htaccessUpdateError, translate, moduleClass, cont, groups);
      assert info[..i + 1][..i] == info[..i];
      i := i + 1;
    }
    AvailableBeforeEnd(info, htaccessUpdateError);
    assert info[..i] == info;
  }

  /**
   * The directories step's checks, in order: every required field filled,
   * a password of at least six characters, the password equal to its
   * confirmation, an admin login that is a valid e-mail address. The
   * password is compared strictly, the corrected form of the controller's
   * loose comparison.
   */
  method CheckDirsInput(paths: Value, admin: Value, isValidEmail: Value -> bool) returns (failure: Option<Message>)
    ensures failure == DirsCheck(paths, admin, isValidEmail(Get(admin, "sLoginName")))
  {
    if !RequiredDirsFieldsFilled(paths, admin) {
      return Some(Text("ERROR_FILL_ALL_FIELDS"));
    }
    if PasswordTooShort(admin) {
      return Some(Text("ERROR_PASSWORD_TOO_SHORT"));
    }
    if !PasswordsMatch(admin) {
      return Some(Text("ERROR_PASSWORDS_DO_NOT_MATCH"));
    }
    if !isValidEmail(Get(admin, "sLoginName")) {
      return Some(Text("ERROR_USER_NAME_DOES_NOT_MATCH_PATTERN"));
    }
    return None;
  }

  class Controller {
    /** The session bag. */
    var session: map<string, Value>
    /** The step the wizard goes to next, once a handler has chosen one. */
    var nextStep: Option<Step>
    /** The view's title, message and parameters. */
    var title: string
    var message: Message
    var viewParams: map<string, Value>

    constructor(session: map<string, Value>)
      ensures this.session == session && nextStep == None
      ensures title == "" && message == NoMessage && viewParams == map[]
    {
      this.session := session;
      nextStep := None;
      title := "";
      message := NoMessage;
      viewParams := map[];
    }

    /** Sets the title, then each option in turn as a view parameter. */
    method SetViewOptions(newTitle: string, options: seq<(string, Value)>)
      modifies this
      ensures title == newTitle && viewParams == WithOptions(old(viewParams), options)
      ensures session == old(session) && nextStep == old(nextStep) && message == old(message)
    {
      title := newTitle;
      for i := 0 to |options|
        invariant title == newTitle
        invariant viewParams == WithOptions(old(viewParams), options[..i])
        invariant session == old(session) && nextStep == old(nextStep) && message == old(message)
      {
        viewParams := viewParams[options[i].0 := options[i].1];
        assert options[..i + 1][..i] == options[..i];
      }
      assert options[..|options|] == options;
    }

    /** First page: the system-requirements summary and whether installation may continue. */
    method SystemReq(info: seq<RequirementGroup>, htaccessUpdateError: bool, translate: string -> string,
                     moduleClass: int -> string, languages: Value)
      returns (page: string)
      modifies this
      ensures page == "systemreq.php" && title == "STEP_0_TITLE"
      ensures viewParams == WithOptions(old(viewParams), [
                ("blContinue", Bool(SystemReqContinue(info, htaccessUpdateError))),
                ("aGroupModuleInfo", EncodeGroups(GroupInfo(info, htaccessUpdateError, translate, moduleClass))),
                ("aLanguages", languages),
                ("sLanguage", Param(old(session), "setup_lang"))])
      ensures session == old(session) && nextStep == old(nextStep) && message == old(message)
    {
      var cont, groups := FoldModules(info, htaccessUpdateError, translate, moduleClass);
      SetViewOptions("STEP_0_TITLE", [
        ("blContinue", Bool(cont)),
        ("aGroupModuleInfo", EncodeGroups(groups)),
        ("aLanguages", languages),
        ("sLanguage", Param(session, "setup_lang"))]);
      page := "systemreq.php";
    }

    /**
     * Database-info page: refuses to go on without an accepted licence;
     * otherwise shows the session's database settings or the defaults.
     */
    method DbInfo(req: Request, mbStringInfo: Value, unicodeSupportInfo: Value) returns (page: string)
      modifies this
      ensures session == old(session)
      ensures !LicenseAccepted(req.post, old(session)) ==>
                && page == "licenseerror.php" && nextStep == Some(StepWelcome)
                && message == Text("ERROR_SETUP_CANCELLED")
                && title == old(title) && viewParams == old(viewParams)
      ensures LicenseAccepted(req.post, old(session)) ==>
                && page == "dbinfo.php" && title == "STEP_3_TITLE"
                && nextStep == old(nextStep) && message == old(message)
                && viewParams == WithOptions(old(viewParams), [
                     ("aDB", DbInfoValues(old(session))),
                     ("blMbStringOn", mbStringInfo),
                     ("blUnicodeSupport", unicodeSupportInfo)])
    {
      var posted := Param(req.post, "iEula");
      var eula := IntCast(if Truthy(posted) then posted else Param(session, "eula"));
      if eula == 0 {
        nextStep := Some(StepWelcome);
        message := Text("ERROR_SETUP_CANCELLED");
        return "licenseerror.php";
      }
      var db := Param(session, "aDB");
      if !IsSet(db) {
        db := Put(db, "dbHost", Str("localhost"));
        db := Put(db, "dbUser", Str(""));
        db := Put(db, "dbPwd", Str(""));
        db := Put(db, "dbName", Str(""));
        db := Put(db, "dbiDemoData", Int(1));
      }
      SetViewOptions("STEP_3_TITLE", [("aDB", db), ("blMbStringOn", mbStringInfo), ("blUnicodeSupport", unicodeSupportInfo)]);
      page := "dbinfo.php";
    }

    /** Directories-info page: remembers the overwrite decision, shows the admin data and the default paths. */
    method DirsInfo(req: Request, defaultPaths: Value, deleteSetupDirectory: Value) returns (page: string)
      modifies this
      ensures session == if UserDecidedOverwriteDb(req.get, old(session))
                         then old(session)["blOverwrite" := Bool(true)] else old(session)
      ensures page == "dirsinfo.php" && title == "STEP_4_TITLE"
      ensures viewParams == WithOptions(old(viewParams), [
                ("aAdminData", Param(session, "aAdminData")),
                ("aPath", defaultPaths),
                ("aSetupConfig", Dict(map["blDelSetupDir" := deleteSetupDirectory]))])
      ensures nextStep == old(nextStep) && message == old(message)
    {
      if UserDecidedOverwriteDb(req.get, session) {
        session := session["blOverwrite" := Bool(true)];
      }
      SetViewOptions("STEP_4_TITLE", [
        ("aAdminData", Param(session, "aAdminData")),
        ("aPath", defaultPaths),
        ("aSetupConfig", Dict(map["blDelSetupDir" := deleteSetupDirectory]))]);
      page := "dirsinfo.php";
    }

    /** The warning that the database exists, with the link that confirms overwriting it. */
    method FormMessageIfDbCanBeOverwritten(dbName: Value, sid: string, step: Step)
      modifies this`message
      ensures message == OverwritePrompt(dbName, ConfirmationLink(sid, step))
    {
      message := OverwritePrompt(dbName, ConfirmationLink(sid, step));
    }

    /**
     * Database connection: stores the posted settings, checks the required
     * fields and the connection (creating the database after an exception
     * other than a refused connection or an unfit MySQL version), then moves
     * on to the directories step only if the database may be overwritten.
     */
    method DbConnect(req: Request, sid: string, open: OpenResult, createDbError: Option<string>, dbExists: bool)
      returns (page: string)
      modifies this
      ensures var db := WithUtfMode(Param(req.post, "aDB"));
              && session == old(session)["aDB" := db]
              && title == "STEP_3_1_TITLE"
              && (ConnectFailure(db, open, createDbError).Some? ==>
                    && page == "default.php" && nextStep == Some(StepDbInfo)
                    && message == ConnectFailure(db, open, createDbError).value
                    && viewParams == old(viewParams))
              && (ConnectFailure(db, open, createDbError).None? ==>
                    && viewParams == (if open.Opened? then old(viewParams) else old(viewParams)["blCreated" := Int(1)])["aDB" := db]
                    && (DatabaseCanBeOverwritten(req.get, old(session), dbExists) ==>
                          page == "dbconnect.php" && nextStep == Some(StepDirsInfo) && message == old(message))
                    && (!DatabaseCanBeOverwritten(req.get, old(session), dbExists) ==>
                          && page == "default.php" && nextStep == old(nextStep)
                          && message == OverwritePrompt(Get(db, "dbName"), ConfirmationLink(sid, StepDirsInfo))))
    {
      title := "STEP_3_1_TITLE";
      var db := Param(req.post, "aDB");
      db := Put(db, "iUtfMode", Int(1));
      session := session["aDB" := db];

      if !Truthy(Get(db, "dbHost")) || !Truthy(Get(db, "dbName")) {
        nextStep := Some(StepDbInfo);
        message := Text("ERROR_FILL_ALL_FIELDS");
        return "default.php";
      }

      if open.Failed? {
        if open.code == ErrorDbConnect {
          nextStep := Some(StepDbInfo);
          message := TextWithDetail("ERROR_DB_CONNECT", " - ", open.reason);
          return "default.php";
        } else if open.code == ErrorMysqlVersion {
          nextStep := Some(StepDbInfo);
          message := Detail(open.reason);
          return "default.php";
        } else {
          if createDbError.Some? {
            nextStep := Some(StepDbInfo);
            message := Detail(createDbError.value);
            return "default.php";
          }
          viewParams := viewParams["blCreated" := Int(1)];
        }
      }

      viewParams := viewParams["aDB" := db];

      assert Param(session, "blOverwrite") == Param(old(session), "blOverwrite");
      if !DatabaseCanBeOverwritten(req.get, session, dbExists) {
        FormMessageIfDbCanBeOverwritten(Get(db, "dbName"), sid, StepDirsInfo);
        return "default.php";
      }

      nextStep := Some(StepDirsInfo);
      page := "dbconnect.php";
    }

    /** After the database is written, the wizard goes on to the final step. */
    method OnDirsWriteSetStep()
      modifies this`nextStep
      ensures nextStep == Some(StepFinish)
    {
      nextStep := Some(StepFinish);
    }

    /**
     * Database creation: checks that views can be created, the overwrite
     * guard, then runs the schema, the shop data, the view regeneration and
     * the admin account; the first stage that fails names the message, and
     * only a refused view test sends the user back to the database-info step.
     */
    method DbCreate(sid: string, outcomes: DbCreateOutcomes, get: map<string, Value>) returns (page: string)
      modifies this
      ensures var db := Param(old(session), "aDB");
              var canOverwrite := DatabaseCanBeOverwritten(get, old(session), outcomes.dbExists);
              var prompt := OverwritePrompt(Get(db, "dbName"), ConfirmationLink(sid, StepDbCreate));
              var failure := DbCreateFailure(outcomes, canOverwrite, prompt);
              && page == "default.php" && title == "STEP_4_2_TITLE"
              && session == old(session) && viewParams == old(viewParams)
              && message == (if failure.Some? then failure.value else Text("STEP_4_2_UPDATING_DATABASE"))
              && nextStep == (if outcomes.createViewError.Some? then Some(StepDbInfo)
                              else if failure.None? then Some(StepFinish)
                              else old(nextStep))
    {
      title := "STEP_4_2_TITLE";
      var db := Param(session, "aDB");

      if outcomes.createViewError.Some? {
        message := Detail(outcomes.createViewError.value);
        nextStep := Some(StepDbInfo);
        return "default.php";
      }

      ghost var prompt := OverwritePrompt(Get(db, "dbName"), ConfirmationLink(sid, StepDbCreate));
      ghost var canOverwrite := DatabaseCanBeOverwritten(get, session, outcomes.dbExists);
      ghost var failure := DbCreateFailure(outcomes, canOverwrite, prompt);
      if !DatabaseCanBeOverwritten(get, session, outcomes.dbExists) {
        FormMessageIfDbCanBeOverwritten(Get(db, "dbName"), sid, StepDbCreate);
        assert failure == Some(prompt);
        return "default.php";
      }

      if outcomes.schemaError.Some? {
        message := Detail(outcomes.schemaError.value);
        return "default.php";
      }
      if outcomes.shopDataError.Some? {
        message := TextWithDetail("ERROR_BAD_DEMODATA", "<br><br>", outcomes.shopDataError.value);
        return "default.php";
      }
      if outcomes.regenerateViewsError.Some? {
        message := Detail(outcomes.regenerateViewsError.value);
        return "default.php";
      }

      if outcomes.adminWriteError.Some? {
        message := Detail(outcomes.adminWriteError.value);
        return "default.php";
      }

      message := Text("STEP_4_2_UPDATING_DATABASE");
      OnDirsWriteSetStep();
      page := "default.php";
    }

    /**
     * Writing the configuration: prepares the posted paths, normalises
     * `blDelSetupDir`, stores paths, setup configuration and admin data in
     * the session, runs the validation cascade, then writes the files and
     * moves on to the database-creation step.
     */
    method DirsWrite(req: Request, prepare: Value -> Value, rewriteBase: Value -> Value,
                     isValidEmail: Value -> bool, writeError: Option<string>)
      returns (page: string)
      modifies this
      ensures var paths := PreparePaths(Param(req.post, "aPath"), prepare, rewriteBase);
              var setupConfig := NormaliseSetupConfig(Param(req.post, "aSetupConfig"));
              var admin := Param(req.post, "aAdminData");
              var failure := DirsCheck(paths, admin, isValidEmail(Get(admin, "sLoginName")));
              && session == old(session)["aPath" := paths]["aSetupConfig" := setupConfig]["aAdminData" := admin]
              && page == "default.php" && title == "STEP_4_1_TITLE"
              && (failure.Some? ==>
                    nextStep == Some(StepDirsInfo) && message == failure.value && viewParams == old(viewParams))
              && (failure.None? && writeError.Some? ==>
                    nextStep == Some(StepDirsInfo) && message == Detail(writeError.value) && viewParams == old(viewParams))
              && (failure.None? && writeError.None? ==>
                    && nextStep == Some(StepDbCreate) && message == Text("STEP_4_1_DATA_WAS_WRITTEN")
                    && viewParams == old(viewParams)["aPath" := paths]["aSetupConfig" := setupConfig]
                                                    ["aDB" := Param(old(session), "aDB")])
    {
      var paths := PreparePaths(Param(req.post, "aPath"), prepare, rewriteBase);
      var setupConfig := NormaliseSetupConfig(Param(req.post, "aSetupConfig"));
      var admin := Param(req.post, "aAdminData");
      var failure := CheckDirsInput(paths, admin, isValidEmail);
      page := StoreDirsInput(paths, setupConfig, admin, failure, writeError);
    }

    /**
     * The directories step once its input is prepared and checked: the
     * input is kept in the session, then the step goes back to the form
     * with the first failed check or the writer's error, or on to database
     * creation with the paths, the setup configuration and the database
     * settings shown.
     */
    method StoreDirsInput(paths: Value, setupConfig: Value, admin: Value, failure: Option<Message>,
                          writeError: Option<string>)
      returns (page: string)
      modifies this
      ensures session == old(session)["aPath" := paths]["aSetupConfig" := setupConfig]["aAdminData" := admin]
      ensures page == "default.php" && title == "STEP_4_1_TITLE"
      ensures failure.Some? ==>
                nextStep == Some(StepDirsInfo) && message == failure.value && viewParams == old(viewParams)
      ensures failure.None? && writeError.Some? ==>
                nextStep == Some(StepDirsInfo) && message == Detail(writeError.value) && viewParams == old(viewParams)
      ensures failure.None? && writeError.None? ==>
                && nextStep == Some(StepDbCreate) && message == Text("STEP_4_1_DATA_WAS_WRITTEN")
                && viewParams == old(viewParams)["aPath" := paths]["aSetupConfig" := setupConfig]
                                                ["aDB" := Param(old(session), "aDB")]
    {
      title := "STEP_4_1_TITLE";
      session := session["aPath" := paths]["aSetupConfig" := setupConfig]["aAdminData" := admin];

      if failure.Some? {
        nextStep := Some(StepDirsInfo);
        message := failure.value;
        return "default.php";
      }

      if writeError.Some? {
        nextStep := Some(StepDirsInfo);
        message := Detail(writeError.value);
        return "default.php";
      }

      message := Text("STEP_4_1_DATA_WAS_WRITTEN");
      viewParams := viewParams["aPath" := paths]["aSetupConfig" := setupConfig]["aDB" := Param(session, "aDB")];
      nextStep := Some(StepDbCreate);
      page := "default.php";
    }
  }
}
