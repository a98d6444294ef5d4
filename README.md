# OXID eShop setup wizard and module template lookup, in Dafny

This project models two parts of OXID eShop.

**The setup wizard's controller** (`source/Setup/Controller.php`). Each
step of the installer is one handler: `systemReq`, `dbInfo`, `dirsInfo`,
`dbConnect`, `dbCreate` and `dirsWrite`. A handler reads the request and the
session bag, runs its checks in a fixed order, and leaves behind four
things: the next step, a message, the view's title and parameters, and the
name of the template to render. The model is a class `Controller` whose
fields are that state: `session`, `nextStep`, `title`, `message` and
`viewParams`. Its methods change those fields step by step, as the handlers
do. The pure decisions are functions in their own module:

- the database-overwrite guard and its confirmation link;
- the licence check;
- the connection failures;
- the directories step's validation cascade;
- the database-creation stages;
- the requirement summary.

What the collaborators would report is passed in as inputs: the database
connection, the file writers, the e-mail check, the path helpers, the
translations and the requirement check.

**The module template lookup** (`calculateModuleTemplatePath`). This is
modelled as the unit test `ModuleTemplatePathCalculatorTest.php` pins it
down. The configuration `aModuleTemplates` maps a module id to its
templates. A template name mapped to a path is the module's default. A
theme id mapped to a map is that theme's own set. Among the active modules,
the lookup picks a path in this order:

1. the custom theme's entry;
2. otherwise the theme's entry;
3. otherwise the default.

The result is the modules directory followed by that path. It fails with
"Cannot find template" when no active module offers the template, and with
"Cannot find template file" when the path found is not readable.

Files:

- `wrappers.dfy`: `Option` and `Result`.
- `php_values.dfy`: PHP values and the conversions the checks rely on: truthiness, `isset`, `(int)`, `strlen`, array read and write, and loose `==`.
- `query_string.dfy`: writing a link's query string and reading it back the way PHP fills `$_GET`.
- `setup_rules.dfy`: the controller's decisions, as functions and lemmas.
- `setup_controller.dfy`: the controller class and its handlers, plus the requirement-check loop.
- `module_template_path.dfy`: the template lookup, its precedence lemmas, the test's data-provider rows, and the calculator object.

## Model

| member | source | states |
|---|---|---|
| SetupRules.OverwriteGuard | source/Setup/Controller.php:541-569 | the database may be overwritten exactly when the GET variable `ow` is set, or the session's `blOverwrite` is truthy, or the database does not exist |
| SetupRules.OverwriteDecisionIsKept | source/Setup/Controller.php:216-218 | once `blOverwrite` is in the session, the guard holds whatever the request and the database |
| SetupRules.ConfirmationLinkText | source/Setup/Controller.php:580-585 | the confirmation link is `index.php?sid=<sid>&istep=<step>&ow=1` |
| SetupRules.ConfirmationLinkRoundTrip | source/Setup/Controller.php:584 | reading the link's query back gives exactly the session id, the step and `ow=1`, for a session id without `&` |
| SetupRules.FollowingConfirmationLinkAllowsOverwrite | source/Setup/Controller.php:561-566 | the request the confirmation link produces passes the overwrite guard for any session and any database state |
| QueryString.ParseRender | source/Setup/Controller.php:584 | a query written from key/value pairs reads back as the same pairs when no key holds `&` or `=` and no value holds `&` |
| QueryString.SplitJoin | source/Setup/Controller.php:584 | splitting at a separator undoes joining with it when no part contains the separator |
| QueryString.QueryVars | source/Setup/Controller.php:561 | the `$_GET` array has a key exactly for each non-empty key in the query; names are taken as they are |
| SetupRules.LicenseRefusedWhenBothFalsy | source/Setup/Controller.php:174-182 | with a falsy posted `iEula` and a falsy session `eula`, the licence is refused |
| SetupRules.LicenseFallsBackToSession | source/Setup/Controller.php:174-176 | a falsy posted `iEula` defers to the session's `eula`; a truthy one decides alone, through the `(int)` cast |
| SetupRules.LicenseNonNumericRefused | source/Setup/Controller.php:175 | a truthy non-numeric posted value such as "on" casts to 0 and refuses the licence |
| PhpValues.IntCastNonZeroIsTruthy | source/Setup/Controller.php:175-176 | a value whose `(int)` cast is non-zero is truthy |
| SetupRules.DbInfoValues | source/Setup/Controller.php:184-192 | the settings shown are the session's `aDB` when it is set, or else `localhost`, empty user, password and name, and demo data 1 |
| SetupController.Controller.DbInfo | source/Setup/Controller.php:168-204 | a refused licence selects STEP_WELCOME, sets ERROR_SETUP_CANCELLED and renders `licenseerror.php`; otherwise the title is STEP_3_TITLE and the view shows `aDB`, `blMbStringOn` and `blUnicodeSupport`, and the page is `dbinfo.php` |
| SetupController.Controller.DirsInfo | source/Setup/Controller.php:211-230 | the session gets `blOverwrite = true` exactly when the user decided to overwrite; the view shows the admin data, the default paths and `blDelSetupDir`, and the page is `dirsinfo.php` |
| SetupRules.WithUtfMode | source/Setup/Controller.php:246-247 | the posted database settings with `iUtfMode` set to 1 and every other key unchanged |
| SetupRules.ConnectFailure | source/Setup/Controller.php:250-285 | the step goes back only for an empty host or name, a refused connection (with " - " and the reason), an unfit MySQL version, or a failed `createDb` after any other error; it goes on exactly in the remaining cases |
| SetupController.Controller.DbConnect | source/Setup/Controller.php:237-298 | the session always gets the posted `aDB` with `iUtfMode = 1` first; every failure selects STEP_DB_INFO and renders `default.php`; a created database sets `blCreated = 1`; the step goes on to STEP_DIRS_INFO with `dbconnect.php` only when the guard holds, and otherwise shows the overwrite prompt with the link back to STEP_DIRS_INFO |
| SetupController.Controller.FormMessageIfDbCanBeOverwritten | source/Setup/Controller.php:580-586 | the message is the "already exists" prompt for the database name with the confirmation link |
| SetupRules.DbCreateChecksCascade | source/Setup/Controller.php:319-384 | the stages of database creation fail in order: the view test, the overwrite guard, the schema, the shop data (ERROR_BAD_DEMODATA and the reason), the view regeneration, then the admin account; the first failure alone names the message |
| SetupRules.DbCreateFailure | source/Setup/Controller.php:319-384 | no failure exactly when every stage succeeds and the guard holds; otherwise the message of the first failing stage |
| SetupController.Controller.DbCreate | source/Setup/Controller.php:305-390 | the title is STEP_4_2_TITLE and the page is always `default.php`. A failed view test selects STEP_DB_INFO. Later failures only set their message. Success sets STEP_4_2_UPDATING_DATABASE and selects STEP_FINISH. The session and the view parameters are untouched |
| SetupController.Controller.OnDirsWriteSetStep | source/Setup/Controller.php:529-532 | the next step is STEP_FINISH |
| SetupRules.PreparePaths | source/Setup/Controller.php:411-415 | the shop URL and both directories are the prepared posted values, the rewrite base is derived from the prepared URL, and every other key is kept |
| SetupRules.NormaliseSetupConfig | source/Setup/Controller.php:417-422 | `blDelSetupDir` becomes exactly 1 when it was set and truthy, otherwise 0, and every other key is kept |
| SetupRules.NormaliseSetupConfigIdempotent | source/Setup/Controller.php:417-422 | normalising an already normalised configuration changes nothing |
| SetupRules.DirsChecksCascade | source/Setup/Controller.php:428-460 | over the checks in order (required fields, password shorter than 6, password differs from its confirmation, invalid e-mail) the first failing check alone names the message; none exactly when all pass |
| SetupRules.DirsCheck | source/Setup/Controller.php:428-460 | the cascade with the password compared strictly: each failing check's message given that all earlier checks pass, and no message exactly when all pass |
| SetupRules.DirsCheckAsWritten | source/Setup/Controller.php:428-460 | the cascade as written, with the loose password comparison: each failing check's message given that all earlier checks pass, and no message exactly when all pass |
| SetupController.CheckDirsInput | source/Setup/Controller.php:428-460 | the checks run as the controller's early returns, with the password compared strictly as corrected under Findings, yield the message of the corrected cascade `DirsCheck` |
| SetupRules.DirsCheckAcceptsOnlyConfirmedPasswords | source/Setup/Controller.php:438-452 | an accepted form has a password of at least 6 characters equal to its confirmation |
| SetupRules.LooseComparisonAcceptsDifferentPasswords | source/Setup/Controller.php:447 | as written, a digit password of length 6 or more within PHP's integer range, with a confirmation that adds a leading zero, passes every check; the strict comparison refuses it |
| SetupRules.LooseComparisonRefusesOverflowingPasswords | source/Setup/Controller.php:447 | past PHP's integer range the same pair is compared as strings, so the cascade as written refuses it too |
| SetupRules.LooseComparisonExample | source/Setup/Controller.php:447 | the password "123456" with the confirmation "0123456" passes the cascade as written and fails the corrected one |
| SetupRules.CorrectedCheckDiffersOnlyOnLooseMatches | source/Setup/Controller.php:447 | the corrected cascade gives another result than the one as written only for a password that loosely equals its confirmation without being the same, and then it says ERROR_PASSWORDS_DO_NOT_MATCH |
| SetupController.Controller.DirsWrite | source/Setup/Controller.php:397-490 | title STEP_4_1_TITLE; the session gets the prepared paths, the normalised setup configuration and the admin data before any check; the first failed check or the writer's error selects STEP_DIRS_INFO with its message; success sets STEP_4_1_DATA_WAS_WRITTEN, shows `aPath`, `aSetupConfig` and the session's `aDB`, and selects STEP_DB_CREATE; the page is always `default.php`; the checks are the corrected cascade `DirsCheck` |
| SetupController.Controller.StoreDirsInput | source/Setup/Controller.php:424-489 | the state left once the input is prepared and checked, case by case, as in `DirsWrite` |
| SetupController.FoldModules | source/Setup/Controller.php:77-95 | `continue` is true exactly when every module's state is non-zero and not both the rewrite-rule update failed and a `server_permissions` module is checked; the summary lists each module's line under its translated group, in order |
| SetupController.FoldGroup | source/Setup/Controller.php:79-94 | one group's modules extend `continue` over that group's positions and append their lines under the group's translated name |
| SetupRules.GroupInfoKeys | source/Setup/Controller.php:91-93 | the summary has an entry exactly for the translated name of each group that checks at least one module |
| SetupRules.AddModules | source/Setup/Controller.php:80-94 | appending a group's lines adds the group's key when it has modules, and no other key |
| SetupRules.AddModulesNext | source/Setup/Controller.php:91-93 | each module appends its line, with its status class, after the lines of the modules before it |
| SetupRules.AvailableBeforeEnd | source/Setup/Controller.php:77-95 | after the last group, the positions passed cover every module, so the running flag equals the continue condition |
| SetupController.Controller.SystemReq | source/Setup/Controller.php:55-108 | title STEP_0_TITLE; the view gets `blContinue`, the encoded summary, the languages and the session's `setup_lang`, in that order; the page is `systemreq.php` |
| SetupController.Controller.SetViewOptions | source/Setup/Controller.php:622-630 | the title is set and the view parameters are the old ones with every option set in turn; nothing else changes |
| SetupRules.WithOptionsKeys | source/Setup/Controller.php:627-629 | options add their keys to the view parameters and remove none |
| SetupRules.WithOptionsLastWins | source/Setup/Controller.php:627-629 | the last option with a key gives that key its value |
| SetupRules.WithOptionsKeeps | source/Setup/Controller.php:627-629 | a parameter that no option names keeps its value |
| ModuleTemplatePath.ModuleCandidate | tests/unit/core/Controller/ModuleTemplatePathCalculatorTest.php:65-86 | a module offers a path exactly when the custom theme, the theme or the default has an entry for the template |
| ModuleTemplatePath.FindModuleTemplate | tests/unit/core/Controller/ModuleTemplatePathCalculatorTest.php:129-149 | the position found is that of an active module offering the template with no earlier one offering it; none is found exactly when no active module offers it |
| ModuleTemplatePath.TemplatePath | tests/unit/core/Controller/ModuleTemplatePathCalculatorTest.php:65-173 | a result is readable and is the modules directory followed by the path of an active module that offers the template. "Template not found" happens exactly when no active module offers it. An unreadable file is reported with its full path |
| ModuleTemplatePath.CustomThemeWins | tests/unit/core/Controller/ModuleTemplatePathCalculatorTest.php:69-86 | the custom theme's entry wins over the theme's entry and the default |
| ModuleTemplatePath.ThemeBeforeDefault | tests/unit/core/Controller/ModuleTemplatePathCalculatorTest.php:67-84 | without a custom theme entry, the theme's entry wins over the default |
| ModuleTemplatePath.DefaultWhenNoThemeEntry | tests/unit/core/Controller/ModuleTemplatePathCalculatorTest.php:65-109 | with no theme entry (no theme, an unknown theme, or a theme without the template) the default is used, and without a default the template is not found |
| ModuleTemplatePath.InactiveModule | tests/unit/core/Controller/ModuleTemplatePathCalculatorTest.php:129-149 | a template offered only by an inactive module is not found |
| ModuleTemplatePath.NoActiveModules | tests/unit/core/Controller/ModuleTemplatePathCalculatorTest.php:129-149 | with no active modules every lookup fails, and its message starts with "Cannot find template" and not with "Cannot find template file" |
| ModuleTemplatePath.FirstOfferingModuleDecides | tests/unit/core/Controller/ModuleTemplatePathCalculatorTest.php:154-173 | the first active module that offers the template decides the result: its path if readable, otherwise the unreadable-file error |
| ModuleTemplatePath.ErrorMessage | tests/unit/core/Controller/ModuleTemplatePathCalculatorTest.php:146-170 | every message starts with "Cannot find template"; exactly the unreadable-file message starts with "Cannot find template file" |
| ModuleTemplatePath.ExampleFirst | tests/unit/core/Controller/ModuleTemplatePathCalculatorTest.php:65-69 | the five `first.tpl` rows of the data provider |
| ModuleTemplatePath.ExampleSecond | tests/unit/core/Controller/ModuleTemplatePathCalculatorTest.php:71-73 | the three `second.tpl` rows |
| ModuleTemplatePath.ExampleThird | tests/unit/core/Controller/ModuleTemplatePathCalculatorTest.php:75-77 | the three `third.tpl` rows |
| ModuleTemplatePath.ExampleFourth | tests/unit/core/Controller/ModuleTemplatePathCalculatorTest.php:79-81 | the three `fourth.tpl` rows |
| ModuleTemplatePath.ExampleFifthAndSixth | tests/unit/core/Controller/ModuleTemplatePathCalculatorTest.php:83-86 | the `fifth.tpl` and `sixth.tpl` rows |
| ModuleTemplatePath.ExampleNotFound | tests/unit/core/Controller/ModuleTemplatePathCalculatorTest.php:104-124 | the three exception rows: a template found only under a theme that is not active is not found |
| ModuleTemplatePath.ExampleUnreadableFile | tests/unit/core/Controller/ModuleTemplatePathCalculatorTest.php:154-173 | with no modules directory set and an unreadable default file, `first.tpl` fails with "Cannot find template file" for `test_path/first_default.tpl` |
| ModuleTemplatePath.ModuleTemplatePathCalculator.constructor | tests/unit/core/Controller/ModuleTemplatePathCalculatorTest.php:184-203 | the calculator keeps its collaborators, and its modules directory starts empty |
| ModuleTemplatePath.ModuleTemplatePathCalculator.SetModulesPath | tests/unit/core/Controller/ModuleTemplatePathCalculatorTest.php:201 | the modules directory becomes the given path |
| ModuleTemplatePath.ModuleTemplatePathCalculator.CalculateModuleTemplatePath | tests/unit/core/Controller/ModuleTemplatePathCalculatorTest.php:95-98 | a result is readable and starts with the current modules directory; "template not found" names the template asked for |

## Left out

- The welcome, license and finish handlers are not modelled. They only copy values into the view and set cookies or read files.
- Collaborators are inputs, not models:
  - outcomes: the database connection, `createDb`, the view test, the schema and data import, view regeneration, writing the admin account, and writing the config and rewrite-rule files;
  - functions: `preparePath`, `extractRewriteBase`, `isValidEmail`, the module-class lookup and the translations.
- `dbCreate`: `openDatabase`, `setMySqlCollation`, the latin1-to-UTF-8 query, `saveShopSettings` and `convertConfigTableToUtf` raise no caught exception. They are taken to succeed, so an uncaught exception from them is not modelled.
- `dbCreate`: which of demo data and initial data is installed (`installShopData`) is not modelled; only its success or failure is.
- Numeric step codes are not modelled. `Setup::getStep` is not part of this model, so a step is named by its `STEP_...` name, and the link carries that name as `istep`.
- Localised texts stay abstract. A message is a text key, a key with an exception's message, an exception's message alone, or the overwrite prompt. `getText`, `sprintf` and the prompt's HTML are not modelled.
- Percent-encoding of the link is not modelled. For the round trip, the session id must not contain `&`.
- The order in which PHP iterates the requirement groups is the order of the input sequence.
- SetupRules.GroupInfo: the summary is a map from group name to lines, so the order of the groups, which PHP keeps as insertion order and the page shows, is not kept; the lines within a group keep their order.
- PHP errors from using a string or number as an array (`$x['k']` on a scalar) are not modelled. A read on a non-array gives null, and a write replaces the value with a one-key array.
- Numeric strings are integer strings only. Floats, exponents and trailing whitespace are not modelled in `(int)` or in loose `==`.
- PhpValues.LooseEquals: integers are those of a 64-bit platform. Two integer strings outside that range are equal exactly when they are the same string, which is what PHP's float comparison with its fall-back to the characters gives; floats themselves are not modelled.
- QueryString.QueryVars: variable names are registered as they are. PHP strips leading spaces, turns ' ' and '.' into '_', and reads `a[...]` as an array; none of that happens to the link's keys `sid`, `istep` and `ow`. Percent-decoding is not modelled either.
- SetupController.CheckDirsInput: compares the passwords strictly, the corrected comparison under Findings, where line 447 uses PHP's loose `!=`. `SetupRules.DirsCheckAsWritten` models the check as written, and `SetupRules.CorrectedCheckDiffersOnlyOnLooseMatches` shows the two differ only on loosely equal, different passwords.
- SetupController.Controller.DirsWrite: runs the corrected cascade, so for a password that loosely equals its confirmation without being the same (such as "123456" and "0123456") it returns to STEP_DIRS_INFO with ERROR_PASSWORDS_DO_NOT_MATCH, where the controller as written writes the files and goes on to STEP_DB_CREATE.
- `strlen` counts characters, not bytes. Arrays count as 0.
- An array entry with an integer key is not modelled. The request and the session are string-keyed.
- The implementation of `calculateModuleTemplatePath` is not part of this model; the model follows what the unit test fixes. Where the test does not decide, the model chooses:
  - the configuration is searched in its own order, and the first active module that offers the template decides. The test only has one module, so this order is a choice of the model;
  - an entry is either a path or a theme's map. A theme id that maps to a path, or a template name that maps to a map, offers nothing;
  - `combinePaths` is plain concatenation;
  - the messages after "Cannot find template" and "Cannot find template file" are this model's wording. The test only fixes those prefixes.
- ModuleTemplatePath.ModuleTemplatePathCalculator.CalculateModuleTemplatePath: its contract states only the result's shape. The precedence rules are proved about `TemplatePath`, which it returns.

## Findings

| source | as written | input that shows it | evidently intended | confidence | as-written member | corrected member |
|---|---|---|---|---|---|---|
| source/Setup/Controller.php:447 | the password and its confirmation are compared with PHP's loose `!=`, which compares two numeric strings as numbers | password "123456", confirmation "0123456": both are integer strings of value 123456, so the check passes although the strings differ | the admin password must equal its confirmation character for character | medium, not executed | SetupRules.DirsCheckAsWritten, SetupRules.LooseComparisonAcceptsDifferentPasswords | SetupRules.DirsCheck |
