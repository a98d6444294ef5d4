/**
 * Where a module's template lives. The shop configuration `aModuleTemplates`
 * maps each module id to its templates: a template name mapped straight to a
 * relative path is the module's default, and a theme id mapped to a second
 * map gives that theme's own paths. A template is looked up among the active
 * modules; for each module the custom theme's entry wins over the theme's
 * entry, which wins over the default. The path found is prefixed with the
 * modules directory and must name a readable file.
 */
module ModuleTemplatePath {
  import opened Wrappers

  /** One entry of a module's template list: a default path, or a theme's own template map. */
  datatype Entry = TemplateFile(path: string) | ThemeTemplates(files: map<string, string>)

  /** The templates of one module, keyed by template name or theme id. */
  type ModuleTemplates = map<string, Entry>

  /** `aModuleTemplates`: the modules and their templates, in configuration order. */
  type TemplateConfiguration = seq<(string, ModuleTemplates)>

  datatype LookupError =
    | TemplateNotFound(name: string)   // no active module offers the template
    | TemplateFileNotFound(path: string) // the path found is not a readable file

  const NotFoundPrefix: string := "Cannot find template"
  const FileNotFoundPrefix: string := "Cannot find template file"

  /** The exception's message; both start with "Cannot find template", only the unreadable file's with "Cannot find template file". */
  function ErrorMessage(e: LookupError): (m: string)
    ensures |m| >= |NotFoundPrefix| && m[..|NotFoundPrefix|] == NotFoundPrefix
    ensures e.TemplateFileNotFound? <==> |m| >= |FileNotFoundPrefix| && m[..|FileNotFoundPrefix|] == FileNotFoundPrefix
  {
    match e
    case TemplateNotFound(name) =>
      var m := NotFoundPrefix + " '" + name + "' in modules configuration";
      assert m[21] != FileNotFoundPrefix[21];
      m
    case TemplateFileNotFound(path) => FileNotFoundPrefix + " '" + path + "'"
  }

  /** The path a theme gives the template, if the theme is set and has its own entry for it. */
  function ThemeEntry(templates: ModuleTemplates, theme: Option<string>, name: string): Option<string>
  {
    if theme.Some? && theme.value in templates && templates[theme.value].ThemeTemplates?
       && name in templates[theme.value].files
    then Some(templates[theme.value].files[name])
    else None
  }

  /** The module's default path for the template. */
  function DefaultEntry(templates: ModuleTemplates, name: string): Option<string>
  {
    if name in templates && templates[name].TemplateFile? then Some(templates[name].path) else None
  }

  /** The path one module offers: the custom theme's entry, else the theme's entry, else the default. */
  function ModuleCandidate(templates: ModuleTemplates, theme: Option<string>, customTheme: Option<string>,
                           name: string): (r: Option<string>)
    ensures r.None? <==> ThemeEntry(templates, customTheme, name).None? && ThemeEntry(templates, theme, name).None?
                         && DefaultEntry(templates, name).None?
  {
    if ThemeEntry(templates, customTheme, name).Some? then ThemeEntry(templates, customTheme, name)
    else if ThemeEntry(templates, theme, name).Some? then ThemeEntry(templates, theme, name)
    else DefaultEntry(templates, name)
  }

  /** Module i is active and offers the template. */
  predicate Offers(config: TemplateConfiguration, active: set<string>, theme: Option<string>,
                   customTheme: Option<string>, name: string, i: int)
    requires 0 <= i < |config|
  {
    config[i].0 in active && ModuleCandidate(config[i].1, theme, customTheme, name).Some?
  }

  /** The position of the first active module that offers the template. */
  function FindModuleTemplate(config: TemplateConfiguration, active: set<string>, theme: Option<string>,
                              customTheme: Option<string>, name: string): (r: Option<nat>)
    ensures r.Some? ==> r.value < |config| && Offers(config, active, theme, customTheme, name, r.value)
    ensures r.Some? ==> forall j :: 0 <= j < r.value ==> !Offers(config, active, theme, customTheme, name, j)
    ensures r.None? <==> forall j :: 0 <= j < |config| ==> !Offers(config, active, theme, customTheme, name, j)
    decreases |config|
  {
    if |config| == 0 then None
    else if Offers(config, active, theme, customTheme, name, 0) then Some(0)
    else
      var rest := FindModuleTemplate(config[1..], active, theme, customTheme, name);
      assert forall j :: 1 <= j < |config| ==>
               Offers(config, active, theme, customTheme, name, j) == Offers(config[1..], active, theme, customTheme, name, j - 1);
      if rest.Some? then
        assert forall j :: 0 <= j < rest.value + 1 ==> !Offers(config, active, theme, customTheme, name, j) by {
          forall j | 0 < j < rest.value + 1
            ensures !Offers(config, active, theme, customTheme, name, j)
          {
            assert !Offers(config[1..], active, theme, customTheme, name, j - 1);
            assert config[1..][j - 1] == config[j];
          }
        }
        assert config[1..][rest.value] == config[rest.value + 1];
        assert Offers(config, active, theme, customTheme, name, rest.value + 1);
        Some(rest.value + 1)
      else None
  }

  /**
   * `calculateModuleTemplatePath`: the modules directory followed by the
   * path the first offering active module gives, provided that file is
   * readable.
   */
  function TemplatePath(config: TemplateConfiguration, active: set<string>, theme: Option<string>,
                        customTheme: Option<string>, modulesPath: string, isReadable: string -> bool,
                        name: string): (r: Result<string, LookupError>)
    ensures r.Ok? ==> isReadable(r.value)
    ensures r.Ok? ==> exists i :: 0 <= i < |config| && Offers(config, active, theme, customTheme, name, i) &&
                                r.value == modulesPath + ModuleCandidate(config[i].1, theme, customTheme, name).value
    ensures r == Err(TemplateNotFound(name)) <==>
            forall j :: 0 <= j < |config| ==> !Offers(config, active, theme, customTheme, name, j)
    ensures r.Err? && r.error.TemplateFileNotFound? ==>
              !isReadable(r.error.path) && |modulesPath| <= |r.error.path| &&
              r.error.path[..|modulesPath|] == modulesPath
    ensures r.Err? ==> r.error.TemplateNotFound? || r.error.TemplateFileNotFound?
  {
    match FindModuleTemplate(config, active, theme, customTheme, name)
    case None => Err(TemplateNotFound(name))
    case Some(i) =>
      var path := modulesPath + ModuleCandidate(config[i].1, theme, customTheme, name).value;
      assert path[..|modulesPath|] == modulesPath;
      if isReadable(path) then Ok(path) else Err(TemplateFileNotFound(path))
  }

  // ---------------------------------------------------------------------------
  // Precedence, for a configuration whose one module is active

  /** The custom theme's entry wins over the theme's entry and the default. */
  lemma CustomThemeWins(id: string, templates: ModuleTemplates, active: set<string>, theme: Option<string>,
                        customTheme: string, modulesPath: string, isReadable: string -> bool, name: string)
    requires id in active
    requires customTheme in templates && templates[customTheme].ThemeTemplates?
    requires name in templates[customTheme].files
    requires isReadable(modulesPath + templates[customTheme].files[name])
    ensures TemplatePath([(id, templates)], active, theme, Some(customTheme), modulesPath, isReadable, name)
            == Ok(modulesPath + templates[customTheme].files[name])
  {
    assert Offers([(id, templates)], active, theme, Some(customTheme), name, 0);
  }

  /** Without a custom theme entry, the theme's entry is used. */
  lemma ThemeBeforeDefault(id: string, templates: ModuleTemplates, active: set<string>, theme: string,
                           customTheme: Option<string>, modulesPath: string, isReadable: string -> bool, name: string)
    requires id in active
    requires ThemeEntry(templates, customTheme, name).None?
    requires theme in templates && templates[theme].ThemeTemplates? && name in templates[theme].files
    requires isReadable(modulesPath + templates[theme].files[name])
    ensures TemplatePath([(id, templates)], active, Some(theme), customTheme, modulesPath, isReadable, name)
            == Ok(modulesPath + templates[theme].files[name])
  {
    assert Offers([(id, templates)], active, Some(theme), customTheme, name, 0);
  }

  /**
   * With neither theme giving its own entry (no theme set, a theme the
   * module does not know, or a theme without this template) the default is
   * used, and without a default the template is not found.
   */
  lemma DefaultWhenNoThemeEntry(id: string, templates: ModuleTemplates, active: set<string>, theme: Option<string>,
                                customTheme: Option<string>, modulesPath: string, isReadable: string -> bool,
                                name: string)
    requires id in active
    requires ThemeEntry(templates, customTheme, name).None? && ThemeEntry(templates, theme, name).None?
    requires forall p :: isReadable(p)
    ensures name in templates && templates[name].TemplateFile? ==>
              TemplatePath([(id, templates)], active, theme, customTheme, modulesPath, isReadable, name)
              == Ok(modulesPath + templates[name].path)
    ensures !(name in templates && templates[name].TemplateFile?) ==>
              TemplatePath([(id, templates)], active, theme, customTheme, modulesPath, isReadable, name)
              == Err(TemplateNotFound(name))
  {
    if name in templates && templates[name].TemplateFile? {
      assert Offers([(id, templates)], active, theme, customTheme, name, 0);
    }
  }

  /** A template that only an inactive module offers is not found. */
  lemma InactiveModule(id: string, templates: ModuleTemplates, active: set<string>, theme: Option<string>,
                       customTheme: Option<string>, modulesPath: string, isReadable: string -> bool, name: string)
    requires id !in active
    ensures TemplatePath([(id, templates)], active, theme, customTheme, modulesPath, isReadable, name)
            == Err(TemplateNotFound(name))
  {
    assert !Offers([(id, templates)], active, theme, customTheme, name, 0);
  }

  /** With no active modules, every lookup fails with "Cannot find template". */
  lemma NoActiveModules(config: TemplateConfiguration, theme: Option<string>, customTheme: Option<string>,
                        modulesPath: string, isReadable: string -> bool, name: string)
    ensures TemplatePath(config, {}, theme, customTheme, modulesPath, isReadable, name) == Err(TemplateNotFound(name))
    ensures var m := ErrorMessage(TemplateNotFound(name));
            m[..|NotFoundPrefix|] == NotFoundPrefix && !(|m| >= |FileNotFoundPrefix| && m[..|FileNotFoundPrefix|] == FileNotFoundPrefix)
  {
    assert forall j :: 0 <= j < |config| ==> !Offers(config, {}, theme, customTheme, name, j);
  }

  /**
   * An earlier active module that offers the template hides every later
   * one: the result depends on the first offering module alone.
   */
  lemma FirstOfferingModuleDecides(config: TemplateConfiguration, active: set<string>, theme: Option<string>,
                                   customTheme: Option<string>, modulesPath: string, isReadable: string -> bool,
                                   name: string, i: nat)
    requires i < |config| && Offers(config, active, theme, customTheme, name, i)
    requires forall j :: 0 <= j < i ==> !Offers(config, active, theme, customTheme, name, j)
    ensures var path := modulesPath + ModuleCandidate(config[i].1, theme, customTheme, name).value;
            TemplatePath(config, active, theme, customTheme, modulesPath, isReadable, name) ==
            if isReadable(path) then Ok(path) else Err(TemplateFileNotFound(path))
  {
    var r := FindModuleTemplate(config, active, theme, customTheme, name);
    assert r.Some?;
    assert r.value == i by {
      if r.value < i {
      } else if r.value > i {
      }
    }
  }

  // ---------------------------------------------------------------------------
  // The configuration of the unit test and its table rows

  const ModuleId: string := "moduleId"
  const PathToModules: string := "/pathToModules/"

  function ExampleTemplates(): ModuleTemplates
  {
    map[
      "first.tpl" := TemplateFile("test_path/first_default.tpl"),
      "second.tpl" := TemplateFile("test_path/second_default.tpl"),
      "third.tpl" := TemplateFile("test_path/third_default.tpl"),
      "fourth.tpl" := TemplateFile("test_path/fourth_default.tpl"),
      "firstTheme" := ThemeTemplates(map[
        "first.tpl" := "test_path/first_firstTheme.tpl",
        "second.tpl" := "test_path/second_firstTheme.tpl",
        "fifth.tpl" := "test_path/fifth_firstTheme.tpl"]),
      "secondTheme" := ThemeTemplates(map[
        "first.tpl" := "test_path/first_secondTheme.tpl",
        "third.tpl" := "test_path/third_secondTheme.tpl",
        "sixth.tpl" := "test_path/sixth_secondTheme.tpl"])
    ]
  }

  function ExampleConfiguration(): TemplateConfiguration
  {
    [(ModuleId, ExampleTemplates())]
  }

  /** The lookup of the test's calculator: the example configuration, its one module active, every file readable. */
  function ExampleLookup(name: string, theme: Option<string>, customTheme: Option<string>): Result<string, LookupError>
  {
    TemplatePath(ExampleConfiguration(), {ModuleId}, theme, customTheme, PathToModules, p => true, name)
  }

  lemma ExampleFirst()
    ensures ExampleLookup("first.tpl", None, None) == Ok(PathToModules + "test_path/first_default.tpl")
    ensures ExampleLookup("first.tpl", Some("azure"), None) == Ok(PathToModules + "test_path/first_default.tpl")
    ensures ExampleLookup("first.tpl", Some("firstTheme"), None) == Ok(PathToModules + "test_path/first_firstTheme.tpl")
    ensures ExampleLookup("first.tpl", Some("secondTheme"), None) == Ok(PathToModules + "test_path/first_secondTheme.tpl")
    ensures ExampleLookup("first.tpl", Some("firstTheme"), Some("secondTheme"))
            == Ok(PathToModules + "test_path/first_secondTheme.tpl")
  {
    var t := ExampleTemplates();
    assert "azure" !in t;
    DefaultWhenNoThemeEntry(ModuleId, t, {ModuleId}, None, None, PathToModules, p => true, "first.tpl");
    DefaultWhenNoThemeEntry(ModuleId, t, {ModuleId}, Some("azure"), None, PathToModules, p => true, "first.tpl");
    ThemeBeforeDefault(ModuleId, t, {ModuleId}, "firstTheme", None, PathToModules, p => true, "first.tpl");
    ThemeBeforeDefault(ModuleId, t, {ModuleId}, "secondTheme", None, PathToModules, p => true, "first.tpl");
    CustomThemeWins(ModuleId, t, {ModuleId}, Some("firstTheme"), "secondTheme", PathToModules, p => true, "first.tpl");
  }

  lemma ExampleSecond()
    ensures ExampleLookup("second.tpl", Some("azure"), None) == Ok(PathToModules + "test_path/second_default.tpl")
    ensures ExampleLookup("second.tpl", Some("firstTheme"), None) == Ok(PathToModules + "test_path/second_firstTheme.tpl")
    ensures ExampleLookup("second.tpl", Some("firstTheme"), Some("secondTheme"))
            == Ok(PathToModules + "test_path/second_firstTheme.tpl")
  {
    var t := ExampleTemplates();
    assert "azure" !in t;
    assert "second.tpl" !in t["secondTheme"].files;
    DefaultWhenNoThemeEntry(ModuleId, t, {ModuleId}, Some("azure"), None, PathToModules, p => true, "second.tpl");
    ThemeBeforeDefault(ModuleId, t, {ModuleId}, "firstTheme", None, PathToModules, p => true, "second.tpl");
    ThemeBeforeDefault(ModuleId, t, {ModuleId}, "firstTheme", Some("secondTheme"), PathToModules, p => true, "second.tpl");
  }

  lemma ExampleThird()
    ensures ExampleLookup("third.tpl", Some("azure"), None) == Ok(PathToModules + "test_path/third_default.tpl")
    ensures ExampleLookup("third.tpl", Some("firstTheme"), None) == Ok(PathToModules + "test_path/third_default.tpl")
    ensures ExampleLookup("third.tpl", Some("firstTheme"), Some("secondTheme"))
            == Ok(PathToModules + "test_path/third_secondTheme.tpl")
  {
    var t := ExampleTemplates();
    assert "azure" !in t;
    assert "third.tpl" !in t["firstTheme"].files;
    DefaultWhenNoThemeEntry(ModuleId, t, {ModuleId}, Some("azure"), None, PathToModules, p => true, "third.tpl");
    DefaultWhenNoThemeEntry(ModuleId, t, {ModuleId}, Some("firstTheme"), None, PathToModules, p => true, "third.tpl");
    CustomThemeWins(ModuleId, t, {ModuleId}, Some("firstTheme"), "secondTheme", PathToModules, p => true, "third.tpl");
  }

  lemma ExampleFourth()
    ensures ExampleLookup("fourth.tpl", Some("azure"), None) == Ok(PathToModules + "test_path/fourth_default.tpl")
    ensures ExampleLookup("fourth.tpl", Some("firstTheme"), None) == Ok(PathToModules + "test_path/fourth_default.tpl")
    ensures ExampleLookup("fourth.tpl", Some("firstTheme"), Some("secondTheme"))
            == Ok(PathToModules + "test_path/fourth_default.tpl")
  {
    var t := ExampleTemplates();
    assert "azure" !in t;
    assert "fourth.tpl" !in t["firstTheme"].files && "fourth.tpl" !in t["secondTheme"].files;
    DefaultWhenNoThemeEntry(ModuleId, t, {ModuleId}, Some("azure"), None, PathToModules, p => true, "fourth.tpl");
    DefaultWhenNoThemeEntry(ModuleId, t, {ModuleId}, Some("firstTheme"), None, PathToModules, p => true, "fourth.tpl");
    DefaultWhenNoThemeEntry(ModuleId, t, {ModuleId}, Some("firstTheme"), Some("secondTheme"), PathToModules,
                            p => true, "fourth.tpl");
  }

  lemma ExampleFifthAndSixth()
    ensures ExampleLookup("fifth.tpl", Some("firstTheme"), None) == Ok(PathToModules + "test_path/fifth_firstTheme.tpl")
    ensures ExampleLookup("fifth.tpl", Some("firstTheme"), Some("secondTheme"))
            == Ok(PathToModules + "test_path/fifth_firstTheme.tpl")
    ensures ExampleLookup("sixth.tpl", Some("firstTheme"), Some("secondTheme"))
            == Ok(PathToModules + "test_path/sixth_secondTheme.tpl")
  {
    var t := ExampleTemplates();
    assert "fifth.tpl" !in t["secondTheme"].files;
    ThemeBeforeDefault(ModuleId, t, {ModuleId}, "firstTheme", None, PathToModules, p => true, "fifth.tpl");
    ThemeBeforeDefault(ModuleId, t, {ModuleId}, "firstTheme", Some("secondTheme"), PathToModules, p => true, "fifth.tpl");
    CustomThemeWins(ModuleId, t, {ModuleId}, Some("firstTheme"), "secondTheme", PathToModules, p => true, "sixth.tpl");
  }

  /** The failing rows: a template only a theme that is not active offers is not found. */
  lemma ExampleNotFound()
    ensures ExampleLookup("fifth.tpl", Some("azure"), None) == Err(TemplateNotFound("fifth.tpl"))
    ensures ExampleLookup("sixth.tpl", Some("azure"), None) == Err(TemplateNotFound("sixth.tpl"))
    ensures ExampleLookup("sixth.tpl", Some("firstTheme"), None) == Err(TemplateNotFound("sixth.tpl"))
  {
    var t := ExampleTemplates();
    assert "azure" !in t && "fifth.tpl" !in t && "sixth.tpl" !in t;
    assert "sixth.tpl" !in t["firstTheme"].files;
    DefaultWhenNoThemeEntry(ModuleId, t, {ModuleId}, Some("azure"), None, PathToModules, p => true, "fifth.tpl");
    DefaultWhenNoThemeEntry(ModuleId, t, {ModuleId}, Some("azure"), None, PathToModules, p => true, "sixth.tpl");
    DefaultWhenNoThemeEntry(ModuleId, t, {ModuleId}, Some("firstTheme"), None, PathToModules, p => true, "sixth.tpl");
  }

  /**
   * The unreadable file: the example module is active, no modules directory
   * was set, and the default of `first.tpl` is not a readable file.
   */
  lemma ExampleUnreadableFile(isReadable: string -> bool)
    requires !isReadable("test_path/first_default.tpl")
    ensures TemplatePath(ExampleConfiguration(), {ModuleId}, None, None, "", isReadable, "first.tpl")
            == Err(TemplateFileNotFound("test_path/first_default.tpl"))
    ensures var m := ErrorMessage(TemplateFileNotFound("test_path/first_default.tpl"));
            m[..|FileNotFoundPrefix|] == FileNotFoundPrefix
  {
    assert Offers(ExampleConfiguration(), {ModuleId}, None, None, "first.tpl", 0);
    assert "" + "test_path/first_default.tpl" == "test_path/first_default.tpl";
  }

  /**
   * The calculator object: its collaborators are fixed when it is built,
   * and only the modules directory is set afterwards.
   */
  class ModuleTemplatePathCalculator {
    const configuration: TemplateConfiguration
    const activeModules: set<string>
    const theme: Option<string>
    const customTheme: Option<string>
    const isReadable: string -> bool
    /** The modules directory; empty until it is set. */
    var modulesPath: string

    constructor(configuration: TemplateConfiguration, activeModules: set<string>, theme: Option<string>,
                customTheme: Option<string>, isReadable: string -> bool)
      ensures this.configuration == configuration && this.activeModules == activeModules
      ensures this.theme == theme && this.customTheme == customTheme && this.isReadable == isReadable
      ensures modulesPath == ""
    {
      this.configuration := configuration;
      this.activeModules := activeModules;
      this.theme := theme;
      this.customTheme := customTheme;
      this.isReadable := isReadable;
      modulesPath := "";
    }

    method SetModulesPath(path: string)
      modifies this`modulesPath
      ensures modulesPath == path
    {
      modulesPath := path;
    }

    /** The lookup under the calculator's configuration and its current modules directory. */
    function CalculateModuleTemplatePath(name: string): (r: Result<string, LookupError>)
      reads this
      ensures r.Ok? ==> isReadable(r.value) && |modulesPath| <= |r.value| && r.value[..|modulesPath|] == modulesPath
      ensures r.Err? && r.error.TemplateNotFound? ==> r.error.name == name
    {
      var r := TemplatePath(configuration, activeModules, theme, customTheme, modulesPath, isReadable, name);
      assert r.Ok? ==> r.value[..|modulesPath|] == modulesPath;
      r
    }
  }
}
