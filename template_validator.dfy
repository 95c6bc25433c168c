/**
 * The theme's template validator (`KawaiiUltra\Theme\Core\TemplateValidator`):
 * which required files exist, whether theme.json decodes, which admin notices
 * follow, and which required blocks a template lacks.
 */
module TemplateValidator {
  import opened Wrappers
  import opened Php
  import opened Strings

  /** The file-system and JSON calls the validator makes, taken as inputs. */
  datatype FileSystem = FileSystem(
    fileExists: string -> bool,
    isReadable: string -> bool,
    getContents: string -> string)

  /** `json_decode($content, true)` followed by `json_last_error()`. */
  datatype JsonDecode = Decoded(data: Value) | DecodeError(message: string)

  const RequiredTemplates: seq<string> := ["index.html", "404.html"]
  const RequiredTemplateParts: seq<string> := ["header.html", "footer.html"]

  // ---------------------------------------------------------------------------
  // Required files
  // ---------------------------------------------------------------------------

  /** One result row: `exists`, `path` and `readable`. */
  datatype FileCheck = FileCheck(fileExists: bool, path: string, readable: bool)

  function CheckFile(fs: FileSystem, path: string): (r: FileCheck)
    ensures r.path == path
    ensures r.fileExists == fs.fileExists(path)
    ensures r.readable ==> r.fileExists
    ensures r.readable <==> fs.fileExists(path) && fs.isReadable(path)
  {
    FileCheck(fs.fileExists(path), path, fs.fileExists(path) && fs.isReadable(path))
  }

  /** The `$results` array after the foreach over `names`, keyed by name. */
  function FileChecks(fs: FileSystem, dir: string, names: seq<string>): (r: Entries<string, FileCheck>)
    ensures Keys(r) == [] <==> names == []
  {
    if names == [] then []
    else
      var last := names[|names| - 1];
      Put(FileChecks(fs, dir, names[..|names| - 1]), last, CheckFile(fs, dir + last))
  }

  predicate Distinct<T(==)>(s: seq<T>) {
    forall i, j :: 0 <= i < j < |s| ==> s[i] != s[j]
  }

  /** For distinct names: one row per name, in order, each for the file `dir + name`. */
  lemma {:induction false} FileChecksOnePerName(fs: FileSystem, dir: string, names: seq<string>)
    requires Distinct(names)
    ensures Keys(FileChecks(fs, dir, names)) == names
    ensures |FileChecks(fs, dir, names)| == |names|
    ensures forall i :: 0 <= i < |names| ==> FileChecks(fs, dir, names)[i] == (names[i], CheckFile(fs, dir + names[i]))
  {
    if names != [] {
      var init := names[..|names| - 1];
      var last := names[|names| - 1];
      assert init + [last] == names;
      assert Distinct(init);
      FileChecksOnePerName(fs, dir, init);
      var prev := FileChecks(fs, dir, init);
      assert last !in Keys(prev) by {
        assert Keys(prev) == init;
        assert forall i :: 0 <= i < |init| ==> init[i] == names[i];
      }
      var r := prev + [(last, CheckFile(fs, dir + last))];
      assert FileChecks(fs, dir, names) == r;
      forall i | 0 <= i < |names| ensures r[i] == (names[i], CheckFile(fs, dir + names[i])) {
        if i < |init| {
          assert r[i] == prev[i] && names[i] == init[i];
        }
      }
      assert Keys(r) == names by {
        assert forall i :: 0 <= i < |names| ==> Keys(r)[i] == names[i];
      }
    }
  }

  /** The shared loop of `validate_required_templates` and `validate_required_template_parts`. */
  method ValidateFiles(fs: FileSystem, dir: string, names: seq<string>) returns (results: Entries<string, FileCheck>)
    ensures results == FileChecks(fs, dir, names)
  {
    results := [];
    for i := 0 to |names|
      invariant results == FileChecks(fs, dir, names[..i])
    {
      assert names[..i + 1][..i] == names[..i];
      results := Put(results, names[i], CheckFile(fs, dir + names[i]));
    }
    assert names[..|names|] == names;
  }

  /** `validate_required_templates`: the templates under `templateDirectory + '/templates/'`. */
  method ValidateRequiredTemplates(fs: FileSystem, templateDirectory: string) returns (results: Entries<string, FileCheck>)
    ensures results == FileChecks(fs, templateDirectory + "/templates/", RequiredTemplates)
    ensures Keys(results) == RequiredTemplates
    ensures forall i :: 0 <= i < |results| ==> results[i].1.path == templateDirectory + "/templates/" + RequiredTemplates[i]
  {
    results := ValidateFiles(fs, templateDirectory + "/templates/", RequiredTemplates);
    FileChecksOnePerName(fs, templateDirectory + "/templates/", RequiredTemplates);
  }

  /** `validate_required_template_parts`: the parts under `templateDirectory + '/parts/'`. */
  method ValidateRequiredTemplateParts(fs: FileSystem, templateDirectory: string) returns (results: Entries<string, FileCheck>)
    ensures results == FileChecks(fs, templateDirectory + "/parts/", RequiredTemplateParts)
    ensures Keys(results) == RequiredTemplateParts
    ensures forall i :: 0 <= i < |results| ==> results[i].1.path == templateDirectory + "/parts/" + RequiredTemplateParts[i]
  {
    results := ValidateFiles(fs, templateDirectory + "/parts/", RequiredTemplateParts);
    FileChecksOnePerName(fs, templateDirectory + "/parts/", RequiredTemplateParts);
  }

  // ---------------------------------------------------------------------------
  // theme.json
  // ---------------------------------------------------------------------------

  /** The result of `validate_theme_json`; `data` is present only after a clean decode. */
  datatype ThemeJsonResult = ThemeJsonResult(fileExists: bool, validJson: bool, error: Option<string>, data: Option<Value>)

  function ValidateThemeJson(fs: FileSystem, decode: string -> JsonDecode, templateDirectory: string): (r: ThemeJsonResult)
    ensures r.fileExists == fs.fileExists(templateDirectory + "/theme.json")
    ensures r.validJson ==> r.fileExists
    ensures r.error.Some? ==> r.fileExists && !r.validJson
    ensures r.data.Some? <==> r.validJson
    ensures r.fileExists ==> (r.validJson <==> decode(fs.getContents(templateDirectory + "/theme.json")).Decoded?)
    ensures r.fileExists && !r.validJson ==> r.error.Some?
  {
    var path := templateDirectory + "/theme.json";
    if !fs.fileExists(path) then ThemeJsonResult(false, false, None, None)
    else match decode(fs.getContents(path))
      case Decoded(data) => ThemeJsonResult(true, true, None, Some(data))
      case DecodeError(message) => ThemeJsonResult(true, false, Some(message), None)
  }

  // ---------------------------------------------------------------------------
  // The admin notice
  // ---------------------------------------------------------------------------

  /** `array_keys(array_filter($results, fn => !exists))`. */
  function MissingNames(results: Entries<string, FileCheck>): (r: seq<string>)
    ensures forall n :: n in r <==> exists i :: 0 <= i < |results| && results[i].0 == n && !results[i].1.fileExists
    ensures |r| <= |results|
  {
    if results == [] then []
    else
      (if !results[0].1.fileExists then [results[0].0] else []) + MissingNames(results[1..])
  }

  /** The notices `validate_templates_admin_notice` prints, in order. */
  datatype Notice =
    | MissingTemplatesNotice(templates: seq<string>)
    | MissingPartsNotice(parts: seq<string>)
    | ThemeJsonMissingNotice
    | ThemeJsonInvalidNotice(error: string)

  function NoticesFrom(canManageOptions: bool, templates: Entries<string, FileCheck>, parts: Entries<string, FileCheck>,
                       themeJson: ThemeJsonResult): (r: seq<Notice>)
    ensures !canManageOptions ==> r == []
    ensures |r| <= 3
    ensures canManageOptions && MissingNames(templates) != [] ==> |r| > 0 && r[0] == MissingTemplatesNotice(MissingNames(templates))
    ensures forall n :: n in r && n.MissingTemplatesNotice? ==> n.templates == MissingNames(templates) != []
    ensures forall n :: n in r && n.MissingPartsNotice? ==> n.parts == MissingNames(parts) != []
    ensures MissingPartsNotice(MissingNames(parts)) in r <==> canManageOptions && MissingNames(parts) != []
    ensures ThemeJsonMissingNotice in r <==> canManageOptions && !themeJson.validJson && !themeJson.fileExists
    ensures (exists n :: n in r && n.ThemeJsonInvalidNotice?) <==>
      canManageOptions && !themeJson.validJson && themeJson.fileExists && themeJson.error.Some? && StrTruthy(themeJson.error.value)
    ensures forall n :: n in r && n.ThemeJsonInvalidNotice? ==> Some(n.error) == themeJson.error
    ensures themeJson.validJson ==> forall n :: n in r ==> n.MissingTemplatesNotice? || n.MissingPartsNotice?
  {
    if !canManageOptions then []
    else
      var missingTemplates := MissingNames(templates);
      var missingParts := MissingNames(parts);
      var fileNotices :=
        (if missingTemplates != [] then [MissingTemplatesNotice(missingTemplates)] else []) +
        (if missingParts != [] then [MissingPartsNotice(missingParts)] else []);
      var jsonNotices :=
        if themeJson.validJson then []
        else if !themeJson.fileExists then [ThemeJsonMissingNotice]
        else if themeJson.error.Some? && StrTruthy(themeJson.error.value) then [ThemeJsonInvalidNotice(themeJson.error.value)]
        else [];
      assert forall n :: n in fileNotices ==> !n.ThemeJsonInvalidNotice?;
      assert jsonNotices != [] ==> jsonNotices[0] in fileNotices + jsonNotices;
      fileNotices + jsonNotices
  }

  /** `validate_templates_admin_notice` over the current file system. */
  function AdminNotices(canManageOptions: bool, fs: FileSystem, decode: string -> JsonDecode, templateDirectory: string): (r: seq<Notice>)
    ensures !canManageOptions ==> r == []
    ensures |r| <= 3
  {
    NoticesFrom(canManageOptions,
      FileChecks(fs, templateDirectory + "/templates/", RequiredTemplates),
      FileChecks(fs, templateDirectory + "/parts/", RequiredTemplateParts),
      ValidateThemeJson(fs, decode, templateDirectory))
  }

  /** The missing-templates notice names exactly the required templates whose file is absent. */
  lemma MissingTemplatesNamed(fs: FileSystem, templateDirectory: string, name: string)
    ensures name in MissingNames(FileChecks(fs, templateDirectory + "/templates/", RequiredTemplates)) <==>
      name in RequiredTemplates && !fs.fileExists(templateDirectory + "/templates/" + name)
  {
    var dir := templateDirectory + "/templates/";
    var results := FileChecks(fs, dir, RequiredTemplates);
    FileChecksOnePerName(fs, dir, RequiredTemplates);
    if name in MissingNames(results) {
      var i :| 0 <= i < |results| && results[i].0 == name && !results[i].1.fileExists;
      assert results[i] == (RequiredTemplates[i], CheckFile(fs, dir + RequiredTemplates[i]));
    }
    if name in RequiredTemplates && !fs.fileExists(dir + name) {
      var i :| 0 <= i < |RequiredTemplates| && RequiredTemplates[i] == name;
      assert results[i] == (name, CheckFile(fs, dir + name));
    }
  }

  /** The missing-parts notice names exactly the required parts whose file is absent. */
  lemma MissingPartsNamed(fs: FileSystem, templateDirectory: string, name: string)
    ensures name in MissingNames(FileChecks(fs, templateDirectory + "/parts/", RequiredTemplateParts)) <==>
      name in RequiredTemplateParts && !fs.fileExists(templateDirectory + "/parts/" + name)
  {
    var dir := templateDirectory + "/parts/";
    var results := FileChecks(fs, dir, RequiredTemplateParts);
    FileChecksOnePerName(fs, dir, RequiredTemplateParts);
    if name in MissingNames(results) {
      var i :| 0 <= i < |results| && results[i].0 == name && !results[i].1.fileExists;
      assert results[i] == (RequiredTemplateParts[i], CheckFile(fs, dir + RequiredTemplateParts[i]));
    }
    if name in RequiredTemplateParts && !fs.fileExists(dir + name) {
      var i :| 0 <= i < |RequiredTemplateParts| && RequiredTemplateParts[i] == name;
      assert results[i] == (name, CheckFile(fs, dir + name));
    }
  }

  /** A missing-templates notice on the admin screen lists exactly the required templates that are absent. */
  lemma AdminNoticeListsMissingTemplates(canManageOptions: bool, fs: FileSystem, decode: string -> JsonDecode,
                                         templateDirectory: string, n: Notice, name: string)
    requires n in AdminNotices(canManageOptions, fs, decode, templateDirectory) && n.MissingTemplatesNotice?
    ensures name in n.templates <==>
      name in RequiredTemplates && !fs.fileExists(templateDirectory + "/templates/" + name)
  {
    MissingTemplatesNamed(fs, templateDirectory, name);
  }

  /** A missing-parts notice on the admin screen lists exactly the required parts that are absent. */
  lemma AdminNoticeListsMissingParts(canManageOptions: bool, fs: FileSystem, decode: string -> JsonDecode,
                                     templateDirectory: string, n: Notice, name: string)
    requires n in AdminNotices(canManageOptions, fs, decode, templateDirectory) && n.MissingPartsNotice?
    ensures name in n.parts <==>
      name in RequiredTemplateParts && !fs.fileExists(templateDirectory + "/parts/" + name)
  {
    MissingPartsNamed(fs, templateDirectory, name);
  }

  /** With every required file present and a theme.json that decodes, the admin screen shows no notice. */
  lemma HealthyThemeHasNoNotices(canManageOptions: bool, fs: FileSystem, decode: string -> JsonDecode, templateDirectory: string)
    requires forall t :: t in RequiredTemplates ==> fs.fileExists(templateDirectory + "/templates/" + t)
    requires forall t :: t in RequiredTemplateParts ==> fs.fileExists(templateDirectory + "/parts/" + t)
    requires fs.fileExists(templateDirectory + "/theme.json")
    requires decode(fs.getContents(templateDirectory + "/theme.json")).Decoded?
    ensures AdminNotices(canManageOptions, fs, decode, templateDirectory) == []
  {
    var missingTemplates := MissingNames(FileChecks(fs, templateDirectory + "/templates/", RequiredTemplates));
    if missingTemplates != [] {
      MissingTemplatesNamed(fs, templateDirectory, missingTemplates[0]);
      assert false;
    }
    var missingParts := MissingNames(FileChecks(fs, templateDirectory + "/parts/", RequiredTemplateParts));
    if missingParts != [] {
      MissingPartsNamed(fs, templateDirectory, missingParts[0]);
      assert false;
    }
  }

  // ---------------------------------------------------------------------------
  // validate_template_blocks
  // ---------------------------------------------------------------------------

  /** The result of `validate_template_blocks`. */
  datatype BlockCheck =
    | TemplateNotFound(error: string)
    | BlocksChecked(valid: bool, missingBlocks: seq<string>)

  /** The required blocks, in order, whose `'wp:' . $block` marker `strpos` does not find. */
  function MissingBlocks(content: string, required: seq<string>): (r: seq<string>)
    ensures |r| <= |required|
    ensures forall b :: b in r ==> b in required
  {
    if required == [] then []
    else
      var last := required[|required| - 1];
      MissingBlocks(content, required[..|required| - 1]) +
      (if Strpos(content, "wp:" + last).None? then [last] else [])
  }

  /** A block is reported missing iff its marker is not a substring of the content. */
  lemma {:induction false} MissingBlocksIff(content: string, required: seq<string>, block: string)
    ensures block in MissingBlocks(content, required) <==> block in required && !Contains(content, "wp:" + block)
  {
    if required != [] {
      var init := required[..|required| - 1];
      var last := required[|required| - 1];
      MissingBlocksIff(content, init, block);
      StrposFindsIffContains(content, "wp:" + last);
      StrposFindsIffContains(content, "wp:" + block);
      assert required == init + [last];
    }
  }

  /** The test is per block: splitting the required list splits the report, order kept. */
  lemma {:induction false} MissingBlocksSplits(content: string, a: seq<string>, b: seq<string>)
    ensures MissingBlocks(content, a + b) == MissingBlocks(content, a) + MissingBlocks(content, b)
  {
    if b != [] {
      var init := b[..|b| - 1];
      MissingBlocksSplits(content, a, init);
      assert (a + b)[..|a + b| - 1] == a + init;
      assert (a + b)[|a + b| - 1] == b[|b| - 1];
    } else {
      assert a + b == a;
    }
  }

  method ValidateTemplateBlocks(fs: FileSystem, templatePath: string, required: seq<string>) returns (r: BlockCheck)
    ensures r.TemplateNotFound? <==> !fs.fileExists(templatePath)
    ensures r.TemplateNotFound? ==> r.error == "Template file not found"
    ensures r.BlocksChecked? ==> r.missingBlocks == MissingBlocks(fs.getContents(templatePath), required)
    ensures r.BlocksChecked? ==> (r.valid <==> r.missingBlocks == [])
    ensures required == [] && fs.fileExists(templatePath) ==> r == BlocksChecked(true, [])
  {
    if !fs.fileExists(templatePath) {
      return TemplateNotFound("Template file not found");
    }
    var content := fs.getContents(templatePath);
    var valid := true;
    var missing: seq<string> := [];
    for i := 0 to |required|
      invariant missing == MissingBlocks(content, required[..i])
      invariant valid <==> missing == []
    {
      assert required[..i + 1][..i] == required[..i];
      if Strpos(content, "wp:" + required[i]).None? {
        missing := missing + [required[i]];
        valid := false;
      }
    }
    assert required[..|required|] == required;
    r := BlocksChecked(valid, missing);
  }

}
