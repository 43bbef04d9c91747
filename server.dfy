/** The Flask application (src/jinja2_tester/app.py): the file-type checks, the
    two upload routes, and the decisions the `/` and `/render` routes make.
    Jinja2, the json and yaml modules and UTF-8 decoding are reached only
    through the `Libraries` record, whose fields say what each call returned
    or raised; the routes are functions from a request to a reply. */
module Server {
  import opened Outcomes
  import opened Text

  newtype byte = x: int | 0 <= x < 256

  /** The library calls the routes make, each returning or raising. `V` is the
      type of parsed JSON/YAML data. */
  datatype Libraries<!V> = Libraries(
    parseTemplate: string -> Py<()>,             // Environment().parse(source)
    renderTemplate: (string, V) -> Py<string>,   // Environment().from_string(source).render(**data)
    jsonLoads: string -> Py<V>,                  // json.loads(text)
    jsonDumps: V -> Py<string>,                  // json.dumps(data, indent=2)
    yamlSafeLoad: string -> Py<V>,               // yaml.safe_load(text)
    decodeUtf8: seq<byte> -> Py<string>)         // bytes.decode('utf-8')

  const TemplateExtensions: set<string> := {".j2", ".jinja", ".jinja2", ".html", ".txt"}
  const DataExtensions: set<string> := {".json", ".yaml", ".yml", ".csv"}

  // ---------------------------------------------------------------------------
  // File names

  /** The first index at or after `i` whose character is not '.', or |p|. */
  function SkipDots(p: string, i: nat): (r: nat)
    requires i <= |p|
    ensures i <= r <= |p|
    ensures forall k :: i <= k < r ==> p[k] == '.'
    ensures r < |p| ==> p[r] != '.'
    decreases |p| - i
  {
    if i < |p| && p[i] == '.' then SkipDots(p, i + 1) else i
  }

  /** `os.path.splitext(p)` on a POSIX path: the extension runs from the last
      dot of the final component to the end, unless everything before that dot
      in the component is dots, in which case there is no extension. */
  function SplitExt(p: string): (parts: (string, string))
    ensures parts.0 + parts.1 == p
    ensures parts.1 == [] || (parts.1[0] == '.' && '.' !in parts.1[1..] && '/' !in parts.1)
  {
    var sepIndex := RFind(p, '/');
    var dotIndex := RFind(p, '.');
    if dotIndex > sepIndex && SkipDots(p, sepIndex + 1) < dotIndex then
      assert p[dotIndex..][1..] == p[dotIndex + 1..];
      (p[..dotIndex], p[dotIndex..])
    else
      (p, [])
  }

  /** An independent statement of where an extension starts: at a dot with no
      later dot or '/', and some character other than '.' between the last '/'
      and that dot. */
  ghost predicate ExtensionStartsAt(p: string, i: int)
  {
    && 0 <= i < |p| && p[i] == '.'
    && (forall k :: i < k < |p| ==> p[k] != '.' && p[k] != '/')
    && (exists j :: 0 <= j < i && p[j] != '.' && forall k :: j <= k < i ==> p[k] != '/')
  }

  /** Where an extension starts by the statement above, `SplitExt` returns exactly it. */
  lemma SplitExtAt(p: string, i: int)
    requires ExtensionStartsAt(p, i)
    ensures SplitExt(p).1 == p[i..]
  {
    var sepIndex := RFind(p, '/');
    var dotIndex := RFind(p, '.');
    assert dotIndex == i;
    var j :| 0 <= j < i && p[j] != '.' && forall k :: j <= k < i ==> p[k] != '/';
    assert sepIndex < j;
  }

  /** `SplitExt` finds an extension exactly when one starts somewhere. */
  lemma SplitExtNonEmptyIff(p: string)
    ensures SplitExt(p).1 != [] <==> exists i :: ExtensionStartsAt(p, i)
  {
    var sepIndex := RFind(p, '/');
    var dotIndex := RFind(p, '.');
    if SplitExt(p).1 != [] {
      var j := SkipDots(p, sepIndex + 1);
      assert forall k :: j <= k < dotIndex ==> p[k] != '/';
      assert ExtensionStartsAt(p, dotIndex);
    } else if i :| ExtensionStartsAt(p, i) {
      SplitExtAt(p, i);
    }
  }

  /** A non-empty extension begins at the last dot of the path. */
  lemma SplitExtFromLastDot(p: string)
    requires SplitExt(p).1 != []
    ensures 0 <= RFind(p, '.') && SplitExt(p).1 == p[RFind(p, '.')..]
  {
  }

  /** `os.path.splitext(name)[1].lower()`, the extension the routes compare. */
  function Extension(name: string): (ext: string)
    ensures ext == [] <==> SplitExt(name).1 == []
    ensures ext != [] ==> 0 <= RFind(name, '.') && ext == Lower(name[RFind(name, '.')..]) && ext[0] == '.'
  {
    if SplitExt(name).1 != [] then
      SplitExtFromLastDot(name);
      Lower(SplitExt(name).1)
    else
      Lower(SplitExt(name).1)
  }

  /** `is_allowed_template_file`: an extension starts in the name and, lower-cased,
      is one of the five template extensions. */
  function IsAllowedTemplateFile(name: string): (b: bool)
    ensures b <==> exists i :: ExtensionStartsAt(name, i) && Lower(name[i..]) in TemplateExtensions
  {
    AllowedIff(name, TemplateExtensions);
    Extension(name) in TemplateExtensions
  }

  /** `is_allowed_data_file`: the same rule over the four data extensions. */
  function IsAllowedDataFile(name: string): (b: bool)
    ensures b <==> exists i :: ExtensionStartsAt(name, i) && Lower(name[i..]) in DataExtensions
  {
    AllowedIff(name, DataExtensions);
    Extension(name) in DataExtensions
  }

  /** A file name passes an allow-list without the empty string exactly when an
      extension starts in it and, lower-cased, is on the list. */
  lemma AllowedIff(name: string, allowed: set<string>)
    requires [] !in allowed
    ensures Extension(name) in allowed
        <==> exists i :: ExtensionStartsAt(name, i) && Lower(name[i..]) in allowed
  {
    SplitExtNonEmptyIff(name);
    if Extension(name) in allowed {
      var i :| ExtensionStartsAt(name, i);
      SplitExtAt(name, i);
    }
    if i :| ExtensionStartsAt(name, i) && Lower(name[i..]) in allowed {
      SplitExtAt(name, i);
    }
  }

  /** A name without a dot has no extension and passes neither check. */
  lemma DotlessNameRejected(name: string)
    requires '.' !in name
    ensures SplitExt(name).1 == []
    ensures !IsAllowedTemplateFile(name) && !IsAllowedDataFile(name)
  {
    assert RFind(name, '.') == -1;
  }

  /** A name that is a dot followed by a dot-free, slash-free word (".json",
      ".txt") is all leading dot and stem: it has no extension either. */
  lemma DotFileRejected(name: string)
    requires |name| >= 1 && name[0] == '.'
    requires '.' !in name[1..] && '/' !in name[1..]
    ensures SplitExt(name).1 == []
    ensures !IsAllowedTemplateFile(name) && !IsAllowedDataFile(name)
  {
    assert RFind(name, '/') == -1;
    assert RFind(name, '.') == 0 by {
      forall k | 0 < k < |name| ensures name[k] != '.' { assert name[1..][k - 1] == name[k]; }
    }
  }

  // ---------------------------------------------------------------------------
  // Template validation and rendering

  const SyntaxErrorPrefix := "Template syntax error: "
  const ValidationErrorPrefix := "Error validating template: "
  const RenderErrorPrefix := "Error rendering template: "
  const InvalidJsonPrefix := "Invalid JSON data: "
  const CatchAllPrefix := "Error: "

  /** `validate_template`: whether Jinja2 parses the source, with a message. */
  function ValidateTemplate<V>(libs: Libraries<V>, source: string): (r: (bool, string))
    ensures r.0 <==> libs.parseTemplate(source).Returned?
    ensures r.0 ==> r.1 == "Template syntax is valid"
    ensures var p := libs.parseTemplate(source);
      p.Raised? ==> r.1 == (if p.exc == TemplateSyntaxError then SyntaxErrorPrefix else ValidationErrorPrefix) + p.message
  {
    match libs.parseTemplate(source)
    case Returned(_) => (true, "Template syntax is valid")
    case Raised(TemplateSyntaxError, m) => (false, SyntaxErrorPrefix + m)
    case Raised(_, m) => (false, ValidationErrorPrefix + m)
  }

  /** `render_template_string`: the rendered text, or a message saying why not. */
  function RenderTemplateString<V>(libs: Libraries<V>, source: string, data: V): (r: (bool, string))
    ensures r.0 <==> libs.renderTemplate(source, data).Returned?
    ensures r.0 ==> r.1 == libs.renderTemplate(source, data).value
    ensures !r.0 ==> r.1 == RenderErrorPrefix + libs.renderTemplate(source, data).message
  {
    match libs.renderTemplate(source, data)
    case Returned(out) => (true, out)
    case Raised(_, m) => (false, RenderErrorPrefix + m)
  }

  /** The data is JSON, the template parses, and it renders with that data. */
  ghost predicate RendersCleanly<V>(libs: Libraries<V>, source: string, dataText: string)
  {
    && libs.jsonLoads(dataText).Returned?
    && libs.parseTemplate(source).Returned?
    && libs.renderTemplate(source, libs.jsonLoads(dataText).value).Returned?
  }

  // ---------------------------------------------------------------------------
  // POST /render

  /** The form fields of a `/render` request; a field the client left out is None. */
  datatype RenderForm = RenderForm(
    template: Option<string>, data: Option<string>,
    trimBlocks: Option<string>, lstripBlocks: Option<string>)

  /** The JSON body `/render` answers with (always status 200). */
  datatype RenderReply = RenderReply(isValid: bool, result: string, renderedOutput: Option<string>)

  /** `render()`: parse the data first, then validate and render the template.
      A JSON error other than a decode error reaches the route's catch-all. */
  function Render<V>(libs: Libraries<V>, form: RenderForm): (r: RenderReply)
    ensures r.renderedOutput.Some? <==> r.isValid
    ensures var t, d := form.template.GetOr(""), form.data.GetOr("{}");
      && (r.isValid <==> RendersCleanly(libs, t, d))
      && (r.isValid ==> r.result == "Template is valid"
                        && r.renderedOutput == Some(libs.renderTemplate(t, libs.jsonLoads(d).value).value))
      && (libs.jsonLoads(d).Raised? && libs.jsonLoads(d).exc == JSONDecodeError ==>
            r.result == InvalidJsonPrefix + libs.jsonLoads(d).message)
      && (libs.jsonLoads(d).Raised? && libs.jsonLoads(d).exc != JSONDecodeError ==>
            r.result == CatchAllPrefix + libs.jsonLoads(d).message)
      && (libs.jsonLoads(d).Returned? && libs.parseTemplate(t).Raised? ==>
            r.result == ValidateTemplate(libs, t).1)
      && (libs.jsonLoads(d).Returned? && libs.parseTemplate(t).Returned?
          && libs.renderTemplate(t, libs.jsonLoads(d).value).Raised? ==>
            r.result == RenderErrorPrefix + libs.renderTemplate(t, libs.jsonLoads(d).value).message)
  {
    var t := form.template.GetOr("");
    var d := form.data.GetOr("{}");
    match libs.jsonLoads(d)
    case Raised(JSONDecodeError, m) => RenderReply(false, InvalidJsonPrefix + m, None)
    case Raised(_, m) => RenderReply(false, CatchAllPrefix + m, None)
    case Returned(data) =>
      var (isValid, result) := ValidateTemplate(libs, t);
      if isValid then
        var (success, rendered) := RenderTemplateString(libs, t, data);
        if success then RenderReply(true, "Template is valid", Some(rendered))
        else RenderReply(false, rendered, None)
      else
        RenderReply(false, result, None)
  }

  /** `/render` looks at the data before the template: once the data fails to
      load, neither the template nor the template library changes the reply. */
  lemma RenderChecksDataFirst<V>(libs: Libraries<V>, libs': Libraries<V>, form: RenderForm, form': RenderForm)
    requires libs.jsonLoads == libs'.jsonLoads && form.data == form'.data
    requires libs.jsonLoads(form.data.GetOr("{}")).Raised?
    ensures Render(libs, form) == Render(libs', form')
  {
  }

  /** The whitespace flags the client posts are never read: the reply is the
      same whatever they hold. */
  lemma RenderIgnoresWhitespaceFlags<V>(libs: Libraries<V>, form: RenderForm, trim: Option<string>, lstrip: Option<string>)
    ensures Render(libs, form) == Render(libs, form.(trimBlocks := trim, lstripBlocks := lstrip))
  {
  }

  // ---------------------------------------------------------------------------
  // GET and POST /

  datatype HttpMethod = GET | POST

  /** The values `index.html` is rendered with; None stands for Python's None. */
  datatype PageView = PageView(
    templateInput: string, dataInput: string,
    isValid: Option<bool>, result: Option<string>, renderedOutput: Option<string>)

  /** The page, or Flask's 500 answer to an exception the route does not catch. */
  datatype IndexResponse = Page(view: PageView) | InternalServerError(message: string)

  /** `index()`: a GET shows an empty form; a POST validates the template first
      and only then loads the data and renders. */
  function Index<V>(libs: Libraries<V>, verb: HttpMethod, form: RenderForm): (r: IndexResponse)
    ensures verb == GET ==> r == Page(PageView("", "{}", None, None, None))
    ensures var t, d := form.template.GetOr(""), form.data.GetOr("{}");
      verb == POST ==>
        && (r.Page? ==> r.view.templateInput == t && r.view.dataInput == d
                        && r.view.isValid.Some? && r.view.result.Some?
                        && (r.view.renderedOutput.Some? <==> r.view.isValid == Some(true)))
        && (r.Page? && r.view.isValid == Some(true) <==> RendersCleanly(libs, t, d))
        && (r.InternalServerError? <==>
              libs.parseTemplate(t).Returned? && libs.jsonLoads(d).Raised? && libs.jsonLoads(d).exc != JSONDecodeError)
        && (libs.parseTemplate(t).Raised? ==> r == Page(PageView(t, d, Some(false), Some(ValidateTemplate(libs, t).1), None)))
        && (RendersCleanly(libs, t, d) ==>
              r == Page(PageView(t, d, Some(true), Some("Template is valid"),
                                 Some(libs.renderTemplate(t, libs.jsonLoads(d).value).value))))
        && (libs.parseTemplate(t).Returned? && libs.jsonLoads(d).Raised? && libs.jsonLoads(d).exc == JSONDecodeError ==>
              r == Page(PageView(t, d, Some(false), Some(InvalidJsonPrefix + libs.jsonLoads(d).message), None)))
        && (libs.parseTemplate(t).Returned? && libs.jsonLoads(d).Returned?
            && libs.renderTemplate(t, libs.jsonLoads(d).value).Raised? ==>
              r == Page(PageView(t, d, Some(false),
                                 Some(RenderErrorPrefix + libs.renderTemplate(t, libs.jsonLoads(d).value).message), None)))
  {
    if verb == POST then
      var t := form.template.GetOr("");
      var d := form.data.GetOr("{}");
      var (isValid, result) := ValidateTemplate(libs, t);
      if isValid then
        match libs.jsonLoads(d)
        case Returned(data) =>
          var (success, rendered) := RenderTemplateString(libs, t, data);
          if success then Page(PageView(t, d, Some(true), Some("Template is valid"), Some(rendered)))
          else Page(PageView(t, d, Some(false), Some(rendered), None))
        case Raised(JSONDecodeError, m) => Page(PageView(t, d, Some(false), Some(InvalidJsonPrefix + m), None))
        case Raised(_, m) => InternalServerError(m)
      else
        Page(PageView(t, d, Some(false), Some(result), None))
    else
      Page(PageView("", "{}", None, None, None))
  }

  /** The two routes check in opposite orders: with a template that does not
      parse and data that is not JSON, the page reports the template error and
      `/render` the data error. */
  lemma IndexAndRenderDisagreeOnOrder<V>(libs: Libraries<V>, form: RenderForm)
    requires libs.parseTemplate(form.template.GetOr("")).Raised?
    requires libs.jsonLoads(form.data.GetOr("{}")).Raised?
    requires libs.jsonLoads(form.data.GetOr("{}")).exc == JSONDecodeError
    ensures Index(libs, POST, form).view.result == Some(ValidateTemplate(libs, form.template.GetOr("")).1)
    ensures Render(libs, form).result == InvalidJsonPrefix + libs.jsonLoads(form.data.GetOr("{}")).message
    ensures Index(libs, POST, form).view.result != Some(Render(libs, form).result)
  {
    var p := libs.parseTemplate(form.template.GetOr(""));
    var prefix := if p.exc == TemplateSyntaxError then SyntaxErrorPrefix else ValidationErrorPrefix;
    var a := prefix + p.message;
    var b := InvalidJsonPrefix + libs.jsonLoads(form.data.GetOr("{}")).message;
    assert a[0] != b[0] by {
      assert a[0] == prefix[0] && prefix[0] != 'I';
      assert b[0] == InvalidJsonPrefix[0] == 'I';
    }
  }

  // ---------------------------------------------------------------------------
  // POST /upload-template and POST /upload-data

  /** An uploaded file as the request carries it: its client-side name and bytes. */
  datatype UploadedFile = UploadedFile(filename: string, content: seq<byte>)

  /** The JSON body of an upload reply: the file's text, or an error. */
  datatype UploadBody = Content(text: string) | Error(message: string)

  datatype UploadReply = UploadReply(body: UploadBody, status: int)

  const ReadErrorPrefix := "Error reading file: "

  /** `upload_template()`: three request checks in a fixed order, then UTF-8 decoding. */
  function UploadTemplate<V>(libs: Libraries<V>, file: Option<UploadedFile>): (r: UploadReply)
    ensures r.status == (if r.body.Content? then 200 else 400)
    ensures r.body.Error? ==> r.body.message != []
    ensures file.None? ==> r.body == Error("No file provided")
    ensures file.Some? && file.value.filename == [] ==> r.body == Error("No file selected")
    ensures file.Some? && file.value.filename != [] && !IsAllowedTemplateFile(file.value.filename) ==>
              r.body == Error("Invalid file type")
    ensures r.body.Content? <==>
              file.Some? && IsAllowedTemplateFile(file.value.filename)
              && libs.decodeUtf8(file.value.content).Returned?
    ensures r.body.Content? ==> libs.decodeUtf8(file.value.content) == Returned(r.body.text)
    ensures file.Some? && IsAllowedTemplateFile(file.value.filename) && libs.decodeUtf8(file.value.content).Raised? ==>
              r.body == Error(ReadErrorPrefix + libs.decodeUtf8(file.value.content).message)
  {
    if file.None? then UploadReply(Error("No file provided"), 400)
    else if file.value.filename == [] then UploadReply(Error("No file selected"), 400)
    else if !IsAllowedTemplateFile(file.value.filename) then UploadReply(Error("Invalid file type"), 400)
    else
      match libs.decodeUtf8(file.value.content)
      case Returned(text) => UploadReply(Content(text), 200)
      case Raised(_, m) => UploadReply(Error(ReadErrorPrefix + m), 400)
  }

  /** What the data route loads a file's text with: JSON for ".json", YAML otherwise. */
  function LoadDataFile<V>(libs: Libraries<V>, ext: string, text: string): Py<V>
  {
    if ext == ".json" then libs.jsonLoads(text) else libs.yamlSafeLoad(text)
  }

  /** `upload_data()`: the same three checks, then decoding, then loading by
      extension (".csv" passes the allow-list but is refused here), and the
      reply carries the loaded value re-serialised as indented JSON. */
  function UploadData<V>(libs: Libraries<V>, file: Option<UploadedFile>): (r: UploadReply)
    ensures r.status == (if r.body.Content? then 200 else 400)
    ensures r.body.Error? ==> r.body.message != []
    ensures file.None? ==> r.body == Error("No file provided")
    ensures file.Some? && file.value.filename == [] ==> r.body == Error("No file selected")
    ensures file.Some? && file.value.filename != [] && !IsAllowedDataFile(file.value.filename) ==>
              r.body == Error("Invalid file type")
    ensures file.Some? && IsAllowedDataFile(file.value.filename) && libs.decodeUtf8(file.value.content).Raised? ==>
              r.body == Error(ReadErrorPrefix + libs.decodeUtf8(file.value.content).message)
    ensures file.Some? && Extension(file.value.filename) == ".csv" && libs.decodeUtf8(file.value.content).Returned? ==>
              r.body == Error("Unsupported file format")
    ensures r.body.Content? ==>
              && file.Some?
              && Extension(file.value.filename) in {".json", ".yaml", ".yml"}
              && libs.decodeUtf8(file.value.content).Returned?
              && var loaded := LoadDataFile(libs, Extension(file.value.filename), libs.decodeUtf8(file.value.content).value);
                 loaded.Returned? && libs.jsonDumps(loaded.value) == Returned(r.body.text)
    ensures file.Some? && Extension(file.value.filename) in {".json", ".yaml", ".yml"}
            && libs.decodeUtf8(file.value.content).Returned? ==>
              var loaded := LoadDataFile(libs, Extension(file.value.filename), libs.decodeUtf8(file.value.content).value);
              && (loaded.Raised? ==> r.body == Error(ReadErrorPrefix + loaded.message))
              && (loaded.Returned? && libs.jsonDumps(loaded.value).Returned? ==>
                    r.body == Content(libs.jsonDumps(loaded.value).value))
              && (loaded.Returned? && libs.jsonDumps(loaded.value).Raised? ==>
                    r.body == Error(ReadErrorPrefix + libs.jsonDumps(loaded.value).message))
  {
    if file.None? then UploadReply(Error("No file provided"), 400)
    else if file.value.filename == [] then UploadReply(Error("No file selected"), 400)
    else if !IsAllowedDataFile(file.value.filename) then UploadReply(Error("Invalid file type"), 400)
    else
      match libs.decodeUtf8(file.value.content)
      case Raised(_, m) => UploadReply(Error(ReadErrorPrefix + m), 400)
      case Returned(text) =>
        var ext := Extension(file.value.filename);
        if ext == ".json" || ext == ".yaml" || ext == ".yml" then
          match LoadDataFile(libs, ext, text)
          case Raised(_, m) => UploadReply(Error(ReadErrorPrefix + m), 400)
          case Returned(data) =>
            match libs.jsonDumps(data)
            case Returned(out) => UploadReply(Content(out), 200)
            case Raised(_, m) => UploadReply(Error(ReadErrorPrefix + m), 400)
        else
          UploadReply(Error("Unsupported file format"), 400)
  }

  /** Of the four extensions on the data allow-list, only three can succeed. */
  lemma CsvNeverUploads<V>(libs: Libraries<V>, file: UploadedFile)
    requires Extension(file.filename) == ".csv"
    ensures IsAllowedDataFile(file.filename)
    ensures UploadData(libs, Some(file)).body.Error?
  {
  }
}
