/** The browser script (src/jinja2_tester/static/script.js). The pure pieces
    (file-name inference, JSON/YAML conversion over the parsing libraries,
    download names) are functions; the page, whose text areas, selector,
    status line, output area and debounce timer the event handlers update in
    place, is the class `Page`, one method per handler. */
module Client {
  import opened Outcomes
  import opened Text
  import Server

  // ---------------------------------------------------------------------------
  // The data-format selector

  datatype Format = Json | Yaml

  /** The `value` of the selector's option. */
  function FormatValue(f: Format): string
  {
    match f
    case Json => "json"
    case Yaml => "yaml"
  }

  /** `value.toUpperCase()`, as the error messages show the format. */
  function FormatLabel(f: Format): string
  {
    Upper(FormatValue(f))
  }

  /** The other option, which a failed conversion switches the selector to. */
  function Flip(f: Format): (g: Format)
    ensures g != f
  {
    match f
    case Json => Yaml
    case Yaml => Json
  }

  // ---------------------------------------------------------------------------
  // File names

  /** `name.toLowerCase().split('.').pop()`: the lower-cased text after the
      last dot, or the whole lower-cased name when it has no dot. */
  function FileExtension(name: string): (ext: string)
    ensures '.' !in ext
    ensures ext == Lower(name[RFind(name, '.') + 1..])
  {
    LastSegmentOfLower(name);
    LastSegment(Lower(name), '.')
  }

  lemma LastSegmentOfLower(name: string)
    ensures LastSegment(Lower(name), '.') == Lower(name[RFind(name, '.') + 1..])
  {
    var d := RFind(name, '.');
    RFindLower(name, '.');
    LastSegmentAfterRFind(Lower(name), '.');
    LowerSuffix(name, d + 1);
  }

  /** The format a data upload is taken to be in: JSON for the extension
      "json", YAML for anything else. */
  function InferFormat(name: string): (f: Format)
    ensures f == Json <==> Lower(name[RFind(name, '.') + 1..]) == "json"
  {
    if FileExtension(name) == "json" then Json else Yaml
  }

  /** `new Date().toISOString().replace(/[:.]/g, '-')`, minus the clock read. */
  function SanitizeTimestamp(iso: string): (r: string)
    ensures |r| == |iso|
    ensures ':' !in r && '.' !in r
    ensures forall i :: 0 <= i < |iso| && iso[i] != ':' && iso[i] != '.' ==> r[i] == iso[i]
    ensures forall i :: 0 <= i < |iso| && (iso[i] == ':' || iso[i] == '.') ==> r[i] == '-'
    decreases |iso|
  {
    if iso == [] then []
    else [if iso[0] == ':' || iso[0] == '.' then '-' else iso[0]] + SanitizeTimestamp(iso[1..])
  }

  /** The extension a data download gets for the selected format. */
  function DataFileExtension(f: Format): string
  {
    if f == Json then "json" else "yml"
  }

  /** The MIME type a data download gets for the selected format. */
  function DataMimeType(f: Format): string
  {
    if f == Json then "application/json" else "application/x-yaml"
  }

  const PlainText := "text/plain"

  function DataFileName(f: Format, iso: string): string
  {
    "data-" + SanitizeTimestamp(iso) + "." + DataFileExtension(f)
  }

  function TemplateFileName(iso: string): string
  {
    "template-" + SanitizeTimestamp(iso) + "." + "j2"
  }

  function OutputFileName(iso: string): string
  {
    "rendered-output-" + SanitizeTimestamp(iso) + "." + "txt"
  }

  // ---------------------------------------------------------------------------
  // JSON/YAML conversion

  /** The parsing and serialising calls the script makes. `V` is the type of
      parsed data. */
  datatype JsLibraries<!V> = JsLibraries(
    jsonParse: string -> Js<V>,       // JSON.parse(text)
    yamlLoad: string -> Js<V>,        // jsYaml.load(text)
    jsonStringify: V -> Js<string>,   // JSON.stringify(data, null, 2)
    yamlDump: V -> Js<string>)        // jsYaml.dump(data, {indent: 2, lineWidth: -1, noRefs: true, sortKeys: true})

  /** Parse as JSON, falling back to YAML; when both fail, YAML's error is the one thrown. */
  function ParseLenient<V>(libs: JsLibraries<V>, content: string): (r: Js<V>)
    ensures r.Done? <==> libs.jsonParse(content).Done? || libs.yamlLoad(content).Done?
    ensures libs.jsonParse(content).Done? ==> r == libs.jsonParse(content)
    ensures libs.jsonParse(content).Thrown? ==> r == libs.yamlLoad(content)
  {
    match libs.jsonParse(content)
    case Done(v) => Done(v)
    case Thrown(_) => libs.yamlLoad(content)
  }

  function Serialise<V>(libs: JsLibraries<V>, f: Format, v: V): Js<string>
  {
    if f == Json then libs.jsonStringify(v) else libs.yamlDump(v)
  }

  function FormatErrorPrefix(f: Format): string
  {
    "Invalid " + FormatLabel(f) + " format: "
  }

  /** `formatData(content, format)`: parse leniently, then write out in the
      requested format; any failure becomes one error naming that format. */
  function FormatData<V>(libs: JsLibraries<V>, content: string, f: Format): (r: Js<string>)
    ensures r.Done? <==>
              ParseLenient(libs, content).Done? && Serialise(libs, f, ParseLenient(libs, content).value).Done?
    ensures r.Done? ==> Serialise(libs, f, ParseLenient(libs, content).value) == r
    ensures r.Thrown? ==> FormatErrorPrefix(f) <= r.message
    ensures libs.jsonParse(content).Thrown? && libs.yamlLoad(content).Thrown? ==>
              r == Thrown(FormatErrorPrefix(f) + libs.yamlLoad(content).message)
    ensures ParseLenient(libs, content).Done? && Serialise(libs, f, ParseLenient(libs, content).value).Thrown? ==>
              r == Thrown(FormatErrorPrefix(f) + Serialise(libs, f, ParseLenient(libs, content).value).message)
  {
    match ParseLenient(libs, content)
    case Thrown(m) => Thrown(FormatErrorPrefix(f) + m)
    case Done(v) =>
      match Serialise(libs, f, v)
      case Done(text) => Done(text)
      case Thrown(m) => Thrown(FormatErrorPrefix(f) + m)
  }

  /** `detectDataFormat(content)`: which parser accepts the text first, if any. */
  function DetectDataFormat<V>(libs: JsLibraries<V>, content: string): (r: Option<Format>)
    ensures r == Some(Json) <==> libs.jsonParse(content).Done?
    ensures r.None? <==> ParseLenient(libs, content).Thrown?
  {
    match libs.jsonParse(content)
    case Done(_) => Some(Json)
    case Thrown(_) =>
      match libs.yamlLoad(content)
      case Done(_) => Some(Yaml)
      case Thrown(_) => None
  }

  /** Text no parser accepts converts to neither format; text one parser
      accepts converts to a format whenever that format's writer accepts the value. */
  lemma DetectedIffConvertible<V>(libs: JsLibraries<V>, content: string, f: Format)
    ensures DetectDataFormat(libs, content).None? ==> FormatData(libs, content, f).Thrown?
    ensures DetectDataFormat(libs, content).Some? ==>
              (FormatData(libs, content, f).Done? <==> Serialise(libs, f, ParseLenient(libs, content).value).Done?)
  {
  }

  /** With the library behaving as its documentation says, text that parses as
      JSON converts to YAML whenever the YAML writer accepts its value, and
      YAML text converts to JSON whenever the JSON writer accepts its value. */
  lemma ConvertsBetweenFormats<V>(libs: JsLibraries<V>, content: string)
    ensures libs.jsonParse(content).Done? && libs.yamlDump(libs.jsonParse(content).value).Done? ==>
              FormatData(libs, content, Yaml) == libs.yamlDump(libs.jsonParse(content).value)
    ensures libs.jsonParse(content).Thrown? && libs.yamlLoad(content).Done?
            && libs.jsonStringify(libs.yamlLoad(content).value).Done? ==>
              FormatData(libs, content, Json) == libs.jsonStringify(libs.yamlLoad(content).value)
  {
  }

  const LoadNotAFunction := "jsYaml.load is not a function"
  const DumpNotAFunction := "jsYaml.dump is not a function"

  /** The libraries as the script binds them: the name `jsYaml` is taken by the
      `<script>` element created to fetch js-yaml (which registers itself as
      the global `jsyaml`), and that element has no `load` or `dump` method, so
      every YAML call throws a TypeError. */
  function ScriptElementLibraries<V>(jsonParse: string -> Js<V>, jsonStringify: V -> Js<string>): JsLibraries<V>
  {
    JsLibraries(jsonParse, _ => Thrown(LoadNotAFunction), jsonStringify, _ => Thrown(DumpNotAFunction))
  }

  /** With that binding, nothing converts to YAML, YAML-only text converts to
      nothing, and such text is never detected as YAML. */
  lemma YamlUnreachableAsWritten<V>(jsonParse: string -> Js<V>, jsonStringify: V -> Js<string>, content: string)
    ensures FormatData(ScriptElementLibraries(jsonParse, jsonStringify), content, Yaml).Thrown?
    ensures jsonParse(content).Done? ==>
              FormatData(ScriptElementLibraries(jsonParse, jsonStringify), content, Yaml)
                == Thrown(FormatErrorPrefix(Yaml) + DumpNotAFunction)
    ensures jsonParse(content).Thrown? ==>
              FormatData(ScriptElementLibraries(jsonParse, jsonStringify), content, Json)
                == Thrown(FormatErrorPrefix(Json) + LoadNotAFunction)
    ensures DetectDataFormat(ScriptElementLibraries(jsonParse, jsonStringify), content) != Some(Yaml)
  {
  }

  // ---------------------------------------------------------------------------
  // Requests and downloads

  /** What `updateRenderedOutput` posts to `/render`. */
  datatype RenderRequest = RenderRequest(template: string, data: string, trimBlocks: bool, lstripBlocks: bool)

  /** A boolean appended to FormData arrives as its string form. */
  function BoolText(b: bool): string
  {
    if b then "true" else "false"
  }

  /** The form the server reads from a request. */
  function ToForm(req: RenderRequest): Server.RenderForm
  {
    Server.RenderForm(Some(req.template), Some(req.data), Some(BoolText(req.trimBlocks)), Some(BoolText(req.lstripBlocks)))
  }

  /** The whitespace toggles reach the server and change nothing there. */
  lemma TogglesDoNotChangeReply<V>(libs: Server.Libraries<V>, req: RenderRequest, trim: bool, lstrip: bool)
    ensures Server.Render(libs, ToForm(req)) == Server.Render(libs, ToForm(req.(trimBlocks := trim, lstripBlocks := lstrip)))
  {
    Server.RenderIgnoresWhitespaceFlags(libs, ToForm(req), Some(BoolText(trim)), Some(BoolText(lstrip)));
  }

  datatype Download = Download(content: string, fileName: string, mimeType: string)

  /** What a download button does: save a file, or alert. */
  datatype Action = Save(file: Download) | Alert(message: string)

  // ---------------------------------------------------------------------------
  // Client and server on file names

  /** A name made of a dot-free stem, a dot and a dot-free extension: the server
      and the client both see that extension. */
  lemma StemDotExtension(stem: string, ext: string)
    requires stem != [] && '.' !in stem && '/' !in stem
    requires '.' !in ext && '/' !in ext
    ensures Server.SplitExt(stem + "." + ext).1 == "." + ext
    ensures Server.Extension(stem + "." + ext) == Lower("." + ext)
    ensures FileExtension(stem + "." + ext) == Lower(ext)
  {
    var name := stem + "." + ext;
    var d := |stem|;
    assert name[d] == '.';
    assert forall k :: d < k < |name| ==> name[k] == ext[k - d - 1];
    RFindAt(name, '.', d);
    assert RFind(name, '/') == -1 by {
      assert forall k :: 0 <= k < |name| ==> name[k] != '/' by {
        forall k | 0 <= k < |name| ensures name[k] != '/' {
          if k < d { assert name[k] == stem[k]; } else if k > d { assert name[k] == ext[k - d - 1]; }
        }
      }
    }
    assert name[0] == stem[0] != '.';
    assert Server.SkipDots(name, 0) == 0;
    assert name[d..] == "." + ext;
    assert name[d + 1..] == ext;
  }

  /** Where the server finds an extension, the client's is the same text
      without its dot: the two agree on every name the server accepts. */
  lemma FileExtensionMatchesServer(name: string)
    requires Server.SplitExt(name).1 != []
    ensures Server.Extension(name) == "." + FileExtension(name)
  {
    Server.SplitExtFromLastDot(name);
    var d := RFind(name, '.');
    assert name[d..] == "." + name[d + 1..];
    LowerAfterDot(name[d + 1..]);
  }

  /** Lower-casing leaves a leading dot in place. */
  lemma LowerAfterDot(t: string)
    ensures Lower("." + t) == "." + Lower(t)
  {
    LowerAppend(".", t);
    assert Lower(".") == ".";
  }

  /** Where the server finds an extension, the client infers JSON exactly
      when that extension is ".json". */
  lemma InferFormatMatchesExtension(name: string)
    requires Server.SplitExt(name).1 != []
    ensures InferFormat(name) == Json <==> Server.Extension(name) == ".json"
  {
    FileExtensionMatchesServer(name);
    var ext := FileExtension(name);
    assert Server.Extension(name) == ['.'] + ext;
    assert ['.'] + ext == ".json" <==> ext == "json" by {
      if ['.'] + ext == ".json" {
        assert ext == (['.'] + ext)[1..];
      }
    }
  }

  /** On every data file the server accepts, the client infers the format the
      server parsed it as: JSON for ".json", YAML for ".yaml" and ".yml". */
  lemma InferredFormatMatchesServer<V>(libs: Server.Libraries<V>, file: Server.UploadedFile)
    requires Server.UploadData(libs, Some(file)).body.Content?
    ensures InferFormat(file.filename) == (if Server.Extension(file.filename) == ".json" then Json else Yaml)
  {
    assert Server.Extension(file.filename) != [];
    InferFormatMatchesExtension(file.filename);
  }

  /** The two disagree on a bare ".json": the client infers JSON from it, the
      server refuses it as having no extension. */
  lemma DotJsonDivergence<V>(libs: Server.Libraries<V>, content: seq<Server.byte>)
    ensures InferFormat(".json") == Json
    ensures Server.UploadData(libs, Some(Server.UploadedFile(".json", content))).body == Server.Error("Invalid file type")
  {
    Server.DotFileRejected(".json");
    RFindAt(".json", '.', 0);
    LowerWithoutUpper("json");
    assert ".json"[1..] == "json";
  }

  /** And on a name without a dot: the client takes the whole name as the
      extension ("json" gives JSON), the server finds none. */
  lemma DotlessDivergence(name: string)
    requires '.' !in name
    ensures FileExtension(name) == Lower(name)
    ensures !Server.IsAllowedDataFile(name) && !Server.IsAllowedTemplateFile(name)
  {
    Server.DotlessNameRejected(name);
    assert RFind(name, '.') == -1;
    assert name[0..] == name;
  }

  /** The timestamp part of a saved file's name holds no path separator when
      the clock's text holds none. */
  lemma SanitizedHasNoSlash(iso: string)
    requires '/' !in iso
    ensures '/' !in SanitizeTimestamp(iso)
  {
    var ts := SanitizeTimestamp(iso);
    forall i | 0 <= i < |iso| ensures ts[i] != '/' {
      assert iso[i] != '/';
    }
  }

  /** The stem of a saved file's name: a fixed prefix and the sanitised
      timestamp, holding neither a dot nor a path separator. */
  lemma SavedStem(prefix: string, iso: string)
    requires prefix != [] && '.' !in prefix && '/' !in prefix && '/' !in iso
    ensures var stem := prefix + SanitizeTimestamp(iso); stem != [] && '.' !in stem && '/' !in stem
  {
    SanitizedHasNoSlash(iso);
  }

  /** The server's view of a dot-free stem, a dot and a lower-case extension. */
  lemma ServerSeesExtension(stem: string, ext: string)
    requires stem != [] && '.' !in stem && '/' !in stem
    requires '.' !in ext && '/' !in ext && Lower(ext) == ext
    ensures Server.Extension(stem + "." + ext) == "." + ext
  {
    StemDotExtension(stem, ext);
    LowerAfterDot(ext);
  }

  /** The client's view of the same name. */
  lemma ClientSeesExtension(stem: string, ext: string)
    requires stem != [] && '.' !in stem && '/' !in stem
    requires '.' !in ext && '/' !in ext && Lower(ext) == ext
    ensures FileExtension(stem + "." + ext) == ext
  {
    StemDotExtension(stem, ext);
  }

  /** The extensions the page writes, with their dot. */
  lemma DottedExtensions()
    ensures "." + "json" == ".json" && "." + "yml" == ".yml"
    ensures "." + "j2" == ".j2" && "." + "txt" == ".txt"
  {
  }

  /** The extensions the page writes are lower-case already. */
  lemma LowerCaseExtensions()
    ensures Lower("json") == "json" && Lower("yml") == "yml"
    ensures Lower("j2") == "j2" && Lower("txt") == "txt"
  {
    LowerWithoutUpper("json");
    LowerWithoutUpper("yml");
    LowerWithoutUpper("j2");
    LowerWithoutUpper("txt");
  }

  /** After a dot-free stem, the data extensions the page writes are ones the
      server accepts. */
  lemma DataStemAccepted(stem: string)
    requires stem != [] && '.' !in stem && '/' !in stem
    ensures Server.Extension(stem + "." + "json") == ".json"
    ensures Server.Extension(stem + "." + "yml") == ".yml"
  {
    LowerCaseExtensions();
    DottedExtensions();
    ServerSeesExtension(stem, "json");
    ServerSeesExtension(stem, "yml");
  }

  /** After a dot-free stem, the client reads those extensions back. */
  lemma DataStemInferred(stem: string)
    requires stem != [] && '.' !in stem && '/' !in stem
    ensures InferFormat(stem + "." + "json") == Json
    ensures InferFormat(stem + "." + "yml") == Yaml
  {
    LowerCaseExtensions();
    ClientSeesExtension(stem, "json");
    ClientSeesExtension(stem, "yml");
  }

  /** After a dot-free stem, the template and output extensions the page
      writes are ones the server accepts. */
  lemma TemplateStemAccepted(stem: string)
    requires stem != [] && '.' !in stem && '/' !in stem
    ensures Server.Extension(stem + "." + "j2") == ".j2"
    ensures Server.Extension(stem + "." + "txt") == ".txt"
  {
    LowerCaseExtensions();
    DottedExtensions();
    ServerSeesExtension(stem, "j2");
    ServerSeesExtension(stem, "txt");
  }

  /** A data file the page saves is one the server takes back, and reads in
      the format it was saved in. */
  lemma SavedDataFileUploadsBack(f: Format, iso: string)
    requires '/' !in iso
    ensures Server.IsAllowedDataFile(DataFileName(f, iso))
    ensures Server.Extension(DataFileName(f, iso)) == "." + DataFileExtension(f)
  {
    SavedStem("data-", iso);
    DataStemAccepted("data-" + SanitizeTimestamp(iso));
    DottedExtensions();
  }

  /** Uploading a saved data file puts the selector back on the format it was
      saved in. */
  lemma SavedDataFileFormatInferred(f: Format, iso: string)
    requires '/' !in iso
    ensures InferFormat(DataFileName(f, iso)) == f
  {
    SavedStem("data-", iso);
    DataStemInferred("data-" + SanitizeTimestamp(iso));
  }

  /** A template the page saves, and saved rendered output, pass the server's
      template check. */
  lemma SavedTemplateFileUploadsBack(iso: string)
    requires '/' !in iso
    ensures Server.IsAllowedTemplateFile(TemplateFileName(iso))
    ensures Server.IsAllowedTemplateFile(OutputFileName(iso))
  {
    var ts := SanitizeTimestamp(iso);
    SavedStem("template-", iso);
    SavedStem("rendered-output-", iso);
    TemplateStemAccepted("template-" + ts);
    TemplateStemAccepted("rendered-output-" + ts);
  }

  // ---------------------------------------------------------------------------
  // The page

  const RenderingPlaceholder := "Rendering..."
  const NoOutputPlaceholder := "No output to display"
  const FailurePlaceholder := "Error occurred while rendering"
  const RenderFailureStatus := "Error: Failed to render template"

  /** The page's mutable state as the script sees it. Timers are the browser's
      handles; `pendingTimers` are those armed and neither fired nor cleared,
      and `sent` records the `/render` requests issued, oldest first. Replies
      are applied in whatever order they arrive. */
  class Page {
    var template: string            // templateInput.value
    var data: string                // dataInput.value
    var format: Format              // dataFormatSelect.value
    var trimBlocks: bool            // trimBlocksToggle.checked
    var lstripBlocks: bool          // lstripBlocksToggle.checked
    var status: string              // resultDiv.textContent
    var statusClass: string         // resultDiv.className
    var statusShown: bool           // resultDiv.style.display is 'block'
    var output: string              // outputArea.textContent
    var empty: bool                 // outputArea carries the 'empty' class
    var debounceTimeout: Option<nat>
    var pendingTimers: set<nat>
    var nextTimerId: nat
    var sent: seq<RenderRequest>

    /** Only the timer the script holds can be pending, and it was issued. */
    ghost predicate Valid()
      reads this
    {
      && (forall t :: t in pendingTimers ==> debounceTimeout == Some(t))
      && (debounceTimeout.Some? ==> debounceTimeout.value < nextTimerId)
    }

    /** The `DOMContentLoaded` handler over the page as served: it renders at
        once when the page arrives with a template or with data other than "{}". */
    constructor (template: string, data: string, format: Format, trimBlocks: bool, lstripBlocks: bool,
                 output: string, empty: bool)
      ensures Valid()
      ensures this.template == template && this.data == data && this.format == format
      ensures this.trimBlocks == trimBlocks && this.lstripBlocks == lstripBlocks
      ensures !statusShown && debounceTimeout == None && pendingTimers == {}
      ensures template != [] || data != "{}" ==>
                sent == [RenderRequest(template, data, trimBlocks, lstripBlocks)]
                && this.output == RenderingPlaceholder && this.empty
      ensures template == [] && data == "{}" ==> sent == [] && this.output == output && this.empty == empty
    {
      this.template, this.data, this.format := template, data, format;
      this.trimBlocks, this.lstripBlocks := trimBlocks, lstripBlocks;
      this.output, this.empty := output, empty;
      status, statusClass, statusShown := [], "result", false;
      debounceTimeout, pendingTimers, nextTimerId := None, {}, 1;
      sent := [];
      new;
      if template != [] || data != "{}" {
        StartRender();
      }
    }

    /** `updateRenderedOutput` up to the request: show the loading placeholder
        and post the current inputs. */
    method StartRender()
      modifies this`output, this`empty, this`sent
      ensures output == RenderingPlaceholder && empty
      ensures sent == old(sent) + [RenderRequest(template, data, trimBlocks, lstripBlocks)]
    {
      output, empty := RenderingPlaceholder, true;
      sent := sent + [RenderRequest(template, data, trimBlocks, lstripBlocks)];
    }

    /** The `.then` of `updateRenderedOutput`: status from `result`, styled by
        `is_valid`; the output, or the no-output placeholder when it is null. */
    method ApplyRenderReply(reply: Server.RenderReply)
      modifies this`status, this`statusClass, this`statusShown, this`output, this`empty
      ensures status == reply.result && statusShown
      ensures statusClass == (if reply.isValid then "result success" else "result error")
      ensures reply.renderedOutput.Some? ==> output == reply.renderedOutput.value && !empty
      ensures reply.renderedOutput.None? ==> output == NoOutputPlaceholder && empty
    {
      status := reply.result;
      statusClass := if reply.isValid then "result success" else "result error";
      statusShown := true;
      match reply.renderedOutput
      case Some(text) =>
        output, empty := text, false;
      case None =>
        output, empty := NoOutputPlaceholder, true;
    }

    /** The `.catch` of `updateRenderedOutput`: the request or its JSON failed. */
    method ApplyRenderFailure()
      modifies this`status, this`statusClass, this`statusShown, this`output, this`empty
      ensures status == RenderFailureStatus && statusClass == "result error" && statusShown
      ensures output == FailurePlaceholder && empty
    {
      status, statusClass, statusShown := RenderFailureStatus, "result error", true;
      output, empty := FailurePlaceholder, true;
    }

    /** `debounceInput`: clear the held timer and arm a fresh one. */
    method DebounceInput()
      requires Valid()
      modifies this`debounceTimeout, this`pendingTimers, this`nextTimerId
      ensures Valid()
      ensures debounceTimeout == Some(old(nextTimerId)) && pendingTimers == {old(nextTimerId)}
      ensures nextTimerId == old(nextTimerId) + 1
      ensures old(pendingTimers) !! pendingTimers
    {
      if debounceTimeout.Some? {
        pendingTimers := pendingTimers - {debounceTimeout.value};
      }
      debounceTimeout := Some(nextTimerId);
      pendingTimers := pendingTimers + {nextTimerId};
      nextTimerId := nextTimerId + 1;
    }

    /** The browser runs a pending timer's callback, `updateRenderedOutput`. */
    method FireTimer(id: nat)
      requires Valid() && id in pendingTimers
      modifies this`pendingTimers, this`output, this`empty, this`sent
      ensures Valid()
      ensures pendingTimers == {}
      ensures output == RenderingPlaceholder && empty
      ensures sent == old(sent) + [RenderRequest(template, data, trimBlocks, lstripBlocks)]
    {
      pendingTimers := pendingTimers - {id};
      StartRender();
    }

    /** An `input` event on the template area. */
    method EditTemplate(text: string)
      requires Valid()
      modifies this`template, this`debounceTimeout, this`pendingTimers, this`nextTimerId
      ensures Valid()
      ensures template == text && pendingTimers == {old(nextTimerId)} && old(pendingTimers) !! pendingTimers
    {
      template := text;
      DebounceInput();
    }

    /** An `input` event on the data area. */
    method EditData(text: string)
      requires Valid()
      modifies this`data, this`debounceTimeout, this`pendingTimers, this`nextTimerId
      ensures Valid()
      ensures data == text && pendingTimers == {old(nextTimerId)} && old(pendingTimers) !! pendingTimers
    {
      data := text;
      DebounceInput();
    }

    /** A `change` event on the trim-blocks toggle. */
    method SetTrimBlocks(checked: bool)
      requires Valid()
      modifies this`trimBlocks, this`debounceTimeout, this`pendingTimers, this`nextTimerId
      ensures Valid()
      ensures trimBlocks == checked && pendingTimers == {old(nextTimerId)} && old(pendingTimers) !! pendingTimers
    {
      trimBlocks := checked;
      DebounceInput();
    }

    /** A `change` event on the lstrip-blocks toggle. */
    method SetLstripBlocks(checked: bool)
      requires Valid()
      modifies this`lstripBlocks, this`debounceTimeout, this`pendingTimers, this`nextTimerId
      ensures Valid()
      ensures lstripBlocks == checked && pendingTimers == {old(nextTimerId)} && old(pendingTimers) !! pendingTimers
    {
      lstripBlocks := checked;
      DebounceInput();
    }

    /** The validate button renders at once, leaving any armed timer alone. */
    method ClickValidate()
      modifies this`output, this`empty, this`sent
      ensures output == RenderingPlaceholder && empty
      ensures sent == old(sent) + [RenderRequest(template, data, trimBlocks, lstripBlocks)]
    {
      StartRender();
    }

    /** The reply to a template upload. A non-empty `error` is alerted and
        changes nothing; otherwise the template is replaced and rendered. */
    method ApplyTemplateUpload(reply: Js<Server.UploadBody>) returns (alert: Option<string>)
      requires reply.Done? && reply.value.Error? ==> reply.value.message != []
      modifies this`template, this`output, this`empty, this`sent
      ensures reply.Thrown? ==> alert == Some("Failed to upload template file")
      ensures reply.Done? && reply.value.Error? ==> alert == Some(reply.value.message)
      ensures alert.Some? ==>
                template == old(template) && sent == old(sent) && output == old(output) && empty == old(empty)
      ensures reply.Done? && reply.value.Content? ==>
                && alert == None && template == reply.value.text
                && sent == old(sent) + [RenderRequest(reply.value.text, data, trimBlocks, lstripBlocks)]
                && output == RenderingPlaceholder && empty
    {
      match reply
      case Thrown(_) =>
        alert := Some("Failed to upload template file");
      case Done(Error(message)) =>
        alert := Some(message);
      case Done(Content(text)) =>
        template := text;
        StartRender();
        alert := None;
    }

    /** The reply to a data upload of a file called `fileName`. As for
        templates, and on success the selector follows the file's extension. */
    method ApplyDataUpload(fileName: string, reply: Js<Server.UploadBody>) returns (alert: Option<string>)
      requires reply.Done? && reply.value.Error? ==> reply.value.message != []
      modifies this`data, this`format, this`output, this`empty, this`sent
      ensures reply.Thrown? ==> alert == Some("Failed to upload data file")
      ensures reply.Done? && reply.value.Error? ==> alert == Some(reply.value.message)
      ensures alert.Some? ==>
                && data == old(data) && format == old(format) && sent == old(sent)
                && output == old(output) && empty == old(empty)
      ensures reply.Done? && reply.value.Content? ==>
                && alert == None && data == reply.value.text && format == InferFormat(fileName)
                && sent == old(sent) + [RenderRequest(template, reply.value.text, trimBlocks, lstripBlocks)]
                && output == RenderingPlaceholder && empty
    {
      var inferred := InferFormat(fileName);
      match reply
      case Thrown(_) =>
        alert := Some("Failed to upload data file");
      case Done(Error(message)) =>
        alert := Some(message);
      case Done(Content(text)) =>
        format := inferred;
        data := text;
        StartRender();
        alert := None;
    }

    /** The format button: rewrite the trimmed data in the selected format. */
    method ClickFormatData<V>(libs: JsLibraries<V>) returns (alert: Option<string>)
      modifies this`data
      ensures IsBlank(old(data)) ==> alert == Some("No data to format")
      ensures alert.None? <==> !IsBlank(old(data)) && FormatData(libs, Trim(old(data)), format).Done?
      ensures alert.None? ==> data == FormatData(libs, Trim(old(data)), format).value
      ensures alert.Some? ==> data == old(data)
      ensures !IsBlank(old(data)) && FormatData(libs, Trim(old(data)), format).Thrown? ==>
                alert == Some(FormatData(libs, Trim(old(data)), format).message)
    {
      var content := Trim(data);
      if content == [] {
        alert := Some("No data to format");
        return;
      }
      match FormatData(libs, content, format)
      case Done(text) =>
        data := text;
        alert := None;
      case Thrown(message) =>
        alert := Some(message);
    }

    /** A `change` of the selector to `selected`: convert the trimmed data; if
        that fails, alert and switch the selector to the other option. */
    method ChangeFormat<V>(libs: JsLibraries<V>, selected: Format) returns (alert: Option<string>)
      modifies this`data, this`format
      ensures IsBlank(old(data)) ==> alert == None && data == old(data) && format == selected
      ensures !IsBlank(old(data)) ==>
                match FormatData(libs, Trim(old(data)), selected)
                case Done(text) => alert == None && data == text && format == selected
                case Thrown(message) =>
                  && alert == Some("Failed to convert to " + FormatLabel(selected) + ": " + message)
                  && data == old(data) && format == Flip(selected)
      ensures selected != old(format) && alert.Some? ==> format == old(format)
    {
      format := selected;
      var content := Trim(data);
      if content == [] {
        return None;
      }
      match FormatData(libs, content, format)
      case Done(text) =>
        data := text;
        alert := None;
      case Thrown(message) =>
        alert := Some("Failed to convert to " + FormatLabel(format) + ": " + message);
        format := Flip(format);
    }

    /** The download-data button: save the untrimmed data converted to the
        selected format, named and typed after that format. */
    method DownloadData<V>(libs: JsLibraries<V>, iso: string) returns (action: Action)
      ensures IsBlank(data) ==> action == Alert("No data content to download")
      ensures action.Save? <==> !IsBlank(data) && FormatData(libs, data, format).Done?
      ensures action.Save? ==>
                action.file == Download(FormatData(libs, data, format).value, DataFileName(format, iso), DataMimeType(format))
      ensures !IsBlank(data) && FormatData(libs, data, format).Thrown? ==>
                action == Alert("Invalid " + FormatLabel(format) + " data: " + FormatData(libs, data, format).message)
    {
      if Trim(data) != [] {
        match FormatData(libs, data, format)
        case Done(text) =>
          action := Save(Download(text, DataFileName(format, iso), DataMimeType(format)));
        case Thrown(message) =>
          action := Alert("Invalid " + FormatLabel(format) + " data: " + message);
      } else {
        action := Alert("No data content to download");
      }
    }

    /** The download-template button: save the template verbatim unless it is blank. */
    method DownloadTemplate(iso: string) returns (action: Action)
      ensures action.Save? <==> !IsBlank(template)
      ensures action.Save? ==> action.file == Download(template, TemplateFileName(iso), PlainText)
      ensures action.Alert? ==> action.message == "No template content to download"
    {
      if Trim(template) != [] {
        action := Save(Download(template, TemplateFileName(iso), PlainText));
      } else {
        action := Alert("No template content to download");
      }
    }

    /** The download-output button: only real output is saved, never an empty
        text or a placeholder. */
    method DownloadOutput(iso: string) returns (action: Action)
      ensures action.Save? <==> output != [] && !empty
      ensures action.Save? ==> action.file == Download(output, OutputFileName(iso), PlainText)
      ensures action.Alert? ==> action.message == "No rendered output to download"
    {
      if output != [] && !empty {
        action := Save(Download(output, OutputFileName(iso), PlainText));
      } else {
        action := Alert("No rendered output to download");
      }
    }
  }

  /** However the handlers have run, at most one render timer is pending. */
  lemma AtMostOneTimerPending(page: Page)
    requires page.Valid()
    ensures |page.pendingTimers| <= 1
  {
    if page.pendingTimers != {} {
      var t :| t in page.pendingTimers;
      assert page.pendingTimers == {t};
    }
  }
}
