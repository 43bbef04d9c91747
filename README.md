# jinja2-tester in Dafny

jinja2-tester is a small web tool for trying Jinja2 templates. The user types a
template and JSON or YAML data into a page. The page posts both to a Flask
server, which validates the template, renders it with the data, and sends back
a verdict and the output. The page can also upload template and data files,
reformat the data between JSON and YAML, and download the template, the data
or the output.

This project models both halves of that core:

- `outcomes.dfy`: the `Option` type, and the outcome of a library call. A
  Python call returns or raises an exception of a given class. A JavaScript
  call completes or throws a message.
- `text.dfy`: the string operations both halves use. These are ASCII
  lower-casing and upper-casing, Python's `str.rfind`, JavaScript's `trim`,
  and `split`/`join` on one character.
- `server.dfy` (`src/jinja2_tester/app.py`): the file-type allow-lists over a
  model of `os.path.splitext`, `validate_template`, `render_template_string`,
  and the routes `/`, `/upload-template`, `/upload-data` and `/render`. Each
  route is a function from the request to the reply.
- `client.dfy` (`src/jinja2_tester/static/script.js`): two kinds of members.
  Functions cover the pure helpers: extension inference, timestamp
  sanitising, download names, `formatData` and `detectDataFormat`. The class
  `Page` holds the page's inputs, selector, status line, output area and
  debounce timer, and has one method per event handler.

Library calls are parameters, not code:

- Jinja2, `json`, `yaml`, UTF-8 decoding, `JSON.parse`, `JSON.stringify` and
  js-yaml are arrow-typed fields of a record (`Server.Libraries`,
  `Client.JsLibraries`).
- Each field says what the call returns or raises for each input.
- Contracts state the routes' and handlers' results in terms of those
  outcomes.

Two behaviours of the code shape the model:

- The server never reads the `trim_blocks` and `lstrip_blocks` fields that the
  page posts. `Server.RenderIgnoresWhitespaceFlags` states this.
- The page infers a data file's format from the text after its last dot,
  while the server uses `os.path.splitext`. The two disagree on a name such
  as `.json`.

## Model

| member | source | states |
|---|---|---|
| Text.Lower | src/jinja2_tester/app.py:18 | `.lower()`: same length; every ASCII capital becomes its small letter and every other character is kept |
| Text.Upper | src/jinja2_tester/static/script.js:151 | `toUpperCase()` on the format name: same length; every ASCII small letter becomes its capital and every other character is kept |
| Text.RFind | src/jinja2_tester/app.py:18 | the last index holding the character, or -1 when none does; nothing after it holds the character |
| Text.RFindLower | src/jinja2_tester/static/script.js:190 | lower-casing the name before looking for the last dot does not move that dot |
| Text.Trim | src/jinja2_tester/static/script.js:157 | `trim()` is a slice of the input with only white space before and after it; it is empty exactly when every character is white space, and otherwise starts and ends with a character that is not |
| Text.Split | src/jinja2_tester/static/script.js:190 | `split('.')` gives at least one piece, and no piece holds the separator |
| Text.JoinSplit | src/jinja2_tester/static/script.js:190 | joining the pieces of a split with the separator gives back the original string |
| Text.LastSegmentAfterRFind | src/jinja2_tester/static/script.js:190 | `split('.').pop()` is exactly the text after the last dot, or the whole string when there is no dot |
| Server.SplitExt | src/jinja2_tester/app.py:17-21 | `os.path.splitext`: the two parts concatenate to the path; a non-empty extension starts with a dot and holds no further dot and no '/' |
| Server.SplitExtAt | src/jinja2_tester/app.py:17-21 | where an extension starts by the independent rule (a dot with no later dot or '/', and a non-dot before it in the last path component), `SplitExt` returns exactly that suffix |
| Server.SplitExtNonEmptyIff | src/jinja2_tester/app.py:17-21 | `SplitExt` finds an extension if and only if one starts somewhere by that rule |
| Server.AllowedIff | src/jinja2_tester/app.py:17-21 | a name passes an allow-list without the empty string if and only if an extension starts in it and its lower-cased form is on the list |
| Server.Extension | src/jinja2_tester/app.py:17-21 | `os.path.splitext(name)[1].lower()`: empty exactly when `splitext` finds no extension; otherwise the lower-cased text from the name's last dot on |
| Server.IsAllowedTemplateFile | src/jinja2_tester/app.py:14-18 | `is_allowed_template_file` holds if and only if an extension starts in the name by that rule and, lower-cased, is one of `.j2 .jinja .jinja2 .html .txt` |
| Server.IsAllowedDataFile | src/jinja2_tester/app.py:15-21 | `is_allowed_data_file` holds if and only if an extension starts in the name by that rule and, lower-cased, is one of `.json .yaml .yml .csv` |
| Server.DotlessNameRejected | src/jinja2_tester/app.py:17-21 | a name with no dot has no extension and fails both checks |
| Server.DotFileRejected | src/jinja2_tester/app.py:17-21 | a name made of one leading dot and a dot-free, slash-free word (`.json`) has no extension and fails both checks |
| Server.ValidateTemplate | src/jinja2_tester/app.py:23-31 | valid exactly when Jinja2 parses the source; the message is "Template syntax is valid", or the syntax-error or generic prefix plus the exception text, chosen by the exception class |
| Server.RenderTemplateString | src/jinja2_tester/app.py:33-39 | success exactly when rendering returns; the output on success, otherwise "Error rendering template: " plus the exception text |
| Server.Render | src/jinja2_tester/app.py:134-177 | output is present exactly when the reply is valid; valid if and only if the data loads, the template parses and it renders, and then the output is the rendered text; the message for a decode error, for any other loader error (the catch-all), for a template error and for a rendering error |
| Server.RenderChecksDataFirst | src/jinja2_tester/app.py:140-148 | once the data fails to load, neither the template nor the template library changes the reply |
| Server.RenderIgnoresWhitespaceFlags | src/jinja2_tester/app.py:137-138 | the reply is the same whatever the `trim_blocks` and `lstrip_blocks` fields hold |
| Server.Index | src/jinja2_tester/app.py:41-87 | GET shows the empty form with data "{}"; POST echoes the inputs, is valid exactly when the data loads and the template parses and renders, answers 500 exactly when the template parses and the loader raises something other than a decode error, and reports a template error before looking at the data; the page for success ("Template is valid" and the rendered text), for a decode error and for a rendering error |
| Server.IndexAndRenderDisagreeOnOrder | src/jinja2_tester/app.py:47-53 | with an unparsable template and undecodable data, the page reports the template error and `/render` the data error, and the two messages differ |
| Server.UploadTemplate | src/jinja2_tester/app.py:89-105 | status 200 exactly for content; the missing-file, empty-name and file-type checks in that order; content exactly when the name is allowed and the bytes decode, and then it is the decoded text; otherwise the read error; every error message is non-empty |
| Server.UploadData | src/jinja2_tester/app.py:107-132 | the same checks in the same order; decoding comes before the extension is examined; `.csv` that decodes gives "Unsupported file format"; content only for `.json`, `.yaml`, `.yml`, and then it is the loaded value re-serialised as JSON; for those three, a decoded file that loads and re-serialises always gives that content, and a load or dump failure gives "Error reading file: " with its message |
| Server.LoadDataFile | src/jinja2_tester/app.py:121-128 | the loader the route picks: `json.loads` for `.json`, `yaml.safe_load` otherwise (only `.yaml` and `.yml` reach it); its use is stated by `Server.UploadData` |
| Server.CsvNeverUploads | src/jinja2_tester/app.py:119-128 | `.csv` passes the allow-list, yet its upload always fails |
| Client.Flip | src/jinja2_tester/static/script.js:182 | the reverted selection is the other format |
| Client.FileExtension | src/jinja2_tester/static/script.js:190 | the inferred extension holds no dot and is the lower-cased text after the name's last dot |
| Client.LastSegmentOfLower | src/jinja2_tester/static/script.js:190 | the last piece of the lower-cased name split at '.' is the lower-cased text after the name's last dot |
| Client.InferFormat | src/jinja2_tester/static/script.js:190-191 | JSON if and only if the lower-cased text after the name's last dot is "json"; YAML for anything else |
| Client.SanitizeTimestamp | src/jinja2_tester/static/script.js:228 | `replace(/[:.]/g, '-')`: same length; no ':' or '.' remains; each of them becomes '-' and every other character is kept |
| Client.DataFileExtension | src/jinja2_tester/static/script.js:229 | "json" for JSON and "yml" otherwise; `Client.SavedDataFileUploadsBack` proves the server accepts it |
| Client.DataMimeType | src/jinja2_tester/static/script.js:233 | "application/json" for JSON and "application/x-yaml" otherwise; `Client.Page.DownloadData` saves under it |
| Client.DataFileName | src/jinja2_tester/static/script.js:228-232 | `data-<timestamp>.<extension>`; `Client.SavedDataFileUploadsBack` and `Client.SavedDataFileFormatInferred` prove it uploads back in its format |
| Client.TemplateFileName | src/jinja2_tester/static/script.js:263-264 | `template-<timestamp>.j2`; `Client.SavedTemplateFileUploadsBack` proves the server accepts it |
| Client.OutputFileName | src/jinja2_tester/static/script.js:274-275 | `rendered-output-<timestamp>.txt`; `Client.SavedTemplateFileUploadsBack` proves the server accepts it |
| Client.ParseLenient | src/jinja2_tester/static/script.js:130-134 | JSON's value when it parses, otherwise YAML's result; succeeds if and only if one of them parses |
| Client.FormatData | src/jinja2_tester/static/script.js:125-153 | succeeds if and only if lenient parsing and the chosen writer both succeed, and then it is the writer's text; every failure carries "Invalid <FORMAT> format: ", the writer's message when writing fails, and YAML's error when both parsers fail |
| Client.DetectDataFormat | src/jinja2_tester/static/script.js:110-122 | JSON exactly when JSON parses; none exactly when lenient parsing fails |
| Client.DetectedIffConvertible | src/jinja2_tester/static/script.js:110-153 | text detected as neither format converts to neither; detected text converts exactly when the target writer accepts its value |
| Client.ConvertsBetweenFormats | src/jinja2_tester/static/script.js:128-148 | JSON text converts to the YAML writer's output, and YAML-only text to the JSON writer's output |
| Client.YamlUnreachableAsWritten | src/jinja2_tester/static/script.js:125-153 | with `jsYaml` bound to the `<script>` element, conversion to YAML always fails, with "Invalid YAML format: jsYaml.dump is not a function" for JSON text; YAML-only text fails with "jsYaml.load is not a function", and nothing is detected as YAML |
| Client.TogglesDoNotChangeReply | src/jinja2_tester/static/script.js:30-31 | the toggles' values reach `/render` and never change its reply |
| Client.FileExtensionMatchesServer | src/jinja2_tester/static/script.js:190 | where the server finds an extension, it is a dot followed by the client's inferred extension |
| Client.InferFormatMatchesExtension | src/jinja2_tester/static/script.js:191 | where the server finds an extension, the client infers JSON if and only if that extension is `.json` |
| Client.InferredFormatMatchesServer | src/jinja2_tester/static/script.js:190-191 | for every data file the server accepts, the client's format is the one the server loaded it with |
| Client.DotJsonDivergence | src/jinja2_tester/static/script.js:190-191 | the file `.json` is inferred as JSON by the client and refused by the server as "Invalid file type" |
| Client.DotlessDivergence | src/jinja2_tester/static/script.js:190 | for a name without a dot, the client takes the whole lower-cased name as the extension, while the server accepts it as neither kind of file |
| Client.StemDotExtension | src/jinja2_tester/static/script.js:232 | for a dot-free stem, a dot and a dot-free extension, the server's extension is the dot and that extension, and the client's is the lower-cased extension |
| Client.SavedDataFileUploadsBack | src/jinja2_tester/static/script.js:228-233 | a saved data file passes the server's data check, with extension `.json` or `.yml` after the selected format |
| Client.SavedDataFileFormatInferred | src/jinja2_tester/static/script.js:228-233 | uploading a saved data file sets the selector back to the format it was saved in |
| Client.SavedTemplateFileUploadsBack | src/jinja2_tester/static/script.js:263-275 | saved templates (`.j2`) and saved output (`.txt`) both pass the server's template check |
| Client.Page.constructor | src/jinja2_tester/static/script.js:244-246 | no timer pending and the status hidden; a request is sent and the loading placeholder shown exactly when the template is non-empty or the data differs from "{}" |
| Client.Page.StartRender | src/jinja2_tester/static/script.js:21-36 | shows the loading placeholder and sends the current template, data and toggles |
| Client.Page.ApplyRenderReply | src/jinja2_tester/static/script.js:38-52 | the status is the reply's message, styled by validity and shown; the output is the rendered text, or the no-output placeholder when there is none |
| Client.Page.ApplyRenderFailure | src/jinja2_tester/static/script.js:53-60 | error status "Error: Failed to render template" and the failure placeholder |
| Client.Page.DebounceInput | src/jinja2_tester/static/script.js:64-67 | the previously pending timer is cancelled, and exactly one fresh timer is pending |
| Client.Page.FireTimer | src/jinja2_tester/static/script.js:66 | a pending timer's firing leaves none pending and sends one request with the current inputs |
| Client.Page.EditTemplate | src/jinja2_tester/static/script.js:70 | the template takes the typed text and the render is re-armed |
| Client.Page.EditData | src/jinja2_tester/static/script.js:71 | the data takes the typed text and the render is re-armed |
| Client.Page.SetTrimBlocks | src/jinja2_tester/static/script.js:308 | the toggle takes the new value and the render is re-armed |
| Client.Page.SetLstripBlocks | src/jinja2_tester/static/script.js:309 | the toggle takes the new value and the render is re-armed |
| Client.Page.ClickValidate | src/jinja2_tester/static/script.js:74-77 | renders at once with the current inputs |
| Client.Page.ApplyTemplateUpload | src/jinja2_tester/static/script.js:83-107 | a transport failure or a server error is alerted and changes nothing; content replaces the template and triggers one render |
| Client.Page.ApplyDataUpload | src/jinja2_tester/static/script.js:187-219 | likewise; on content, the selector follows the file name's inferred format and the data is replaced and rendered |
| Client.Page.ClickFormatData | src/jinja2_tester/static/script.js:156-169 | blank data gives "No data to format"; otherwise the trimmed data is rewritten in the selected format, or the conversion error is alerted and the data kept |
| Client.Page.ChangeFormat | src/jinja2_tester/static/script.js:172-184 | blank data is left alone; otherwise the trimmed data is converted, or "Failed to convert to <FORMAT>: " is alerted and the selector returns to the previous format |
| Client.Page.DownloadData | src/jinja2_tester/static/script.js:222-241 | saves exactly when the data is not blank and converts, under the timestamped name and MIME type of the selected format; otherwise the blank-data alert or "Invalid <FORMAT> data: " |
| Client.Page.DownloadTemplate | src/jinja2_tester/static/script.js:260-268 | saves the template verbatim as `template-<timestamp>.j2` in text/plain exactly when it is not blank |
| Client.Page.DownloadOutput | src/jinja2_tester/static/script.js:271-279 | saves the output exactly when it is non-empty and not a placeholder |
| Client.AtMostOneTimerPending | src/jinja2_tester/static/script.js:64-67 | at any time at most one render timer is pending |

## Left out

- Flask plumbing is not modelled: the app object, `load_dotenv`, `SECRET_KEY`, the 5 MB `MAX_CONTENT_LENGTH` limit, `app.run`, and the HTML that `render_template('index.html', ...)` produces. `Server.Index` returns the values passed to the template instead.
- Jinja2, `json`, `yaml`, UTF-8 decoding, `JSON.parse`, `JSON.stringify` and js-yaml are oracles. Nothing about their internals is proved. In particular, whether JSON→YAML→JSON gives back the same value is outside the model.
- `os.path.splitext` is modelled for POSIX paths ('/' as the only separator).
- Lower-casing and upper-casing are modelled for ASCII letters only. Python's `lower` and JavaScript's case mapping also change other letters.
- `fetch`, `FormData`, `Blob`, object URLs, the DOM and `console.error` are not modelled. A reply reaches the page as a parameter: an upload body, a render reply, or a transport failure. Alerts and downloads are return values.
- The clock is a parameter (`iso`, the output of `toISOString()`).
- Timer delays and the order in which `/render` replies arrive are not modelled. Each `ApplyRenderReply` call is one arriving reply, in whatever order the caller chooses.
- The script adds a CSS block (script.js:281-305) and injects the js-yaml `<script>` tag (script.js:1-3). Only the tag's effect on the name `jsYaml` is modelled.
- The upload and browse buttons just open file pickers (script.js:80-81) and are not modelled. Nothing is sent when no file is chosen.
- Clearing the data file input after an upload (script.js:211) is not modelled.
- The page's markup before the first event is not modelled. The constructor takes the initial inputs and the output area's state as parameters.
- Client.Page.ApplyTemplateUpload: requires a server error message to be non-empty. In JavaScript an empty `error` is falsy and would fall into the success branch. `Server.UploadTemplate` and `Server.UploadData` prove that every error they send is non-empty.
- Client.Page.ApplyDataUpload: the same restriction, for the same reason.
- `detectDataFormat` (script.js:110-122) is never called by the script. It is modelled as `Client.DetectDataFormat` all the same.

## Findings

| source | as written | input that shows it | evidently intended | confidence | as-written member | corrected member |
|---|---|---|---|---|---|---|
| src/jinja2_tester/static/script.js:1-3 | `jsYaml` is the `<script>` element that loads js-yaml. The library registers itself as the global `jsyaml`, and the element has no `load` or `dump`, so every YAML call throws a TypeError | switching the selector to YAML with data `{"a": 1}`: `formatData` throws "Invalid YAML format: jsYaml.dump is not a function", and the selector reverts to JSON | `jsyaml.load` and `jsyaml.dump` from the loaded library, so JSON converts to YAML and YAML text parses | medium, not executed | Client.YamlUnreachableAsWritten | Client.ConvertsBetweenFormats |
