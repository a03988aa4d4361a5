# Certificate generator, modelled in Dafny

The certificate generator is a small web application for printing
volunteer certificates. A Flask backend receives a JSON form, checks its
required fields and fills in defaults. It then chooses one of three
renderers (advanced, minimal, simple), and each renderer lays out a PDF
"story" of spacers and paragraphs under a random file name. The backend
also serves generated files back by name and lists its templates and
styles. A React component keeps the form state, validates it before
posting, stores the returned file name and derives the name the browser
saves the download under.

This project models:

- the request as a map from keys to scalar values (`PyValue`), with
  Python's truthiness, `dict.get` and f-string formatting;
- each renderer twice. A method mirrors the source statement by statement:
  `story.append` becomes appending to a `seq<Block>`, and `certificate_text
  +=` under `if` becomes string concatenation. A function states what the
  method returns and builds. The body text is also described as a
  sequence of fragments (opening, organization, project, date), so lemmas
  can state which lines are present, when, and in what order;
- the request handler, with its loop over the required fields and its
  early return, the defaults and the dispatch; the download route against
  an abstract set of existing paths; and the templates listing;
- the React component as a class whose fields are its state and whose
  methods are its handlers, together with the JavaScript string
  operations it uses (`trim`, `split('/').pop()`, `replace(/\s+/g, '_')`);
- in `EndToEnd`, the two halves together. A form the client accepts
  passes the server's required-field check (a renderer that raises still
  makes the server answer 500, which is not modelled), the server accepts
  strictly more than the
  client, and a returned file name leads the download route back to the
  generated file. A whole browser session ends in a successful download.

The random parts of a rendering (`uuid4().hex[:8]`, drawn once for the
file name and, in the simple and advanced renderers, once more for the
certificate ID) and the
formatted date are inputs (`Certificate.Draws`). Lemmas that need it
assume the two hex strings are eight lower-case hexadecimal digits, as
`uuid4().hex[:8]` produces.

Files: `pyvalue.dfy` (module `PyValue`), `certificate.dfy` (`Certificate`:
blocks, fragments, paths), `certificate_templates.dfy`
(`CertificateTemplates`), `app.dfy` (`Backend`), `app_js.dfy`
(`Frontend`), `end_to_end.dfy` (`EndToEnd`).

## Model

| member | source | states |
|---|---|---|
| PyValue.Lookup | backend/app.py:115 | `data.get(key)` is the stored value when the key is present and `None` otherwise |
| PyValue.GetOr | backend/app.py:148-149 | `data.get(key, default)` is the stored value when the key is present and the default otherwise |
| PyValue.FalsyValues | backend/app.py:144 | Python's truth test fails exactly on `""`, `0`, `False` and `None` (also used at app.py:115 and 118, certificate_templates.py:125 and 190) |
| PyValue.NatToString | backend/app.py:111-112 | the decimal text of a number that an f-string inserts is non-empty, all digits and has no leading zero |
| PyValue.DecimalRoundTrip | backend/app.py:111-112 | reading back the decimal text of a number gives the number |
| PyValue.IntToStringDigits | backend/app.py:111-112 | `str(i)` of a non-negative integer is decimal digits that read back as it; of a negative one, `-` followed by the decimal text of its magnitude, which reads back as the magnitude |
| PyValue.PyStrText | backend/app.py:111-119 | an f-string inserts a string value verbatim, a non-negative integer as decimal text that reads back as it, and a non-string value never as empty text |
| PyValue.Upper | backend/app.py:125 | `upper()` keeps the length and upper-cases each character |
| PyValue.UpperOfHex | backend/certificate_templates.py:133 | an upper-cased `uuid4().hex[:8]` is eight upper-case hexadecimal digits |
| Certificate.ConcatJoin | backend/app.py:110-126 | the text of two runs of `+=` fragments is the two texts joined |
| Certificate.ConcatOptional | backend/app.py:115-119 | a fragment added under an `if` contributes its text exactly when the test holds |
| Certificate.ConcatStartsWith | backend/app.py:110-113 | the body text starts with its first fragment |
| Certificate.ConcatEndsWith | backend/app.py:121-126 | the body text ends with its last fragment |
| Certificate.RendererOf | backend/app.py:64 | the renderer read off a path's prefix is one whose prefix the path starts with; none when no prefix matches (the other two prefixes are written at backend/certificate_templates.py lines 46 and 151) |
| Certificate.RendererOfPath | backend/certificate_templates.py:46 | every generated path, whatever its suffix, names the renderer that made it |
| Certificate.PathInjective | backend/app.py:64 | two different suffixes give two different paths, so two renderings whose suffixes differ never share a file |
| Certificate.PathTail | backend/certificate_templates.py:151 | a path from a hex suffix is `certificates/` followed by a name containing no `/` |
| CertificateTemplates.AdvancedTemplateFor | backend/certificate_templates.py:16-43 | a known template key gives its own entry and any other value gives the `volunteer` entry |
| CertificateTemplates.AdvancedBodyText | backend/certificate_templates.py:116-126 | the advanced body is the opening, the Organization line and, when `project` is truthy, the Project line, in that order |
| CertificateTemplates.AdvancedCertificate | backend/certificate_templates.py:43-146 | the advanced renderer returns a path that reads back as the advanced renderer and a nine-block story whose fourth block is the body |
| CertificateTemplates.CreateAdvancedCertificate | backend/certificate_templates.py:43-146 | the statement-by-statement renderer returns the `advanced_certificate_` path and builds exactly the advanced story |
| CertificateTemplates.AdvancedPartsOrder | backend/certificate_templates.py:116-126 | the advanced body always has an Organization line, has a Project line exactly when `project` is truthy and after it, and has no date |
| CertificateTemplates.AdvancedOrganizationLine | backend/certificate_templates.py:121-123 | the organization defaults to "Akshar Paul NGO Pune" only when the key is absent; a present empty value prints an empty bold name |
| CertificateTemplates.AdvancedBodyNamesRecipient | backend/certificate_templates.py:116-119 | the advanced body holds the recipient's name verbatim in bold right after its lead |
| CertificateTemplates.AdvancedStoryLayout | backend/certificate_templates.py:111-141 | the advanced story is Spacer, the template title, Spacer, Body, Spacer, Date, an ID of eight upper-case hex digits, Spacer, Signature |
| CertificateTemplates.MinimalBodyText | backend/certificate_templates.py:185-193 | the minimal body is the opening, the Organization line when `organization` is truthy, then the date |
| CertificateTemplates.MinimalCertificate | backend/certificate_templates.py:148-199 | the minimal renderer returns a path that reads back as the minimal renderer and a four-block story ending with the body |
| CertificateTemplates.CreateMinimalCertificate | backend/certificate_templates.py:148-199 | the statement-by-statement renderer returns the `minimal_certificate_` path and builds exactly the minimal story |
| CertificateTemplates.MinimalPartsOrder | backend/certificate_templates.py:185-193 | the minimal body never has a Project line, has an Organization line exactly when `organization` is truthy, and ends with the date |
| CertificateTemplates.MinimalBodyEnds | backend/certificate_templates.py:185-193 | the minimal body holds the name verbatim in bold after its lead and ends with the date text |
| CertificateTemplates.MinimalIgnoresTemplate | backend/certificate_templates.py:148-195 | the minimal certificate is the same for every template type: title "Certificate of Completion", story Spacer, Title, Spacer, Body |
| Backend.TemplateFor | backend/app.py:67 | a known template key gives its own entry and any other value gives the `volunteer` entry |
| Backend.SimpleBodyText | backend/app.py:110-126 | the simple body is the opening, the optional Organization and Project lines and the closing date and ID, in that order |
| Backend.SimpleCertificate | backend/app.py:60-128 | the simple renderer returns a path that reads back as the simple renderer and a four-block story ending with the body |
| Backend.CreateSimpleCertificate | backend/app.py:60-133 | the statement-by-statement renderer returns the `certificate_` path and builds exactly the simple story |
| Backend.BuildSimpleText | backend/app.py:109-126 | the statements that assemble `certificate_text` build exactly the simple body |
| Backend.SimplePartsOrder | backend/app.py:110-126 | the simple body has an Organization line exactly when `organization` is truthy, then a Project line exactly when `project` is truthy, and ends with the date and ID |
| Backend.SimpleBodyEnds | backend/app.py:110-126 | the simple body holds the name verbatim in bold and ends with the date and an ID of eight upper-case hex digits |
| Backend.SimpleStoryLayout | backend/app.py:105-128 | the simple story is the template's title, its subtitle, a spacer and the body; an unknown template gives the volunteer title |
| Backend.SelectRenderer | backend/app.py:52-58 | `advanced` selects the advanced renderer, `minimal` the minimal one, and every other value the simple one |
| Backend.GenerateCertificatePdf | backend/app.py:49-58 | the dispatch returns the selected renderer's result, whose path is that renderer's |
| Backend.FirstMissing | backend/app.py:142-145 | the reported field is absent or falsy and every field before it is present and truthy; none is reported only when all are present and truthy |
| Backend.Missing | backend/app.py:144 | `field not in data or not data[field]` holds exactly when `data.get(field)` is falsy |
| Backend.FirstMissingAt | backend/app.py:143-145 | a missing field with no missing field before it is the one reported |
| Backend.HandleGenerate | backend/app.py:136-158 | a missing name is a 400 naming `name`; otherwise a missing duration is a 400 naming `duration`; otherwise the reply carries the renderer's path and the fixed message |
| Backend.TemplateTypeOf | backend/app.py:148 | an absent `template_type` is `volunteer`; a present one is passed on unchanged |
| Backend.StyleOf | backend/app.py:149 | an absent `style` is `advanced`; a present one is passed on unchanged |
| Backend.RenderedFor | backend/app.py:142-152 | a request answered with 400 calls no renderer; otherwise the renderer chosen for the defaulted style renders with the defaulted template type, and the reply carries its path |
| Backend.GenerateCertificate | backend/app.py:142-158 | the loop over the required fields with its early return answers what `HandleGenerate` specifies, and renders exactly what `RenderedFor` specifies: nothing on a 400 |
| Backend.GenerateDefaults | backend/app.py:149-152 | an absent style gives the advanced renderer, a present style is passed on, and a request with both required fields is rendered |
| Backend.DefaultTemplateTitles | backend/app.py:148-152 | an absent template type makes the advanced story titled "CERTIFICATE OF APPRECIATION" and the simple story "Certificate of Appreciation", the volunteer entries |
| Backend.DownloadCertificate | backend/app.py:164-171 | the file is sent exactly when `certificates/` + name exists; otherwise the reply is 404 "Certificate not found" |
| Backend.GetTemplates | backend/app.py:176-182 | in the payload handed to `jsonify`, the template keys are listed once each in table order, and the three styles listed select three different renderers |
| Frontend.Trim | frontend/src/App.js:55-60 | `trim()` yields the empty string exactly when the text is all whitespace |
| Frontend.TrimStartSlice | frontend/src/App.js:55 | `trimStart` removes a whitespace prefix and stops at a non-space |
| Frontend.TrimEndSlice | frontend/src/App.js:55 | `trimEnd` removes a whitespace suffix and stops at a non-space |
| Frontend.TrimBlank | frontend/src/App.js:55-60 | trimming leaves nothing exactly when the text is all whitespace |
| Frontend.TrimSlice | frontend/src/App.js:55-60 | `trim()` keeps the slice between the leading and trailing whitespace, which starts and ends with a non-space |
| Frontend.IsNaN | frontend/src/App.js:65 | an all-whitespace duration is not NaN, as `isNaN("  ")` is false in JavaScript |
| Frontend.ParseIntOfDecimal | frontend/src/App.js:65 | a number written in decimal is not NaN, and the model's `ParseInt` reads it back |
| Frontend.LastSegment | frontend/src/App.js:104 | `split('/').pop()` is a suffix with no `/`, preceded by a `/` when shorter than the text |
| Frontend.LastSegmentOfPath | frontend/src/App.js:104 | the last segment of a directory path followed by a name without `/` is that name |
| Frontend.ReplaceSpaceRuns | frontend/src/App.js:111 | `replace(/\s+/g, '_')` leaves no whitespace and does not lengthen the text |
| Frontend.ReplaceSpaceRunsLetters | frontend/src/App.js:111 | the replacement keeps every character other than whitespace and `_`, in order, and adds none |
| Frontend.LettersOfTrimStart | frontend/src/App.js:111 | swallowing the rest of a whitespace run drops no other character |
| Frontend.ReplaceSpaceRunsPrefix | frontend/src/App.js:111 | a leading word without whitespace is copied unchanged |
| Frontend.ReplaceSpaceRunsRun | frontend/src/App.js:111 | a maximal leading whitespace run becomes exactly one `_` |
| Frontend.ReplaceSpaceRunsStep | frontend/src/App.js:111 | a word and the maximal whitespace run after it become the word and one `_`, then the rest is replaced; with the two lemmas above this fixes the result on every string |
| Frontend.ReplaceSpaceRunsKeeps | frontend/src/App.js:111 | text without whitespace is unchanged |
| Frontend.ReplaceSpaceRunsJoins | frontend/src/App.js:111 | a run of whitespace between two words becomes one `_` |
| Frontend.SavedName | frontend/src/App.js:111 | the saved name has no whitespace |
| Frontend.SavedNameKeeps | frontend/src/App.js:111 | a name without whitespace is saved as `certificate_` + name + `.pdf` |
| Frontend.SavedNameLetters | frontend/src/App.js:111 | every saved name is `certificate_`, then the name's characters other than whitespace and `_` in order, then `.pdf` |
| Frontend.SavedNameStep | frontend/src/App.js:111 | the saved name of a word, a whitespace run and a rest is `certificate_` + word + `_` + the replaced rest + `.pdf` |
| Frontend.SavedNameTwoWords | frontend/src/App.js:111 | two words around a whitespace run are saved as `certificate_` + first + `_` + second + `.pdf` |
| Frontend.SavedNameThreeWords | frontend/src/App.js:111 | three words around two whitespace runs of any length are joined by single underscores |
| Frontend.WithField | frontend/src/App.js:40-43 | the updated record has the new value in the named field and every other field unchanged |
| Frontend.Validate | frontend/src/App.js:54-70 | a blank name gives "Name is required"; then a blank duration "Duration is required"; then the duration is accepted exactly when it is a positive decimal number |
| Frontend.RequestBody | frontend/src/App.js:80-84 | the posted body holds each form field under its own key, plus `template_type` and `style` |
| Frontend.App.constructor | frontend/src/App.js:6-22 | the initial state: empty fields except organization "Akshar Paul NGO Pune", `volunteer`, `advanced`, no message, no file |
| Frontend.App.HandleInputChange | frontend/src/App.js:38-44 | the named field takes the value and every other field is unchanged |
| Frontend.App.HandleTemplateSelect | frontend/src/App.js:46-48 | the selected template becomes the given one |
| Frontend.App.HandleStyleSelect | frontend/src/App.js:50-52 | the selected style becomes the given one |
| Frontend.App.ValidateForm | frontend/src/App.js:54-71 | returns true exactly when `Validate` finds nothing; on failure sets its message and type `error`, on success changes nothing |
| Frontend.App.GenerateCertificate | frontend/src/App.js:73-98 | an invalid form sends nothing and keeps the stored file; a valid one posts the form and stores the returned file name with the success message, or shows the server's error; a reply that is neither only clears the message |
| Frontend.App.DownloadCertificate | frontend/src/App.js:100-121 | without a stored file nothing happens; otherwise the last path segment is requested and, when found, saved as `SavedName` of the name, else an error is shown |
| Frontend.App.ResetForm | frontend/src/App.js:123-137 | every field is emptied, organization included, so the reset state differs from the initial one; selections, file and message are cleared |
| EndToEnd.ValidFormIsGenerated | frontend/src/App.js:54-84 | a form the client accepts always passes the server's required-field check, and the style chosen selects the renderer |
| EndToEnd.ServerRejectionImpliesClientRejection | backend/app.py:142-145 | whatever the server refuses for a missing field, the client has refused already |
| EndToEnd.BlankNameAcceptedByServer | backend/app.py:144 | a name of two spaces is refused by the client but accepted by the server, which does not trim |
| EndToEnd.PathDownloads | frontend/src/App.js:104 | the last segment of a generated path leads the download route back to that path |
| EndToEnd.GeneratedFileDownloads | backend/app.py:152-171 | the file name a successful generation returns can be downloaded by the segment the client derives from it |
| EndToEnd.FormOrganizationReachesBody | backend/certificate_templates.py:121-123 | the client always sends `organization`, so the server's default never applies: the initial form prints "Akshar Paul NGO Pune" and a reset form an empty name |
| EndToEnd.Session | frontend/src/App.js:38-121 | typing an accepted name and duration, generating with the defaults and downloading yields an advanced certificate saved under `SavedName` of the name |
| EndToEnd.JaneDoeSession | frontend/src/App.js:111 | "Jane Doe" with "10" hours is accepted and saved as `certificate_Jane_Doe.pdf` |

## Left out

- ReportLab layout: fonts, sizes, colours, alignment and leading of the paragraph styles are reduced to a style tag on each block. The border `Table` the advanced renderer builds but never adds to its story, page sizes and `doc.build` are also left out; the PDF bytes are not part of the model.
- The advanced template's subtitle, border, accent, text and background colours are kept in its table, but only the title reaches the advanced story, as in the source.
- `uuid.uuid4()` and `datetime.now().strftime('%B %d, %Y')` are inputs (`Draws`). The date format itself is not modelled.
- EndToEnd.ValidFormIsGenerated: speaks of the required-field check only. A renderer can still raise, for instance when ReportLab's `Paragraph` cannot parse markup that a name such as `x</b>` puts into the body, and the handler then answers 500. Paragraph markup parsing is not modelled.
- Flask and HTTP: routing, CORS, `os.makedirs`, JSON parsing, a body that is not a JSON object, and the generic handler that turns an exception into a 500.
- JSON values other than strings, integers, booleans and null (floats, lists, objects). `str()` of those would differ.
- `str.upper` is modelled on ASCII letters only. Other letters are left as they are, which covers the hexadecimal IDs it is applied to.
- The health endpoint, which returns a constant.
- React rendering, `useEffect`/`fetchTemplates`, the `templates`/`styles` lists and the `loading` flag, the `templateInfo`/`styleInfo` display tables, and the Blob, URL and DOM mechanics of the download.
- axios: the server's reply to the posted form is a parameter of `Frontend.App.GenerateCertificate`. The download asks `Backend.DownloadCertificate` directly. Network failures are not modelled.
- Backend.GetTemplates: models the dictionary that `get_templates` hands to `jsonify`, not the HTTP reply. Its `template_details` is `CERTIFICATE_TEMPLATES` (backend/app.py:25-47), whose entries hold reportlab colour objects that `jsonify` cannot encode. The route has no `try`, so as written it fails while encoding and Flask answers 500 instead of this payload. The model states what the payload contains.
- Certificate.PathInjective: the suffix is a fresh 32-bit draw (`uuid4().hex[:8]`) and the model takes it as a free input, so it does not exclude two renderings drawing the same suffix. The later `doc.build` would then overwrite the earlier file.
- Frontend.ParseIntOfDecimal: JavaScript's `parseInt` yields a double, exact only below 2^53, while the model's `ParseInt` is exact on every number. Every positive digit string still parses to a value above 0, so the `<= 0` test gives the same verdict.
- Frontend.Validate: `isNaN` and `parseInt` are modelled as "the trimmed text is all decimal digits, and its value is positive". JavaScript also accepts "1.5", "+5", "0x10", "1e3" and "Infinity", which this model rejects. The string `trim` and `\s` use the ECMAScript whitespace set.
