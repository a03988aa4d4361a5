/** The Flask service: the template table and simple renderer of `app.py`,
    the style dispatch, the generate handler with its validation and
    defaults, the download handler and the templates listing. */
module Backend {
  import opened PyValue
  import opened Certificate
  import CertificateTemplates

  // ---- the template table ----

  /** An entry of `CERTIFICATE_TEMPLATES`. */
  datatype Template = Template(title: string, subtitle: string, background: Color, border: Color, text: Color)

  /** The keys of `CERTIFICATE_TEMPLATES` in insertion order. */
  const TemplateKeys: seq<string> := ["volunteer", "achievement", "participation"]

  const Templates: map<string, Template> := map[
    "volunteer" := Template("Certificate of Appreciation", "Volunteer Service", LightBlue, DarkBlue, Black),
    "achievement" := Template("Certificate of Achievement", "Outstanding Performance", LightYellow, DarkGoldenrod, Black),
    "participation" := Template("Certificate of Participation", "Event Participation", LightGreen, DarkGreen, Black)
  ]

  /** `CERTIFICATE_TEMPLATES.get(template_type, CERTIFICATE_TEMPLATES['volunteer'])` */
  function TemplateFor(templateType: Value): (t: Template)
    ensures templateType.Str? && templateType.s in Templates ==> t == Templates[templateType.s]
    ensures !(templateType.Str? && templateType.s in Templates) ==> t == Templates["volunteer"]
    ensures t in Templates.Values
  {
    if templateType.Str? && templateType.s in Templates then Templates[templateType.s]
    else Templates["volunteer"]
  }

  // ---- the simple renderer ----

  const SimpleLead := "\n    This is to certify that "

  function SimpleAfterName(duration: string): string {
    " has successfully completed \n    " + duration + " hours of volunteer service.\n    "
  }

  /** The first triple-quoted literal, with the name and duration interpolated. */
  function SimpleOpeningText(name: string, duration: string): string {
    SimpleLead + Bold(name) + SimpleAfterName(duration)
  }

  function SimpleOrganizationText(organization: string): string {
    "<br/>Organization: " + organization
  }

  function SimpleProjectText(project: string): string {
    "<br/>Project: " + project
  }

  /** The closing triple-quoted literal with the date and the certificate ID. */
  function SimpleClosingText(today: string, certId: string): string {
    "\n    <br/><br/>\n    Date: " + today + "\n    <br/>\n    Certificate ID: " + certId + "\n    "
  }

  /** The fragments of the simple body, in the order they are added. */
  function SimpleParts(data: map<string, Value>, d: Draws): seq<Part>
    requires "name" in data && "duration" in data
  {
    [SimpleOpening(data)]
    + Optional(Truthy(Lookup(data, "organization")), SimpleOrganization(data))
    + Optional(Truthy(Lookup(data, "project")), SimpleProject(data))
    + [SimpleClosing(d)]
  }

  function SimpleOpening(data: map<string, Value>): Part
    requires "name" in data && "duration" in data
  {
    Part(Opening, SimpleOpeningText(PyStr(data["name"]), PyStr(data["duration"])))
  }

  function SimpleOrganization(data: map<string, Value>): Part {
    Part(OrganizationLine, SimpleOrganizationText(PyStr(Lookup(data, "organization"))))
  }

  function SimpleProject(data: map<string, Value>): Part {
    Part(ProjectLine, SimpleProjectText(PyStr(Lookup(data, "project"))))
  }

  function SimpleClosing(d: Draws): Part {
    Part(DateAndId, SimpleClosingText(d.today, Upper(d.idHex)))
  }

  /** The simple body is its fragments' texts, one after the other. */
  lemma SimpleBodyText(data: map<string, Value>, d: Draws)
    requires "name" in data && "duration" in data
    ensures Concat(SimpleParts(data, d)) ==
            SimpleOpening(data).text
            + OptionalText(Truthy(Lookup(data, "organization")), SimpleOrganization(data))
            + OptionalText(Truthy(Lookup(data, "project")), SimpleProject(data))
            + SimpleClosing(d).text
  {
    var a := [SimpleOpening(data)];
    var b := Optional(Truthy(Lookup(data, "organization")), SimpleOrganization(data));
    var c := Optional(Truthy(Lookup(data, "project")), SimpleProject(data));
    var e := [SimpleClosing(d)];
    ConcatJoin(a + b + c, e);
    ConcatJoin(a + b, c);
    ConcatJoin(a, b);
    ConcatOptional(Truthy(Lookup(data, "organization")), SimpleOrganization(data));
    ConcatOptional(Truthy(Lookup(data, "project")), SimpleProject(data));
    ConcatOptional(true, SimpleOpening(data));
    ConcatOptional(true, SimpleClosing(d));
  }

  /** What `generate_simple_certificate(user_data, template_type)` returns and builds. */
  function SimpleCertificate(data: map<string, Value>, templateType: Value, d: Draws): (r: Rendered)
    requires "name" in data && "duration" in data
    ensures RendererOf(r.filename) == Some(SimpleRenderer)
    ensures |r.story| == 4 && r.story[3] == Para(Concat(SimpleParts(data, d)), CustomBody)
  {
    RendererOfPath(SimpleRenderer, d.fileHex);
    var t := TemplateFor(templateType);
    Rendered(CertificatePath(SimpleRenderer, d.fileHex),
             [Para(t.title, CustomTitle), Para(t.subtitle, CustomSubtitle), Spacer(1, 40),
              Para(Concat(SimpleParts(data, d)), CustomBody)])
  }

  /** `generate_simple_certificate`, statement by statement. */
  method CreateSimpleCertificate(data: map<string, Value>, templateType: Value, d: Draws)
    returns (filename: string, story: seq<Block>)
    requires "name" in data && "duration" in data
    ensures Rendered(filename, story) == SimpleCertificate(data, templateType, d)
  {
    filename := Directory + "certificate_" + d.fileHex + ".pdf";
    var template := TemplateFor(templateType);
    story := [];
    story := story + [Para(template.title, CustomTitle)];
    story := story + [Para(template.subtitle, CustomSubtitle)];
    story := story + [Spacer(1, 40)];
    assert story == [Para(template.title, CustomTitle), Para(template.subtitle, CustomSubtitle), Spacer(1, 40)];
    var certificateText := BuildSimpleText(data, d);
    story := story + [Para(certificateText, CustomBody)];
  }

  /** The statements of `generate_simple_certificate` that assemble
      `certificate_text`: they build exactly the simple body. */
  method BuildSimpleText(data: map<string, Value>, d: Draws) returns (certificateText: string)
    requires "name" in data && "duration" in data
    ensures certificateText == Concat(SimpleParts(data, d))
  {
    ghost var withOrg, withProject := Truthy(Lookup(data, "organization")), Truthy(Lookup(data, "project"));
    certificateText := SimpleOpeningText(PyStr(data["name"]), PyStr(data["duration"]));
    ghost var text0 := certificateText;
    if Truthy(Lookup(data, "organization")) {
      certificateText := certificateText + SimpleOrganizationText(PyStr(data["organization"]));
    }
    assert certificateText == text0 + OptionalText(withOrg, SimpleOrganization(data));
    ghost var text1 := certificateText;
    if Truthy(Lookup(data, "project")) {
      certificateText := certificateText + SimpleProjectText(PyStr(data["project"]));
    }
    assert certificateText == text1 + OptionalText(withProject, SimpleProject(data));
    certificateText := certificateText + SimpleClosingText(d.today, Upper(d.idHex));
    SimpleBodyText(data, d);
  }

  /** The simple body: the opening first, an Organization line exactly when
      `organization` is truthy, a Project line exactly when `project` is
      truthy and always after it, and the date and ID last. */
  lemma SimplePartsOrder(data: map<string, Value>, d: Draws)
    requires "name" in data && "duration" in data
    ensures var ps := SimpleParts(data, d);
            InCanonicalOrder(ps) && ps[0].kind == Opening &&
            (HasKind(ps, OrganizationLine) <==> Truthy(Lookup(data, "organization"))) &&
            (HasKind(ps, ProjectLine) <==> Truthy(Lookup(data, "project"))) &&
            ps[|ps| - 1] == SimpleClosing(d) &&
            !HasKind(ps, DateLine)
  {
    var ps := SimpleParts(data, d);
    var o := Truthy(Lookup(data, "organization"));
    var p := Truthy(Lookup(data, "project"));
    if o { assert ps[1] == SimpleOrganization(data); }
    if p { assert ps[if o then 2 else 1] == SimpleProject(data); }
  }

  /** The simple body opens with the name, verbatim, in bold, and ends with
      the date and the upper-cased certificate ID. */
  lemma SimpleBodyEnds(data: map<string, Value>, d: Draws)
    requires "name" in data && "duration" in data
    requires WellFormed(d)
    ensures var body := Concat(SimpleParts(data, d));
            var bold := Bold(PyStr(data["name"]));
            var tail := SimpleClosingText(d.today, Upper(d.idHex));
            |SimpleLead| + |bold| <= |body| &&
            body[|SimpleLead|..|SimpleLead| + |bold|] == bold &&
            |tail| <= |body| && body[|body| - |tail|..] == tail &&
            IsUpperHex8(Upper(d.idHex))
  {
    var ps := SimpleParts(data, d);
    ConcatStartsWith(ps);
    ConcatEndsWith(ps);
    var bold := Bold(PyStr(data["name"]));
    SliceOfConcat(SimpleLead, bold, SimpleAfterName(PyStr(data["duration"])));
    PrefixSlice(ps[0].text, Concat(ps), |SimpleLead|, |SimpleLead| + |bold|);
    UpperOfHex(d.idHex);
  }

  /** The simple story is the selected template's title and subtitle, a
      spacer and the body; an unknown template type gives the volunteer
      entry. */
  lemma SimpleStoryLayout(data: map<string, Value>, templateType: Value, d: Draws)
    requires "name" in data && "duration" in data
    ensures var r := SimpleCertificate(data, templateType, d);
            var t := TemplateFor(templateType);
            r.story == [Para(t.title, CustomTitle), Para(t.subtitle, CustomSubtitle), Spacer(1, 40),
                        Para(Concat(SimpleParts(data, d)), CustomBody)]
    ensures !(templateType.Str? && templateType.s in TemplateKeys) ==>
              SimpleCertificate(data, templateType, d).story[0] == Para("Certificate of Appreciation", CustomTitle)
  {
  }

  // ---- dispatch ----

  /** The renderer `generate_certificate_pdf` calls for a style. */
  function SelectRenderer(style: Value): (r: Renderer)
    ensures r == AdvancedRenderer <==> style == Str("advanced")
    ensures r == MinimalRenderer <==> style == Str("minimal")
    ensures r == SimpleRenderer <==> style != Str("advanced") && style != Str("minimal")
  {
    if style == Str("advanced") then AdvancedRenderer
    else if style == Str("minimal") then MinimalRenderer
    else SimpleRenderer
  }

  /** `generate_certificate_pdf(user_data, template_type, style)` */
  function GenerateCertificatePdf(data: map<string, Value>, templateType: Value, style: Value, d: Draws): (r: Rendered)
    requires "name" in data && "duration" in data
    ensures r.filename == CertificatePath(SelectRenderer(style), d.fileHex)
    ensures RendererOf(r.filename) == Some(SelectRenderer(style))
    ensures SelectRenderer(style) == AdvancedRenderer ==> r == CertificateTemplates.AdvancedCertificate(data, templateType, d)
    ensures SelectRenderer(style) == MinimalRenderer ==> r == CertificateTemplates.MinimalCertificate(data, templateType, d)
    ensures SelectRenderer(style) == SimpleRenderer ==> r == SimpleCertificate(data, templateType, d)
  {
    RendererOfPath(SelectRenderer(style), d.fileHex);
    if style == Str("advanced") then CertificateTemplates.AdvancedCertificate(data, templateType, d)
    else if style == Str("minimal") then CertificateTemplates.MinimalCertificate(data, templateType, d)
    else SimpleCertificate(data, templateType, d)
  }

  // ---- POST /api/generate-certificate ----

  /** A Flask reply: the JSON of a generated certificate, a file sent as an
      attachment, or an error JSON with its status code. */
  datatype Reply =
    | Generated(filename: string, message: string)
    | Attachment(path: string)
    | Failure(status: int, error: string)

  const RequiredFields: seq<string> := ["name", "duration"]
  const GeneratedMessage := "Certificate generated successfully"

  /** `f'Missing required field: {field}'` */
  function MissingFieldError(field: string): string {
    "Missing required field: " + field
  }

  /** `field not in data or not data[field]` */
  predicate Missing(data: map<string, Value>, field: string)
    ensures Missing(data, field) <==> !Truthy(Lookup(data, field))
  {
    field !in data || !Truthy(data[field])
  }

  /** The first of `fields` that is absent or falsy. */
  function FirstMissing(data: map<string, Value>, fields: seq<string>): (r: Option<string>)
    ensures r.None? <==> forall i :: 0 <= i < |fields| ==> !Missing(data, fields[i])
    ensures r.Some? ==> exists i :: 0 <= i < |fields| && fields[i] == r.value && Missing(data, r.value) &&
                                  forall j :: 0 <= j < i ==> !Missing(data, fields[j])
  {
    if fields == [] then None
    else if Missing(data, fields[0]) then Some(fields[0])
    else
      var r := FirstMissing(data, fields[1..]);
      assert r.Some? ==> exists i :: 1 <= i < |fields| && fields[i] == r.value &&
                                     forall j :: 0 <= j < i ==> !Missing(data, fields[j]);
      r
  }

  /** A missing field with no missing field before it is the one reported. */
  lemma {:induction false} FirstMissingAt(data: map<string, Value>, fields: seq<string>, k: nat)
    requires k < |fields| && Missing(data, fields[k])
    requires forall j :: 0 <= j < k ==> !Missing(data, fields[j])
    ensures FirstMissing(data, fields) == Some(fields[k])
  {
    if k > 0 {
      FirstMissingAt(data, fields[1..], k - 1);
    }
  }

  /** `data.get('template_type', 'volunteer')` */
  function TemplateTypeOf(data: map<string, Value>): (v: Value)
    ensures "template_type" !in data ==> v == Str("volunteer")
    ensures "template_type" in data ==> v == data["template_type"]
  {
    GetOr(data, "template_type", Str("volunteer"))
  }

  /** `data.get('style', 'advanced')` */
  function StyleOf(data: map<string, Value>): (v: Value)
    ensures "style" !in data ==> v == Str("advanced")
    ensures "style" in data ==> v == data["style"]
  {
    GetOr(data, "style", Str("advanced"))
  }

  /** What `generate_certificate` answers for a request body. */
  function HandleGenerate(data: map<string, Value>, d: Draws): (r: Reply)
    ensures Missing(data, "name") ==> r == Failure(400, MissingFieldError("name"))
    ensures !Missing(data, "name") && Missing(data, "duration") ==>
              r == Failure(400, MissingFieldError("duration"))
    ensures !Missing(data, "name") && !Missing(data, "duration") ==>
              r == Generated(GenerateCertificatePdf(data, TemplateTypeOf(data), StyleOf(data), d).filename,
                             GeneratedMessage)
  {
    if Missing(data, "name") then
      FirstMissingAt(data, RequiredFields, 0);
      Failure(400, MissingFieldError(FirstMissing(data, RequiredFields).value))
    else if Missing(data, "duration") then
      FirstMissingAt(data, RequiredFields, 1);
      Failure(400, MissingFieldError(FirstMissing(data, RequiredFields).value))
    else
      assert FirstMissing(data, RequiredFields).None?;
      assert !Missing(data, RequiredFields[0]) && !Missing(data, RequiredFields[1]);
      Generated(GenerateCertificatePdf(data, TemplateTypeOf(data), StyleOf(data), d).filename, GeneratedMessage)
  }

  /** The certificate `generate_certificate` renders for a request body:
      none when it answers 400, which it does before calling any renderer;
      otherwise the one `generate_certificate_pdf` makes with the defaulted
      template type and style, whose path is the one the reply carries. */
  function RenderedFor(data: map<string, Value>, d: Draws): (o: Option<Rendered>)
    ensures o.None? <==> HandleGenerate(data, d).Failure?
    ensures o.Some? ==> "name" in data && "duration" in data &&
                        o.value == GenerateCertificatePdf(data, TemplateTypeOf(data), StyleOf(data), d) &&
                        HandleGenerate(data, d) == Generated(o.value.filename, GeneratedMessage)
  {
    if Missing(data, "name") || Missing(data, "duration") then None
    else Some(GenerateCertificatePdf(data, TemplateTypeOf(data), StyleOf(data), d))
  }

  /** `generate_certificate`: the for loop over the required fields with its
      early return, then the defaults, the dispatch and the envelope. The
      second result is what the renderer it calls produces, if it calls one. */
  method GenerateCertificate(data: map<string, Value>, d: Draws) returns (r: Reply, rendered: Option<Rendered>)
    ensures r == HandleGenerate(data, d)
    ensures rendered == RenderedFor(data, d)
  {
    var requiredFields := RequiredFields;
    for i := 0 to |requiredFields|
      invariant forall j :: 0 <= j < i ==> !Missing(data, requiredFields[j])
    {
      var field := requiredFields[i];
      if field !in data || !Truthy(data[field]) {
        FirstMissingAt(data, requiredFields, i);
        return Failure(400, MissingFieldError(field)), None;
      }
    }
    assert !Missing(data, requiredFields[0]) && !Missing(data, requiredFields[1]);
    var templateType := GetOr(data, "template_type", Str("volunteer"));
    var style := GetOr(data, "style", Str("advanced"));
    var pdf := GenerateCertificatePdf(data, templateType, style, d);
    return Generated(pdf.filename, GeneratedMessage), Some(pdf);
  }

  /** Without a `style` key the advanced renderer is used; a present style,
      even an unrecognised one, is passed on. */
  lemma GenerateDefaults(data: map<string, Value>, d: Draws)
    requires !Missing(data, "name") && !Missing(data, "duration")
    ensures "style" !in data ==> RendererOf(HandleGenerate(data, d).filename) == Some(AdvancedRenderer)
    ensures "style" in data ==> RendererOf(HandleGenerate(data, d).filename) == Some(SelectRenderer(data["style"]))
    ensures RenderedFor(data, d).Some?
  {
  }

  /** Without a `template_type` key the renderer is handed `volunteer`: the
      advanced story is titled with the advanced volunteer entry and the
      simple story with the simple one. */
  lemma DefaultTemplateTitles(data: map<string, Value>, d: Draws)
    requires !Missing(data, "name") && !Missing(data, "duration") && "template_type" !in data
    ensures SelectRenderer(StyleOf(data)) == AdvancedRenderer ==>
              |RenderedFor(data, d).value.story| > 1 &&
              RenderedFor(data, d).value.story[1] == Para("CERTIFICATE OF APPRECIATION", CertificateTitle)
    ensures SelectRenderer(StyleOf(data)) == SimpleRenderer ==>
              RenderedFor(data, d).value.story != [] &&
              RenderedFor(data, d).value.story[0] == Para("Certificate of Appreciation", CustomTitle)
  {
    var r := SelectRenderer(StyleOf(data));
    if r == AdvancedRenderer {
      VolunteerAdvancedTitle(data, d);
    } else if r == SimpleRenderer {
      VolunteerSimpleTitle(data, d);
    }
  }

  lemma VolunteerAdvancedTitle(data: map<string, Value>, d: Draws)
    requires "name" in data && "duration" in data
    ensures CertificateTemplates.AdvancedCertificate(data, Str("volunteer"), d).story[1] ==
            Para("CERTIFICATE OF APPRECIATION", CertificateTitle)
  {
    assert CertificateTemplates.AdvancedTemplateFor(Str("volunteer")).title == "CERTIFICATE OF APPRECIATION";
  }

  lemma VolunteerSimpleTitle(data: map<string, Value>, d: Draws)
    requires "name" in data && "duration" in data
    ensures SimpleCertificate(data, Str("volunteer"), d).story[0] == Para("Certificate of Appreciation", CustomTitle)
  {
    assert TemplateFor(Str("volunteer")).title == "Certificate of Appreciation";
  }

  // ---- GET /api/download-certificate/<filename> ----

  /** `download_certificate(filename)`, against the set of paths that exist. */
  function DownloadCertificate(filename: string, existing: set<string>): (r: Reply)
    ensures r.Attachment? <==> Directory + filename in existing
    ensures r.Attachment? ==> r.path == Directory + filename
    ensures !r.Attachment? ==> r == Failure(404, "Certificate not found")
  {
    var filePath := Directory + filename;
    if filePath in existing then Attachment(filePath) else Failure(404, "Certificate not found")
  }

  // ---- GET /api/templates ----

  datatype TemplatesPayload = TemplatesPayload(templates: seq<string>, details: map<string, Template>, styles: seq<string>)

  /** `get_templates()` */
  function GetTemplates(): (p: TemplatesPayload)
    ensures p.details == Templates
    ensures p.templates == ["volunteer", "achievement", "participation"]
    ensures forall k :: k in p.templates <==> k in p.details
    ensures forall i, j :: 0 <= i < j < |p.templates| ==> p.templates[i] != p.templates[j]
    ensures p.styles == ["advanced", "minimal", "simple"]
    ensures forall i, j :: 0 <= i < j < |p.styles| ==>
              SelectRenderer(Str(p.styles[i])) != SelectRenderer(Str(p.styles[j]))
  {
    TemplatesPayload(TemplateKeys, Templates, ["advanced", "minimal", "simple"])
  }
}
