/** The "advanced" and "minimal" renderers: each picks its strings, builds
    the body text by `+=` and the story by `append`, and returns the path of
    the file it would write. */
module CertificateTemplates {
  import opened PyValue
  import opened Certificate

  // ---- advanced ----

  /** An entry of the advanced renderer's own template table. */
  datatype AdvancedTemplate = AdvancedTemplate(
    title: string, subtitle: string,
    border: Color, accent: Color, text: Color, background: Color)

  const AdvancedTemplates: map<string, AdvancedTemplate> := map[
    "volunteer" := AdvancedTemplate("CERTIFICATE OF APPRECIATION", "Volunteer Service Recognition",
                                    DarkBlue, LightBlue, Black, White),
    "achievement" := AdvancedTemplate("CERTIFICATE OF ACHIEVEMENT", "Outstanding Performance Award",
                                      DarkBlue, LightBlue, Black, White),
    "participation" := AdvancedTemplate("CERTIFICATE OF PARTICIPATION", "Event Participation Recognition",
                                        DarkBlue, LightBlue, Black, White)
  ]

  /** `templates.get(template_type, templates['volunteer'])` */
  function AdvancedTemplateFor(templateType: Value): (t: AdvancedTemplate)
    ensures templateType.Str? && templateType.s in AdvancedTemplates ==> t == AdvancedTemplates[templateType.s]
    ensures !(templateType.Str? && templateType.s in AdvancedTemplates) ==> t == AdvancedTemplates["volunteer"]
    ensures t in AdvancedTemplates.Values
  {
    if templateType.Str? && templateType.s in AdvancedTemplates then AdvancedTemplates[templateType.s]
    else AdvancedTemplates["volunteer"]
  }

  const DefaultOrganization := "Akshar Paul NGO Pune"
  const SignatureText := "_________________________<br/>Authorized Signature"

  /** The triple-quoted opening, with the name and the duration interpolated. */
  function AdvancedOpeningText(name: string, duration: string): string {
    AdvancedLead + Bold(name) + AdvancedAfterName(duration)
  }

  const AdvancedLead := "\n    This is to certify that "

  function AdvancedAfterName(duration: string): string {
    " has successfully completed \n    <b>" + duration + " hours</b> of dedicated volunteer service.\n    "
  }

  function AdvancedOrganizationText(organization: string): string {
    "<br/><br/>Organization: " + Bold(organization)
  }

  function AdvancedProjectText(project: string): string {
    "<br/>Project: " + Bold(project)
  }

  /** `user_data.get('organization', 'Akshar Paul NGO Pune')`, formatted. */
  function AdvancedOrganization(data: map<string, Value>): string {
    PyStr(GetOr(data, "organization", Str(DefaultOrganization)))
  }

  /** The fragments of the advanced body, in the order they are added. */
  function AdvancedParts(data: map<string, Value>): seq<Part>
    requires "name" in data && "duration" in data
  {
    [AdvancedOpening(data), AdvancedOrganizationPart(data)]
    + Optional(Truthy(Lookup(data, "project")), AdvancedProject(data))
  }

  function AdvancedOpening(data: map<string, Value>): Part
    requires "name" in data && "duration" in data
  {
    Part(Opening, AdvancedOpeningText(PyStr(data["name"]), PyStr(data["duration"])))
  }

  function AdvancedOrganizationPart(data: map<string, Value>): Part {
    Part(OrganizationLine, AdvancedOrganizationText(AdvancedOrganization(data)))
  }

  function AdvancedProject(data: map<string, Value>): Part {
    Part(ProjectLine, AdvancedProjectText(PyStr(Lookup(data, "project"))))
  }

  /** The advanced body is its fragments' texts one after the other. */
  lemma AdvancedBodyText(data: map<string, Value>)
    requires "name" in data && "duration" in data
    ensures Concat(AdvancedParts(data)) ==
            AdvancedOpening(data).text + AdvancedOrganizationPart(data).text
            + OptionalText(Truthy(Lookup(data, "project")), AdvancedProject(data))
  {
    var a := [AdvancedOpening(data), AdvancedOrganizationPart(data)];
    var b := Optional(Truthy(Lookup(data, "project")), AdvancedProject(data));
    ConcatJoin(a, b);
    ConcatOptional(Truthy(Lookup(data, "project")), AdvancedProject(data));
    ConcatAppend([AdvancedOpening(data)], AdvancedOrganizationPart(data));
    ConcatOptional(true, AdvancedOpening(data));
    assert [AdvancedOpening(data)] + [AdvancedOrganizationPart(data)] == a;
  }

  /** The advanced story around its body. */
  function AdvancedStory(title: string, body: string, d: Draws): seq<Block> {
    [Spacer(1, 50), Para(title, CertificateTitle), Spacer(1, 40),
     Para(body, CertificateBody), Spacer(1, 60),
     Para("Date: " + d.today, Signature),
     Para("Certificate ID: " + Upper(d.idHex), Signature),
     Spacer(1, 40), Para(SignatureText, Signature)]
  }

  /** What `create_advanced_certificate(user_data, template_type)` returns and builds. */
  function AdvancedCertificate(data: map<string, Value>, templateType: Value, d: Draws): (r: Rendered)
    requires "name" in data && "duration" in data
    ensures RendererOf(r.filename) == Some(AdvancedRenderer)
    ensures |r.story| == 9 && r.story[3] == Para(Concat(AdvancedParts(data)), CertificateBody)
  {
    RendererOfPath(AdvancedRenderer, d.fileHex);
    Rendered(CertificatePath(AdvancedRenderer, d.fileHex),
             AdvancedStory(AdvancedTemplateFor(templateType).title, Concat(AdvancedParts(data)), d))
  }

  /** `create_advanced_certificate`, statement by statement. */
  method CreateAdvancedCertificate(data: map<string, Value>, templateType: Value, d: Draws)
    returns (filename: string, story: seq<Block>)
    requires "name" in data && "duration" in data
    ensures Rendered(filename, story) == AdvancedCertificate(data, templateType, d)
  {
    var template := AdvancedTemplateFor(templateType);
    filename := Directory + "advanced_certificate_" + d.fileHex + ".pdf";
    story := [];
    story := story + [Spacer(1, 50)];
    story := story + [Para(template.title, CertificateTitle)];
    story := story + [Spacer(1, 40)];
    assert story == [Spacer(1, 50), Para(template.title, CertificateTitle), Spacer(1, 40)];

    var certificateText := AdvancedOpeningText(PyStr(data["name"]), PyStr(data["duration"]));
    var organization := PyStr(GetOr(data, "organization", Str(DefaultOrganization)));
    certificateText := certificateText + AdvancedOrganizationText(organization);
    ghost var text0 := certificateText;
    if Truthy(Lookup(data, "project")) {
      certificateText := certificateText + AdvancedProjectText(PyStr(data["project"]));
    }
    assert certificateText == text0 + OptionalText(Truthy(Lookup(data, "project")), AdvancedProject(data));
    AdvancedBodyText(data);

    story := story + [Para(certificateText, CertificateBody)];
    story := story + [Spacer(1, 60)];
    var dateText := "Date: " + d.today;
    var certId := "Certificate ID: " + Upper(d.idHex);
    story := story + [Para(dateText, Signature)];
    story := story + [Para(certId, Signature)];
    story := story + [Spacer(1, 40)];
    story := story + [Para(SignatureText, Signature)];
    assert story == AdvancedStory(template.title, certificateText, d);
  }

  /** The fragments of the advanced body are in order: the opening, an
      Organization line always, a Project line exactly when `project` is
      truthy, and never a date. */
  lemma AdvancedPartsOrder(data: map<string, Value>)
    requires "name" in data && "duration" in data
    ensures InCanonicalOrder(AdvancedParts(data))
    ensures AdvancedParts(data)[0].kind == Opening
    ensures HasKind(AdvancedParts(data), OrganizationLine)
    ensures HasKind(AdvancedParts(data), ProjectLine) <==> Truthy(Lookup(data, "project"))
    ensures !HasKind(AdvancedParts(data), DateAndId) && !HasKind(AdvancedParts(data), DateLine)
  {
    var ps := AdvancedParts(data);
    assert ps[1].kind == OrganizationLine;
    if Truthy(Lookup(data, "project")) {
      assert ps[2].kind == ProjectLine;
    }
  }

  /** The Organization line falls back to "Akshar Paul NGO Pune" only when the
      key is absent; a present value, even an empty string, is printed as is. */
  lemma AdvancedOrganizationLine(data: map<string, Value>)
    requires "name" in data && "duration" in data
    ensures AdvancedParts(data)[1] == Part(OrganizationLine, AdvancedOrganizationText(
      if "organization" in data then PyStr(data["organization"]) else DefaultOrganization))
    ensures ("organization" in data && data["organization"] == Str("")) ==>
      AdvancedParts(data)[1].text == "<br/><br/>Organization: <b></b>"
  {
  }

  /** The advanced body opens with the recipient's name, verbatim, in bold. */
  lemma AdvancedBodyNamesRecipient(data: map<string, Value>)
    requires "name" in data && "duration" in data
    ensures var body := Concat(AdvancedParts(data));
            var bold := Bold(PyStr(data["name"]));
            |AdvancedLead| + |bold| <= |body| &&
            body[|AdvancedLead|..|AdvancedLead| + |bold|] == bold
  {
    var ps := AdvancedParts(data);
    ConcatStartsWith(ps);
    var bold := Bold(PyStr(data["name"]));
    SliceOfConcat(AdvancedLead, bold, AdvancedAfterName(PyStr(data["duration"])));
    PrefixSlice(ps[0].text, Concat(ps), |AdvancedLead|, |AdvancedLead| + |bold|);
  }

  /** The advanced story: title first among the paragraphs, then the body,
      the date, the certificate ID (eight upper-case hex digits) and the
      signature, separated by spacers. */
  lemma AdvancedStoryLayout(data: map<string, Value>, templateType: Value, d: Draws)
    requires "name" in data && "duration" in data
    requires WellFormed(d)
    ensures var r := AdvancedCertificate(data, templateType, d);
            |r.story| == 9 &&
            r.story[0].Spacer? && r.story[2].Spacer? && r.story[4].Spacer? && r.story[7].Spacer? &&
            r.story[1] == Para(AdvancedTemplateFor(templateType).title, CertificateTitle) &&
            r.story[3] == Para(Concat(AdvancedParts(data)), CertificateBody) &&
            r.story[5] == Para("Date: " + d.today, Signature) &&
            (exists id :: IsUpperHex8(id) && r.story[6] == Para("Certificate ID: " + id, Signature)) &&
            r.story[8] == Para(SignatureText, Signature)
  {
    UpperOfHex(d.idHex);
  }

  // ---- minimal ----

  const MinimalTitleText := "Certificate of Completion"

  function MinimalOpeningText(name: string, duration: string): string {
    MinimalLead + Bold(name) + MinimalAfterName(duration)
  }

  const MinimalLead := "\n    This certifies that "

  function MinimalAfterName(duration: string): string {
    " has completed \n    " + duration + " hours of volunteer service.\n    "
  }

  function MinimalOrganizationText(organization: string): string {
    "<br/><br/>Organization: " + organization
  }

  function MinimalDateText(today: string): string {
    "<br/><br/>Date: " + today
  }

  /** The fragments of the minimal body, in the order they are added. */
  function MinimalParts(data: map<string, Value>, today: string): seq<Part>
    requires "name" in data && "duration" in data
  {
    [MinimalOpening(data)]
    + Optional(Truthy(Lookup(data, "organization")), MinimalOrganization(data))
    + [Part(DateLine, MinimalDateText(today))]
  }

  function MinimalOpening(data: map<string, Value>): Part
    requires "name" in data && "duration" in data
  {
    Part(Opening, MinimalOpeningText(PyStr(data["name"]), PyStr(data["duration"])))
  }

  function MinimalOrganization(data: map<string, Value>): Part {
    Part(OrganizationLine, MinimalOrganizationText(PyStr(Lookup(data, "organization"))))
  }

  /** The minimal body is its fragments' texts one after the other. */
  lemma MinimalBodyText(data: map<string, Value>, today: string)
    requires "name" in data && "duration" in data
    ensures Concat(MinimalParts(data, today)) ==
            MinimalOpening(data).text
            + OptionalText(Truthy(Lookup(data, "organization")), MinimalOrganization(data))
            + MinimalDateText(today)
  {
    var a := [MinimalOpening(data)];
    var b := Optional(Truthy(Lookup(data, "organization")), MinimalOrganization(data));
    var date := Part(DateLine, MinimalDateText(today));
    ConcatJoin(a + b, [date]);
    ConcatJoin(a, b);
    ConcatOptional(Truthy(Lookup(data, "organization")), MinimalOrganization(data));
    ConcatOptional(true, MinimalOpening(data));
    ConcatOptional(true, date);
  }

  /** What `create_minimal_certificate(user_data, template_type)` returns and builds. */
  function MinimalCertificate(data: map<string, Value>, templateType: Value, d: Draws): (r: Rendered)
    requires "name" in data && "duration" in data
    ensures RendererOf(r.filename) == Some(MinimalRenderer)
    ensures |r.story| == 4 && r.story[3] == Para(Concat(MinimalParts(data, d.today)), MinimalBody)
  {
    RendererOfPath(MinimalRenderer, d.fileHex);
    Rendered(CertificatePath(MinimalRenderer, d.fileHex),
             [Spacer(1, 100), Para(MinimalTitleText, MinimalTitle), Spacer(1, 50),
              Para(Concat(MinimalParts(data, d.today)), MinimalBody)])
  }

  /** `create_minimal_certificate`, statement by statement. */
  method CreateMinimalCertificate(data: map<string, Value>, templateType: Value, d: Draws)
    returns (filename: string, story: seq<Block>)
    requires "name" in data && "duration" in data
    ensures Rendered(filename, story) == MinimalCertificate(data, templateType, d)
  {
    filename := Directory + "minimal_certificate_" + d.fileHex + ".pdf";
    story := [];
    story := story + [Spacer(1, 100)];
    story := story + [Para(MinimalTitleText, MinimalTitle)];
    story := story + [Spacer(1, 50)];

    assert story == [Spacer(1, 100), Para(MinimalTitleText, MinimalTitle), Spacer(1, 50)];

    var certificateText := MinimalOpeningText(PyStr(data["name"]), PyStr(data["duration"]));
    ghost var text0 := certificateText;
    if Truthy(Lookup(data, "organization")) {
      certificateText := certificateText + MinimalOrganizationText(PyStr(data["organization"]));
    }
    assert certificateText == text0 + OptionalText(Truthy(Lookup(data, "organization")), MinimalOrganization(data));
    certificateText := certificateText + MinimalDateText(d.today);
    MinimalBodyText(data, d.today);
    assert certificateText == Concat(MinimalParts(data, d.today));

    story := story + [Para(certificateText, MinimalBody)];
  }

  /** The minimal body never has a Project line, has an Organization line
      exactly when `organization` is truthy, and ends with the date. */
  lemma MinimalPartsOrder(data: map<string, Value>, today: string)
    requires "name" in data && "duration" in data
    ensures var ps := MinimalParts(data, today);
            InCanonicalOrder(ps) && ps[0].kind == Opening &&
            !HasKind(ps, ProjectLine) &&
            (HasKind(ps, OrganizationLine) <==> Truthy(Lookup(data, "organization"))) &&
            ps[|ps| - 1] == Part(DateLine, MinimalDateText(today))
  {
    var ps := MinimalParts(data, today);
    if Truthy(Lookup(data, "organization")) {
      assert ps[1].kind == OrganizationLine;
    }
  }

  /** The minimal body opens with the name in bold and ends with the date. */
  lemma MinimalBodyEnds(data: map<string, Value>, today: string)
    requires "name" in data && "duration" in data
    ensures var body := Concat(MinimalParts(data, today));
            var bold := Bold(PyStr(data["name"]));
            var tail := MinimalDateText(today);
            |MinimalLead| + |bold| <= |body| &&
            body[|MinimalLead|..|MinimalLead| + |bold|] == bold &&
            |tail| <= |body| && body[|body| - |tail|..] == tail
  {
    var ps := MinimalParts(data, today);
    ConcatStartsWith(ps);
    ConcatEndsWith(ps);
    var bold := Bold(PyStr(data["name"]));
    SliceOfConcat(MinimalLead, bold, MinimalAfterName(PyStr(data["duration"])));
    PrefixSlice(ps[0].text, Concat(ps), |MinimalLead|, |MinimalLead| + |bold|);
  }

  /** The minimal renderer ignores `template_type`: its title is always
      "Certificate of Completion". */
  lemma MinimalIgnoresTemplate(data: map<string, Value>, t1: Value, t2: Value, d: Draws)
    requires "name" in data && "duration" in data
    ensures MinimalCertificate(data, t1, d) == MinimalCertificate(data, t2, d)
    ensures MinimalCertificate(data, t1, d).story ==
            [Spacer(1, 100), Para("Certificate of Completion", MinimalTitle), Spacer(1, 50),
             Para(Concat(MinimalParts(data, d.today)), MinimalBody)]
  {
  }
}
