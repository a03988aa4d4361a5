/** The two halves together: what the form posts, what the server answers,
    and what the browser can then download. */
module EndToEnd {
  import opened PyValue
  import opened Certificate
  import Backend
  import CertificateTemplates
  import opened Frontend

  /** A form that passes `validateForm` is never turned away by the server's
      required-field check, and the style the user picked decides the renderer. */
  lemma ValidFormIsGenerated(f: FormData, template: string, style: string, d: Draws)
    requires Validate(f).None?
    ensures var reply := Backend.HandleGenerate(RequestBody(f, template, style), d);
            reply.Generated? && reply.message == Backend.GeneratedMessage &&
            reply.filename == CertificatePath(Backend.SelectRenderer(Str(style)), d.fileHex) &&
            RendererOf(reply.filename) == Some(Backend.SelectRenderer(Str(style)))
  {
    var body := RequestBody(f, template, style);
    NonBlankIsTruthy(f.name);
    NonBlankIsTruthy(f.duration);
    assert body[Key(Name)] == Str(f.name) && body[Key(Duration)] == Str(f.duration);
    assert Backend.StyleOf(body) == Str(style);
  }

  /** A string that is not all whitespace is not empty, so `Str` of it is truthy. */
  lemma NonBlankIsTruthy(s: string)
    requires !Blank(s)
    ensures Truthy(Str(s))
  {
    var i :| 0 <= i < |s| && !IsJsSpace(s[i]);
  }

  /** Whatever the server rejects for a missing field, the client rejects first. */
  lemma ServerRejectionImpliesClientRejection(f: FormData, template: string, style: string, d: Draws)
    requires Backend.HandleGenerate(RequestBody(f, template, style), d).Failure?
    ensures Validate(f).Some?
  {
    if Validate(f).None? {
      ValidFormIsGenerated(f, template, style, d);
    }
  }

  /** The converse fails: the server tests `not data[field]`, not a trimmed
      value, so a name of two spaces is refused by the client and accepted
      by the server. */
  lemma BlankNameAcceptedByServer(d: Draws)
    ensures var f := EmptyForm.(name := "  ", duration := "10");
            Validate(f) == Some(NameRequired) &&
            Backend.HandleGenerate(RequestBody(f, "volunteer", "advanced"), d).Generated?
  {
    var f := EmptyForm.(name := "  ", duration := "10");
    assert Blank(f.name) by {
      assert f.name[0] == ' ' && f.name[1] == ' ';
    }
    var body := RequestBody(f, "volunteer", "advanced");
    assert body[Key(Name)] == Str("  ") && body[Key(Duration)] == Str("10");
  }

  /** A certificate path built from a uuid suffix is `certificates/`
      followed by a name without `/`; its last segment, which is what the
      client asks for, leads the download route back to that very path. */
  lemma PathDownloads(r: Renderer, hex: string, existing: set<string>)
    requires IsHex8(hex)
    ensures var path := CertificatePath(r, hex);
            LastSegment(path) == FilePrefix(r) + hex + ".pdf" &&
            Backend.DownloadCertificate(LastSegment(path), existing + {path}) == Backend.Attachment(path)
  {
    PathTail(r, hex);
    LastSegmentOfPath(Directory, FilePrefix(r) + hex + ".pdf");
  }

  /** The file name a successful generation returns can be downloaded by the
      name the client derives from it. */
  lemma GeneratedFileDownloads(data: map<string, Value>, d: Draws, existing: set<string>)
    requires WellFormed(d)
    requires !Backend.Missing(data, "name") && !Backend.Missing(data, "duration")
    ensures var path := Backend.HandleGenerate(data, d).filename;
            var r := Backend.SelectRenderer(Backend.StyleOf(data));
            LastSegment(path) == FilePrefix(r) + d.fileHex + ".pdf" &&
            Backend.DownloadCertificate(LastSegment(path), existing + {path}) == Backend.Attachment(path)
  {
    PathDownloads(Backend.SelectRenderer(Backend.StyleOf(data)), d.fileHex, existing);
  }

  /** The organization the form holds is what the advanced renderer prints:
      the server's default never applies, because the client always sends
      the key. After `resetForm` the advanced body says `Organization: ` with
      an empty bold name, while the simple and minimal bodies leave the line out. */
  lemma FormOrganizationReachesBody(f: FormData, template: string, style: string)
    ensures CertificateTemplates.AdvancedOrganization(RequestBody(f, template, style)) == f.organization
    ensures Truthy(Lookup(RequestBody(f, template, style), "organization")) <==> f.organization != ""
    ensures CertificateTemplates.AdvancedOrganization(RequestBody(InitialForm, template, style)) ==
            "Akshar Paul NGO Pune"
    ensures CertificateTemplates.AdvancedOrganization(RequestBody(EmptyForm, template, style)) == ""
  {
    var body := RequestBody(f, template, style);
    assert body[Key(Organization)] == Str(f.organization);
    assert RequestBody(InitialForm, template, style)[Key(Organization)] == Str(InitialForm.organization);
    assert RequestBody(EmptyForm, template, style)[Key(Organization)] == Str(EmptyForm.organization);
  }

  /** One session in the browser: type a name and a duration the form
      accepts, generate with the default selections, download. The server's
      clock and `uuid4` are `d`, and `existing` are the files it already had;
      the download then succeeds and saves under the name derived from the form. */
  method Session(name: string, duration: string, d: Draws, existing: set<string>)
    returns (saved: Option<string>, path: string)
    requires WellFormed(d)
    requires Validate(InitialForm.(name := name, duration := duration)).None?
    ensures path == CertificatePath(AdvancedRenderer, d.fileHex)
    ensures saved == Some(SavedName(name))
  {
    var app := FillForm(name, duration);
    path := GenerateWithDefaults(app, d);
    PathDownloads(AdvancedRenderer, d.fileHex, existing);
    assert app.form.name == name;
    saved := app.DownloadCertificate(existing + {path});
  }

  /** Pressing generate with the default selections on a form that validates
      stores the path of an advanced certificate. */
  method GenerateWithDefaults(app: App, d: Draws) returns (path: string)
    requires WellFormed(d) && Validate(app.form).None?
    requires app.selectedTemplate == "volunteer" && app.selectedStyle == "advanced"
    modifies app
    ensures app.form == old(app.form)
    ensures app.generatedCertificate == Some(path)
    ensures path == CertificatePath(AdvancedRenderer, d.fileHex) && path != ""
  {
    ValidFormIsGenerated(app.form, "volunteer", "advanced", d);
    assert Backend.SelectRenderer(Str("advanced")) == AdvancedRenderer;
    var reply, _ := Backend.GenerateCertificate(RequestBody(app.form, "volunteer", "advanced"), d);
    var request := app.GenerateCertificate(reply);
    path := app.generatedCertificate.value;
  }

  /** A fresh component after the user typed a name and a duration. */
  method FillForm(name: string, duration: string) returns (app: App)
    ensures fresh(app)
    ensures app.form == InitialForm.(name := name, duration := duration)
    ensures app.selectedTemplate == "volunteer" && app.selectedStyle == "advanced"
    ensures app.generatedCertificate == None
  {
    app := new App();
    app.HandleInputChange(Name, name);
    app.HandleInputChange(Duration, duration);
    FormFields(app.form, InitialForm.(name := name, duration := duration));
  }

  /** Two forms that agree on every field are the same form. */
  lemma FormFields(f: FormData, g: FormData)
    requires forall field :: FieldValue(f, field) == FieldValue(g, field)
    ensures f == g
  {
    assert FieldValue(f, Name) == FieldValue(g, Name);
    assert FieldValue(f, Duration) == FieldValue(g, Duration);
    assert FieldValue(f, Organization) == FieldValue(g, Organization);
    assert FieldValue(f, Project) == FieldValue(g, Project);
    assert FieldValue(f, Email) == FieldValue(g, Email);
    assert FieldValue(f, Phone) == FieldValue(g, Phone);
  }

  /** The session for "Jane Doe" and "10": the form accepts it and the space
      in the name becomes an underscore in the saved name. */
  lemma JaneDoeSession()
    ensures Validate(InitialForm.(name := "Jane Doe", duration := "10")).None?
    ensures SavedName("Jane Doe") == "certificate_Jane_Doe.pdf"
  {
    ValidatesJaneDoe(InitialForm.(name := "Jane Doe", duration := "10"));
    SavedJaneDoe();
  }

  /** The space in the name becomes an underscore in the saved name. */
  lemma SavedJaneDoe()
    ensures SavedName("Jane Doe") == "certificate_Jane_Doe.pdf"
  {
    JaneDoeWords();
    SavedNameTwoWords("Jane", " ", "Doe");
    JaneDoeSaved();
  }

  lemma JaneDoeSaved()
    ensures SavedPrefix + ("Jane" + "_" + "Doe") + SavedSuffix == "certificate_Jane_Doe.pdf"
  {
    assert "Jane" + "_" + "Doe" == "Jane_Doe";
    assert SavedPrefix + "Jane_Doe" == "certificate_Jane_Doe";
  }

  lemma JaneDoeWords()
    ensures NoSpace("Jane") && NoSpace("Doe") && Blank(" ")
    ensures "Jane" + " " + "Doe" == "Jane Doe" && !NoSpace("Jane Doe")
  {
    assert IsJsSpace("Jane Doe"[4]);
  }

  lemma ValidatesJaneDoe(f: FormData)
    requires f == InitialForm.(name := "Jane Doe", duration := "10")
    ensures Validate(f).None?
  {
    assert !IsJsSpace(f.name[0]);
    assert Trim(f.duration) == "10";
    assert DecimalValue("10") == 10 by {
      assert "10"[..1] == "1";
    }
  }
}
