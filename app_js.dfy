/** The React component `App`: the form state its handlers overwrite, the
    client-side validation, the generate and download flows, and the names
    it derives for the download. */
module Frontend {
  import opened PyValue
  import Backend

  // ---- JavaScript string operations ----

  /** A character that `String.prototype.trim` strips and `\s` matches:
      ECMAScript WhiteSpace and LineTerminator. */
  predicate IsJsSpace(c: char) {
    ('\t' <= c <= '\r') || c == ' ' || c == '\U{00A0}' || c == '\U{1680}' ||
    ('\U{2000}' <= c <= '\U{200A}') || c == '\U{2028}' || c == '\U{2029}' ||
    c == '\U{202F}' || c == '\U{205F}' || c == '\U{3000}' || c == '\U{FEFF}'
  }

  predicate Blank(s: string) { forall i :: 0 <= i < |s| ==> IsJsSpace(s[i]) }

  predicate NoSpace(s: string) { forall i :: 0 <= i < |s| ==> !IsJsSpace(s[i]) }

  /** `s.trimStart()`: drops the leading whitespace. */
  function TrimStart(s: string): (r: string)
    ensures |r| <= |s|
    decreases |s|
  {
    if s != "" && IsJsSpace(s[0]) then TrimStart(s[1..]) else s
  }

  /** `s.trimEnd()`: drops the trailing whitespace. */
  function TrimEnd(s: string): (r: string)
    ensures |r| <= |s|
    decreases |s|
  {
    if s != "" && IsJsSpace(s[|s| - 1]) then TrimEnd(s[..|s| - 1]) else s
  }

  /** `s.trim()` */
  function Trim(s: string): (r: string)
    ensures r == "" <==> Blank(s)
  {
    TrimBlank(s);
    TrimEnd(TrimStart(s))
  }

  /** `trimStart` removes a blank prefix and stops at a non-space. */
  lemma {:induction false} TrimStartSlice(s: string)
    ensures var r := TrimStart(s);
            r == s[|s| - |r|..] && Blank(s[..|s| - |r|]) && (r != "" ==> !IsJsSpace(r[0]))
    decreases |s|
  {
    if s != "" && IsJsSpace(s[0]) {
      var r := TrimStart(s[1..]);
      TrimStartSlice(s[1..]);
      assert s[..|s| - |r|] == [s[0]] + s[1..][..|s| - 1 - |r|];
    }
  }

  /** `trimEnd` removes a blank suffix and stops at a non-space. */
  lemma {:induction false} TrimEndSlice(s: string)
    ensures var r := TrimEnd(s);
            r <= s && Blank(s[|r|..]) && (r != "" ==> !IsJsSpace(r[|r| - 1]))
    decreases |s|
  {
    if s != "" && IsJsSpace(s[|s| - 1]) {
      var r := TrimEnd(s[..|s| - 1]);
      TrimEndSlice(s[..|s| - 1]);
      assert s[|r|..] == s[..|s| - 1][|r|..] + [s[|s| - 1]];
    }
  }

  /** Trimming leaves nothing exactly when the string is all whitespace. */
  lemma TrimBlank(s: string)
    ensures TrimEnd(TrimStart(s)) == "" <==> Blank(s)
  {
    var t := TrimStart(s);
    var k := |s| - |t|;
    TrimStartSlice(s);
    TrimEndSlice(t);
    assert t != "" ==> t[0] == s[k];
    if TrimEnd(t) == "" {
      assert t[0..] == t;
      assert t == "";
      assert s[..k] == s;
    }
  }

  /** What `trim` keeps: the slice of `s` between its leading and its
      trailing whitespace, starting and ending with a non-space. */
  lemma TrimSlice(s: string)
    ensures var r := Trim(s);
            var k := |s| - |TrimStart(s)|;
            k + |r| <= |s| && s[k..k + |r|] == r && Blank(s[..k]) && Blank(s[k + |r|..]) &&
            (r != "" ==> !IsJsSpace(r[0]) && !IsJsSpace(r[|r| - 1]))
  {
    var t := TrimStart(s);
    var r := TrimEnd(t);
    var k := |s| - |t|;
    TrimStartSlice(s);
    TrimEndSlice(t);
    assert s[k..k + |r|] == t[..|r|];
    assert s[k + |r|..] == t[|r|..];
  }

  /** `isNaN(s)` for the strings this model reads as numbers: after trimming,
      a run of decimal digits; so an all-whitespace string is not NaN. */
  predicate IsNaN(s: string)
    ensures Blank(s) ==> !IsNaN(s)
  {
    !AllDigits(Trim(s))
  }

  /** `parseInt(s)` on a non-blank string that is not NaN. */
  function ParseInt(s: string): nat
    requires !Blank(s) && !IsNaN(s)
  {
    DecimalValue(Trim(s))
  }

  /** A number written in decimal is not NaN, and `parseInt` reads it back. */
  lemma ParseIntOfDecimal(n: nat)
    ensures !Blank(NatToString(n)) && !IsNaN(NatToString(n))
    ensures ParseInt(NatToString(n)) == n
  {
    var s := NatToString(n);
    assert !IsJsSpace(s[0]) && !IsJsSpace(s[|s| - 1]);
    assert TrimStart(s) == s;
    assert TrimEnd(s) == s;
    DecimalRoundTrip(n);
  }

  /** `s.split('/').pop()`: the text after the last `/`, or all of `s`. */
  function LastSegment(s: string): (r: string)
    ensures |r| <= |s| && r == s[|s| - |r|..]
    ensures '/' !in r
    ensures |r| < |s| ==> s[|s| - |r| - 1] == '/'
  {
    if s == "" then ""
    else if s[|s| - 1] == '/' then ""
    else
      var r := LastSegment(s[..|s| - 1]) + [s[|s| - 1]];
      assert s[..|s| - 1][|s| - |r|..] + [s[|s| - 1]] == s[|s| - |r|..];
      r
  }

  /** The last segment of a path in a directory is the name after it. */
  lemma {:induction false} LastSegmentOfPath(dir: string, tail: string)
    requires dir != "" && dir[|dir| - 1] == '/' && '/' !in tail
    ensures LastSegment(dir + tail) == tail
    decreases |tail|
  {
    var s := dir + tail;
    if tail == "" {
      assert s == dir;
    } else {
      var init := tail[..|tail| - 1];
      assert s[..|s| - 1] == dir + init;
      assert s[|s| - 1] == tail[|tail| - 1];
      LastSegmentOfPath(dir, init);
      assert init + [tail[|tail| - 1]] == tail;
    }
  }

  /** The characters of `s` other than whitespace and `_`, in order. */
  function Letters(s: string): string {
    if s == "" then ""
    else if IsJsSpace(s[0]) || s[0] == '_' then Letters(s[1..])
    else [s[0]] + Letters(s[1..])
  }

  /** Dropping leading whitespace drops no letter. */
  lemma {:induction false} LettersOfTrimStart(s: string)
    ensures Letters(TrimStart(s)) == Letters(s)
    decreases |s|
  {
    if s != "" && IsJsSpace(s[0]) {
      LettersOfTrimStart(s[1..]);
    }
  }

  /** `s.replace(/\s+/g, '_')`: every maximal run of whitespace becomes one `_`. */
  function ReplaceSpaceRuns(s: string): (r: string)
    ensures NoSpace(r)
    ensures |r| <= |s|
    decreases |s|
  {
    if s == "" then ""
    else if IsJsSpace(s[0]) then "_" + ReplaceSpaceRuns(TrimStart(s[1..]))
    else [s[0]] + ReplaceSpaceRuns(s[1..])
  }

  /** The replacement keeps every character other than whitespace and `_`,
      in order, and adds none. */
  lemma {:induction false} ReplaceSpaceRunsLetters(s: string)
    ensures Letters(ReplaceSpaceRuns(s)) == Letters(s)
    decreases |s|
  {
    if s != "" {
      var r := ReplaceSpaceRuns(s);
      if IsJsSpace(s[0]) {
        var t := TrimStart(s[1..]);
        assert r == "_" + ReplaceSpaceRuns(t);
        assert r[1..] == ReplaceSpaceRuns(t);
        ReplaceSpaceRunsLetters(t);
        LettersOfTrimStart(s[1..]);
      } else {
        assert r == [s[0]] + ReplaceSpaceRuns(s[1..]);
        assert r[1..] == ReplaceSpaceRuns(s[1..]);
        ReplaceSpaceRunsLetters(s[1..]);
      }
    }
  }

  /** Text without whitespace is left as it is. */
  lemma {:induction false} ReplaceSpaceRunsKeeps(s: string)
    requires NoSpace(s)
    ensures ReplaceSpaceRuns(s) == s
    decreases |s|
  {
    if s != "" {
      ReplaceSpaceRunsKeeps(s[1..]);
    }
  }

  /** A prefix without whitespace is copied unchanged. */
  lemma {:induction false} ReplaceSpaceRunsPrefix(a: string, b: string)
    requires NoSpace(a)
    ensures ReplaceSpaceRuns(a + b) == a + ReplaceSpaceRuns(b)
    decreases |a|
  {
    if a == "" {
      assert a + b == b;
    } else {
      assert (a + b)[1..] == a[1..] + b;
      ReplaceSpaceRunsPrefix(a[1..], b);
    }
  }

  /** A maximal leading run of whitespace becomes a single `_`. */
  lemma ReplaceSpaceRunsRun(w: string, b: string)
    requires w != "" && Blank(w) && (b == "" || !IsJsSpace(b[0]))
    ensures ReplaceSpaceRuns(w + b) == "_" + ReplaceSpaceRuns(b)
  {
    assert (w + b)[1..] == w[1..] + b;
    TrimStartDropsBlank(w[1..], b);
  }

  /** One step of the replacement: a word, then a maximal run of whitespace.
      With `ReplaceSpaceRunsPrefix` and `""` it determines the result on
      every string, since every string is words and runs in turn. */
  lemma ReplaceSpaceRunsStep(a: string, w: string, b: string)
    requires NoSpace(a) && w != "" && Blank(w) && (b == "" || !IsJsSpace(b[0]))
    ensures ReplaceSpaceRuns(a + w + b) == a + "_" + ReplaceSpaceRuns(b)
  {
    assert a + w + b == a + (w + b);
    ReplaceSpaceRunsPrefix(a, w + b);
    ReplaceSpaceRunsRun(w, b);
  }

  /** A run of whitespace between two words becomes a single `_`. */
  lemma ReplaceSpaceRunsJoins(a: string, w: string, b: string)
    requires NoSpace(a) && NoSpace(b) && w != "" && Blank(w)
    ensures ReplaceSpaceRuns(a + w + b) == a + "_" + b
  {
    ReplaceSpaceRunsStep(a, w, b);
    ReplaceSpaceRunsKeeps(b);
  }

  lemma {:induction false} TrimStartDropsBlank(w: string, b: string)
    requires Blank(w) && (b == "" || !IsJsSpace(b[0]))
    ensures TrimStart(w + b) == b
    decreases |w|
  {
    if w == "" {
      assert w + b == b;
    } else {
      assert (w + b)[1..] == w[1..] + b;
      TrimStartDropsBlank(w[1..], b);
    }
  }

  const SavedPrefix := "certificate_"
  const SavedSuffix := ".pdf"

  /** The name the browser saves the download as: `certificate_`, the name
      with its whitespace runs replaced, `.pdf`. */
  function SavedName(name: string): (r: string)
    ensures NoSpace(r)
  {
    SavedPrefix + ReplaceSpaceRuns(name) + SavedSuffix
  }

  /** A name without whitespace is saved verbatim between the prefix and the suffix. */
  lemma SavedNameKeeps(name: string)
    requires NoSpace(name)
    ensures SavedName(name) == SavedPrefix + name + SavedSuffix
  {
    ReplaceSpaceRunsKeeps(name);
  }

  /** Every saved name is `certificate_`, then the name's characters other
      than whitespace and `_` in their order with nothing added, then `.pdf`. */
  lemma SavedNameLetters(name: string)
    ensures var r := SavedName(name);
            |SavedPrefix| + |SavedSuffix| <= |r| &&
            r[..|SavedPrefix|] == SavedPrefix && r[|r| - |SavedSuffix|..] == SavedSuffix &&
            Letters(r[|SavedPrefix|..|r| - |SavedSuffix|]) == Letters(name)
  {
    var r := SavedName(name);
    assert r[|SavedPrefix|..|r| - |SavedSuffix|] == ReplaceSpaceRuns(name);
    ReplaceSpaceRunsLetters(name);
  }

  /** The saved name of a word followed by a run of whitespace and the rest. */
  lemma SavedNameStep(a: string, w: string, b: string)
    requires NoSpace(a) && w != "" && Blank(w) && (b == "" || !IsJsSpace(b[0]))
    ensures SavedName(a + w + b) == SavedPrefix + (a + "_" + ReplaceSpaceRuns(b)) + SavedSuffix
  {
    ReplaceSpaceRunsStep(a, w, b);
  }

  /** Two words separated by a run of whitespace are joined by one `_`. */
  lemma SavedNameTwoWords(a: string, w: string, b: string)
    requires NoSpace(a) && NoSpace(b) && w != "" && Blank(w)
    ensures SavedName(a + w + b) == SavedPrefix + (a + "_" + b) + SavedSuffix
  {
    ReplaceSpaceRunsJoins(a, w, b);
  }

  /** Three words separated by runs of whitespace are joined by single `_`. */
  lemma SavedNameThreeWords(a: string, w1: string, b: string, w2: string, c: string)
    requires NoSpace(a) && NoSpace(b) && NoSpace(c) && b != ""
    requires w1 != "" && Blank(w1) && w2 != "" && Blank(w2)
    ensures SavedName(a + w1 + b + w2 + c) == SavedPrefix + (a + "_" + b + "_" + c) + SavedSuffix
  {
    ReplaceSpaceRunsJoins(b, w2, c);
    assert a + w1 + b + w2 + c == a + w1 + (b + w2 + c);
    SavedNameStep(a, w1, b + w2 + c);
  }

  // ---- form state ----

  /** The `formData` record. */
  datatype FormData = FormData(name: string, duration: string, organization: string,
                               project: string, email: string, phone: string)

  /** The `name` attribute of the six inputs. */
  datatype Field = Name | Duration | Organization | Project | Email | Phone

  function FieldValue(f: FormData, field: Field): string {
    match field
    case Name => f.name
    case Duration => f.duration
    case Organization => f.organization
    case Project => f.project
    case Email => f.email
    case Phone => f.phone
  }

  /** `{...prev, [name]: value}` */
  function WithField(f: FormData, field: Field, value: string): (r: FormData)
    ensures FieldValue(r, field) == value
    ensures forall g :: g != field ==> FieldValue(r, g) == FieldValue(f, g)
  {
    match field
    case Name => f.(name := value)
    case Duration => f.(duration := value)
    case Organization => f.(organization := value)
    case Project => f.(project := value)
    case Email => f.(email := value)
    case Phone => f.(phone := value)
  }

  const DefaultOrganization := "Akshar Paul NGO Pune"

  /** The state `useState` starts with. */
  const InitialForm := FormData("", "", DefaultOrganization, "", "", "")

  /** The state `resetForm` restores. */
  const EmptyForm := FormData("", "", "", "", "", "")

  const NameRequired := "Name is required"
  const DurationRequired := "Duration is required"
  const DurationNotPositive := "Duration must be a positive number"
  const SuccessMessage := "Certificate generated successfully! Click download to get your certificate."
  const GenerateFailed := "Error generating certificate"
  const DownloadFailed := "Error downloading certificate"

  /** The message `validateForm` sets, or None when it returns true. The
      duration is looked at only once the name is known to be non-blank. */
  function Validate(f: FormData): (r: Option<string>)
    ensures Blank(f.name) ==> r == Some(NameRequired)
    ensures !Blank(f.name) && Blank(f.duration) ==> r == Some(DurationRequired)
    ensures !Blank(f.name) && !Blank(f.duration) ==>
              (r.None? <==> AllDigits(Trim(f.duration)) && DecimalValue(Trim(f.duration)) > 0) &&
              (r.Some? ==> r == Some(DurationNotPositive))
  {
    if Trim(f.name) == "" then Some(NameRequired)
    else if Trim(f.duration) == "" then Some(DurationRequired)
    else if IsNaN(f.duration) || ParseInt(f.duration) <= 0 then Some(DurationNotPositive)
    else None
  }

  /** The body `generateCertificate` posts: `{...formData, template_type, style}`. */
  function RequestBody(f: FormData, template: string, style: string): (body: map<string, Value>)
    ensures forall field :: Key(field) in body && body[Key(field)] == Str(FieldValue(f, field))
    ensures "template_type" in body && body["template_type"] == Str(template)
    ensures "style" in body && body["style"] == Str(style)
  {
    map["name" := Str(f.name), "duration" := Str(f.duration), "organization" := Str(f.organization),
        "project" := Str(f.project), "email" := Str(f.email), "phone" := Str(f.phone),
        "template_type" := Str(template), "style" := Str(style)]
  }

  function Key(field: Field): string {
    match field
    case Name => "name"
    case Duration => "duration"
    case Organization => "organization"
    case Project => "project"
    case Email => "email"
    case Phone => "phone"
  }

  /** The component's state and its handlers. */
  class App {
    var form: FormData
    var selectedTemplate: string
    var selectedStyle: string
    var message: string
    var messageType: string
    var generatedCertificate: Option<string>

    constructor ()
      ensures form == InitialForm && selectedTemplate == "volunteer" && selectedStyle == "advanced"
      ensures message == "" && messageType == "" && generatedCertificate == None
    {
      form := InitialForm;
      selectedTemplate := "volunteer";
      selectedStyle := "advanced";
      message := "";
      messageType := "";
      generatedCertificate := None;
    }

    /** `handleInputChange`: one field of the form takes the input's value. */
    method HandleInputChange(field: Field, value: string)
      modifies this`form
      ensures FieldValue(form, field) == value
      ensures forall g :: g != field ==> FieldValue(form, g) == FieldValue(old(form), g)
    {
      form := WithField(form, field, value);
    }

    method HandleTemplateSelect(template: string)
      modifies this`selectedTemplate
      ensures selectedTemplate == template
    {
      selectedTemplate := template;
    }

    method HandleStyleSelect(style: string)
      modifies this`selectedStyle
      ensures selectedStyle == style
    {
      selectedStyle := style;
    }

    /** `validateForm`: on failure sets the message and type to error and
        returns false; on success changes nothing and returns true. */
    method ValidateForm() returns (ok: bool)
      modifies this`message, this`messageType
      ensures ok <==> Validate(form).None?
      ensures !ok ==> message == Validate(form).value && messageType == "error"
      ensures ok ==> message == old(message) && messageType == old(messageType)
    {
      if Trim(form.name) == "" {
        message := NameRequired;
        messageType := "error";
        return false;
      }
      if Trim(form.duration) == "" {
        message := DurationRequired;
        messageType := "error";
        return false;
      }
      if IsNaN(form.duration) || ParseInt(form.duration) <= 0 {
        message := DurationNotPositive;
        messageType := "error";
        return false;
      }
      return true;
    }

    /** `generateCertificate`: nothing is sent when validation fails; otherwise
        the form is posted and the reply stored. `request` is what was sent;
        `reply` is what the server answers to it, which is not seen when
        nothing is sent. */
    method GenerateCertificate(reply: Backend.Reply) returns (request: Option<map<string, Value>>)
      modifies this`message, this`messageType, this`generatedCertificate
      ensures Validate(form).Some? ==>
                request == None && generatedCertificate == old(generatedCertificate) &&
                message == Validate(form).value && messageType == "error"
      ensures Validate(form).None? ==>
                request == Some(RequestBody(form, selectedTemplate, selectedStyle))
      ensures Validate(form).None? && reply.Generated? ==>
                generatedCertificate == Some(reply.filename) &&
                message == SuccessMessage && messageType == "success"
      ensures Validate(form).None? && reply.Failure? ==>
                generatedCertificate == old(generatedCertificate) &&
                message == (if reply.error == "" then GenerateFailed else reply.error) &&
                messageType == "error"
      ensures Validate(form).None? && reply.Attachment? ==>
                message == "" && messageType == old(messageType) &&
                generatedCertificate == old(generatedCertificate)
    {
      var valid := ValidateForm();
      if !valid {
        return None;
      }
      message := "";
      request := Some(RequestBody(form, selectedTemplate, selectedStyle));
      match reply
      case Generated(filename, _) =>
        generatedCertificate := Some(filename);
        message := SuccessMessage;
        messageType := "success";
      case Failure(_, error) =>
        message := if error == "" then GenerateFailed else error;
        messageType := "error";
      case Attachment(_) =>
    }

    /** `downloadCertificate`: asks the server for the last path segment of the
        stored file name, against the paths the server has; on success returns
        the name the file is saved as. */
    method DownloadCertificate(existing: set<string>) returns (savedAs: Option<string>)
      modifies this`message, this`messageType
      ensures (generatedCertificate.None? || generatedCertificate == Some("")) ==>
                savedAs == None && message == old(message) && messageType == old(messageType)
      ensures generatedCertificate.Some? && generatedCertificate.value != "" ==>
                var reply := Backend.DownloadCertificate(LastSegment(generatedCertificate.value), existing);
                (reply.Attachment? ==> savedAs == Some(SavedName(form.name)) &&
                                       message == old(message) && messageType == old(messageType)) &&
                (!reply.Attachment? ==> savedAs == None && message == DownloadFailed && messageType == "error")
    {
      if generatedCertificate.None? || generatedCertificate.value == "" {
        return None;
      }
      var reply := Backend.DownloadCertificate(LastSegment(generatedCertificate.value), existing);
      if reply.Attachment? {
        savedAs := Some(SavedName(form.name));
      } else {
        message := DownloadFailed;
        messageType := "error";
        savedAs := None;
      }
    }

    /** `resetForm`: every field and selection back to its reset value, which
        for the organization differs from the initial one. */
    method ResetForm()
      modifies this
      ensures form == EmptyForm && form != InitialForm
      ensures selectedTemplate == "volunteer" && selectedStyle == "advanced"
      ensures generatedCertificate == None && message == "" && messageType == ""
    {
      form := EmptyForm;
      selectedTemplate := "volunteer";
      selectedStyle := "advanced";
      generatedCertificate := None;
      message := "";
      messageType := "";
    }
  }
}
