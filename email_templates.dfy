/** Email templates (routers/email_template_router.py): the subject and the
    HTML and plain-text bodies a campaign mails. Creation rejects a blank
    name, a template without visible content and a duplicate name; an
    update copies the fields it is given; an `.eml` upload is turned into a
    template by picking its first HTML part and first non-empty plain-text
    part, with fallbacks for whatever is missing. */
module EmailTemplates {
  import opened Wrappers
  import opened Text
  import Json
  import Results

  type Time = Results.Time
  type Variables = seq<(string, Json.Value)>

  datatype EmailTemplate = EmailTemplate(
    id: int, name: string, description: Option<string>, userId: int, subject: string,
    htmlContent: Option<string>, textContent: Option<string>, isDemo: Option<bool>,
    templateType: string, variables: Option<string>, isActive: bool,
    createdAt: Time, updatedAt: Time)

  /** A template name already used by `userId`, other than by template `except`. */
  predicate NameTaken(templates: map<int, EmailTemplate>, userId: int, name: string, except: Option<int>) {
    exists k :: k in templates && templates[k].userId == userId && templates[k].name == name && Some(k) != except
  }

  /** No user owns two templates of the same name. */
  ghost predicate NamesUnique(templates: map<int, EmailTemplate>) {
    forall a, b ::
      (a in templates && b in templates && templates[a].userId == templates[b].userId
       && templates[a].name == templates[b].name) ==> a == b
  }

  // ---------------------------------------------------------------------
  // Visible text

  /** `not s or not s.strip()`. */
  predicate Blank(s: string) {
    s == [] || Strip(s) == []
  }

  /** `s and s.strip()` on an optional body. */
  predicate HasContent(s: Option<string>) {
    s.Some? && !Blank(s.value)
  }

  lemma BlankIffAllSpace(s: string)
    ensures Blank(s) <==> AllSpace(s)
  {
    StripEmptyIffAllSpace(s);
  }

  lemma HasContentIff(s: Option<string>)
    ensures HasContent(s) <==> s.Some? && !AllSpace(s.value)
  {
    if s.Some? {
      BlankIffAllSpace(s.value);
    }
  }

  // ---------------------------------------------------------------------
  // create_email_template (routers/email_template_router.py:348-397)

  datatype TemplateCreate = TemplateCreate(
    name: string, description: Option<string>, isDemo: Option<bool>, subject: string,
    htmlContent: Option<string>, textContent: Option<string>, templateType: string,
    variables: Option<Variables>, isActive: bool)

  const NameRequired := "Template name is required"
  const ContentRequired := "Either HTML content or plain text content is required"
  const DuplicateName := "An email template with this name already exists"

  /** The three rejections of a create request, in the handler's order. */
  function CheckCreate(templates: map<int, EmailTemplate>, userId: int, req: TemplateCreate): Result<()> {
    if Blank(req.name) then Fail(422, NameRequired)
    else if !HasContent(req.htmlContent) && !HasContent(req.textContent) then Fail(422, ContentRequired)
    else if NameTaken(templates, userId, req.name, None) then Fail(400, DuplicateName)
    else Ok(())
  }

  /** A create request is accepted exactly when its name is not all
      whitespace, one of its bodies is not all whitespace and the user has no
      template of that name; each rejection carries its own status and detail. */
  lemma CreateChecks(templates: map<int, EmailTemplate>, userId: int, req: TemplateCreate)
    ensures var r := CheckCreate(templates, userId, req);
      && (r.Ok? <==>
        !AllSpace(req.name)
        && ((req.htmlContent.Some? && !AllSpace(req.htmlContent.value))
            || (req.textContent.Some? && !AllSpace(req.textContent.value)))
        && !NameTaken(templates, userId, req.name, None))
      && (AllSpace(req.name) ==> r == Fail(422, NameRequired))
      && (!AllSpace(req.name) && !HasContent(req.htmlContent) && !HasContent(req.textContent) ==>
        r == Fail(422, ContentRequired))
      && (r.Fail? && r.code != 422 ==> r == Fail(400, DuplicateName) && NameTaken(templates, userId, req.name, None))
  {
    BlankIffAllSpace(req.name);
    HasContentIff(req.htmlContent);
    HasContentIff(req.textContent);
  }

  /** `json.dumps(variables) if variables else None`: an empty dictionary is
      stored as no variables at all. */
  function CreatedVariables(v: Option<Variables>): (r: Option<string>)
    ensures r.Some? <==> v.Some? && v.value != []
    ensures r.Some? ==> r.value == Json.Dumps(Json.Object(v.value))
  {
    if v.Some? && v.value != [] then Some(Json.Dumps(Json.Object(v.value))) else None
  }

  /** The inserted row. */
  function NewTemplate(id: int, userId: int, req: TemplateCreate, now: Time): EmailTemplate {
    EmailTemplate(id, req.name, req.description, userId, req.subject, req.htmlContent, req.textContent,
                  req.isDemo, req.templateType, CreatedVariables(req.variables), req.isActive, now, now)
  }

  /** The outcome of a create request: the first failed check, or the new
      row under `id`. */
  function Created(templates: map<int, EmailTemplate>, userId: int, req: TemplateCreate, id: int, now: Time)
    : (r: Result<EmailTemplate>)
    ensures r.Ok? <==> CheckCreate(templates, userId, req).Ok?
    ensures r.Ok? ==> r.value.id == id && r.value.userId == userId && r.value.name == req.name
  {
    var check := CheckCreate(templates, userId, req);
    if check.Fail? then check.PropagateFailure() else Ok(NewTemplate(id, userId, req, now))
  }

  /** An accepted template has a visible name and a visible body. */
  lemma CreatedIsVisible(templates: map<int, EmailTemplate>, id: int, userId: int, req: TemplateCreate, now: Time)
    requires CheckCreate(templates, userId, req).Ok?
    ensures var t := NewTemplate(id, userId, req, now);
      t.userId == userId && !Blank(t.name) && (HasContent(t.htmlContent) || HasContent(t.textContent))
  {
    BlankIffAllSpace(req.name);
    HasContentIff(req.htmlContent);
    HasContentIff(req.textContent);
  }

  /** A create that passed the checks keeps names unique per user. */
  lemma CreateKeepsNamesUnique(templates: map<int, EmailTemplate>, id: int, userId: int, req: TemplateCreate, now: Time)
    requires NamesUnique(templates) && id !in templates
    requires CheckCreate(templates, userId, req).Ok?
    ensures NamesUnique(templates[id := NewTemplate(id, userId, req, now)])
  {
    assert !NameTaken(templates, userId, req.name, None);
    var t := NewTemplate(id, userId, req, now);
    var m := templates[id := t];
    forall a, b | a in m && b in m && m[a].userId == m[b].userId && m[a].name == m[b].name
      ensures a == b
    {
      if a == id && b != id {
        NameFree(templates, userId, req.name, b);
      } else if a != id && b == id {
        NameFree(templates, userId, req.name, a);
      }
    }
  }

  /** A free name is not the name of any of the user's templates. */
  lemma NameFree(templates: map<int, EmailTemplate>, userId: int, name: string, k: int)
    requires !NameTaken(templates, userId, name, None)
    requires k in templates && templates[k].userId == userId
    ensures templates[k].name != name
  {
  }

  // ---------------------------------------------------------------------
  // update_email_template (routers/email_template_router.py:632-692)

  datatype TemplateUpdate = TemplateUpdate(
    name: Option<string>, description: Option<string>, isDemo: Option<bool>, subject: Option<string>,
    htmlContent: Option<string>, textContent: Option<string>, variables: Option<Variables>,
    isActive: Option<bool>)

  /** The row after an update: every field given (not None) is copied, the
      variables are serialised even when empty, `isDemo` is ignored and the
      update time is always set. */
  function Applied(t: EmailTemplate, u: TemplateUpdate, now: Time): EmailTemplate {
    EmailTemplate(
      t.id, u.name.GetOr(t.name),
      if u.description.Some? then u.description else t.description,
      t.userId, u.subject.GetOr(t.subject),
      if u.htmlContent.Some? then u.htmlContent else t.htmlContent,
      if u.textContent.Some? then u.textContent else t.textContent,
      t.isDemo, t.templateType,
      if u.variables.Some? then Some(Json.Dumps(Json.Object(u.variables.value))) else t.variables,
      u.isActive.GetOr(t.isActive), t.createdAt, now)
  }

  /** The owner, kind, demo flag and creation time never change, and a field
      left out of the request keeps its value. */
  lemma UpdateKeepsUnrequested(t: EmailTemplate, u: TemplateUpdate, now: Time)
    ensures var t' := Applied(t, u, now);
      t'.id == t.id && t'.userId == t.userId && t'.templateType == t.templateType
      && t'.isDemo == t.isDemo && t'.createdAt == t.createdAt && t'.updatedAt == now
      && (u.name.None? ==> t'.name == t.name) && (u.name.Some? ==> t'.name == u.name.value)
      && (u.htmlContent.None? ==> t'.htmlContent == t.htmlContent)
      && (u.textContent.None? ==> t'.textContent == t.textContent)
      && (u.variables.None? ==> t'.variables == t.variables)
  {
  }

  /** Applying the same update twice is the same as applying it once. */
  lemma UpdateIdempotent(t: EmailTemplate, u: TemplateUpdate, now: Time)
    ensures Applied(Applied(t, u, now), u, now) == Applied(t, u, now)
  {
  }

  /** An empty variables dictionary is dropped on create but stored as "{}"
      on update. */
  lemma EmptyVariablesDiffer(t: EmailTemplate, u: TemplateUpdate, now: Time)
    requires u.variables == Some([])
    ensures CreatedVariables(Some([])) == None
    ensures Applied(t, u, now).variables == Some("{}")
  {
    var v := Json.Object([]);
    assert Json.DumpMembers(v, []) == "";
    assert Json.Dumps(v) == "{" + "" + "}";
    assert u.variables.value == [];
    assert Applied(t, u, now).variables == Some(Json.Dumps(v));
    assert "{" + "" + "}" == "{}";
  }

  /** An update by the template's owner that passed the name check keeps
      names unique per user. */
  lemma OwnerUpdateKeepsNamesUnique(templates: map<int, EmailTemplate>, id: int, u: TemplateUpdate, now: Time)
    requires NamesUnique(templates) && id in templates
    requires !(u.name.Some? && NameTaken(templates, templates[id].userId, u.name.value, Some(id)))
    ensures NamesUnique(templates[id := Applied(templates[id], u, now)])
  {
    var m := templates[id := Applied(templates[id], u, now)];
    forall a, b | a in m && b in m && m[a].userId == m[b].userId && m[a].name == m[b].name
      ensures a == b
    {
    }
  }

  /** The name check looks at the requesting user's templates, so an admin
      renaming another user's template can give that user two templates of
      the same name. */
  lemma AdminRenameCanDuplicate()
    ensures var a := EmailTemplate(1, "a", None, 2, "s", None, Some("x"), None, "custom", None, true, 0, 0);
      var b := a.(id := 2, name := "b");
      var templates := map[1 := a, 2 := b];
      var u := TemplateUpdate(Some("a"), None, None, None, None, None, None, None);
      NamesUnique(templates)
      && !NameTaken(templates, 9, "a", Some(2))
      && !NamesUnique(templates[2 := Applied(b, u, 0)])
  {
    var a := EmailTemplate(1, "a", None, 2, "s", None, Some("x"), None, "custom", None, true, 0, 0);
    var b := a.(id := 2, name := "b");
    var templates := map[1 := a, 2 := b];
    var u := TemplateUpdate(Some("a"), None, None, None, None, None, None, None);
    var m := templates[2 := Applied(b, u, 0)];
    assert m[1].userId == m[2].userId && m[1].name == m[2].name;
    assert "a" != "b";
  }

  // ---------------------------------------------------------------------
  // import_eml_template (routers/email_template_router.py:837-999)

  /** The upload and the query parameters of the import request. */
  datatype EmlImport = EmlImport(
    filename: string, size: Option<int>, name: Option<string>, description: Option<string>,
    templateType: string, isDemo: bool, isActive: bool)

  /** One entry of `msg.walk()`: its content type and decoded content. */
  datatype MimePart = MimePart(contentType: string, content: string)

  /** A parsed message: its Subject header ("" when absent) and its parts. */
  datatype EmlMessage =
    | Multipart(subject: string, parts: seq<MimePart>)
    | SinglePart(subject: string, body: MimePart)

  /** What the `email` package made of the upload: a message, or the text
      of the exception it raised. */
  datatype Parsed = Message(msg: EmlMessage) | Unparsable(error: string)

  const MaxEmlSize := 10 * 1024 * 1024
  const DefaultSubject := "Imported Email Template"
  const ParseFailure := "Failed to parse .eml file: "
  const DuplicateImport := "A template with this name already exists"

  /** The checks made before the upload is read. */
  function CheckUpload(req: EmlImport): (r: Result<()>)
    ensures r.Ok? <==> EndsWith(Lower(req.filename), ".eml") && !(req.size.Some? && req.size.value > MaxEmlSize)
    ensures !EndsWith(Lower(req.filename), ".eml") ==> r == Fail(400, "Only .eml files are supported")
    ensures r.Fail? ==> r.code == 400
  {
    if !EndsWith(Lower(req.filename), ".eml") then Fail(400, "Only .eml files are supported")
    else if req.size.Some? && req.size.value > MaxEmlSize then Fail(400, "File size too large. Maximum size is 10MB")
    else Ok(())
  }

  predicate IsHtml(p: MimePart) {
    p.contentType == "text/html"
  }

  predicate IsPlain(p: MimePart) {
    p.contentType == "text/plain"
  }

  /** The (HTML, text) bodies the walk picks from `parts`, starting with text
      `text`: the first HTML part ends the walk, and a plain-text part is
      taken only while the text picked so far is empty. */
  function Picked(parts: seq<MimePart>, text: Option<string>): (Option<string>, Option<string>)
    decreases |parts|
  {
    if parts == [] then (None, text)
    else if IsHtml(parts[0]) then (Some(parts[0].content), text)
    else if IsPlain(parts[0]) && !Results.Truthy(text) then Picked(parts[1..], Some(parts[0].content))
    else Picked(parts[1..], text)
  }

  /** The HTML body is the content of the first HTML part. */
  lemma {:induction false} FirstHtmlWins(parts: seq<MimePart>, text: Option<string>, i: nat)
    requires i < |parts| && IsHtml(parts[i])
    requires forall j :: 0 <= j < i ==> !IsHtml(parts[j])
    ensures Picked(parts, text).0 == Some(parts[i].content)
    decreases i
  {
    if i > 0 {
      var t := if IsPlain(parts[0]) && !Results.Truthy(text) then Some(parts[0].content) else text;
      assert Picked(parts, text) == Picked(parts[1..], t);
      FirstHtmlWins(parts[1..], t, i - 1);
    }
  }

  /** Without an HTML part there is no HTML body. */
  lemma {:induction false} NoHtmlPart(parts: seq<MimePart>, text: Option<string>)
    requires forall j :: 0 <= j < |parts| ==> !IsHtml(parts[j])
    ensures Picked(parts, text).0 == None
    decreases |parts|
  {
    if parts != [] {
      var t := if IsPlain(parts[0]) && !Results.Truthy(text) then Some(parts[0].content) else text;
      NoHtmlPart(parts[1..], t);
    }
  }

  /** Once a non-empty text is picked it is kept. */
  lemma {:induction false} PickedTextKept(parts: seq<MimePart>, text: Option<string>)
    requires Results.Truthy(text)
    ensures Picked(parts, text).1 == text
    decreases |parts|
  {
    if parts != [] && !IsHtml(parts[0]) {
      PickedTextKept(parts[1..], text);
    }
  }

  /** The text body is the first non-empty plain-text part before any HTML
      part (empty plain-text parts before it are overwritten). */
  lemma {:induction false} FirstPlainWins(parts: seq<MimePart>, text: Option<string>, i: nat)
    requires !Results.Truthy(text)
    requires i < |parts| && IsPlain(parts[i]) && parts[i].content != []
    requires forall j :: 0 <= j < i ==> !IsHtml(parts[j]) && (IsPlain(parts[j]) ==> parts[j].content == [])
    ensures Picked(parts, text).1 == Some(parts[i].content)
    decreases i
  {
    if i == 0 {
      assert Picked(parts, text) == Picked(parts[1..], Some(parts[0].content));
      PickedTextKept(parts[1..], Some(parts[0].content));
    } else {
      var t := if IsPlain(parts[0]) then Some(parts[0].content) else text;
      assert Picked(parts, text) == Picked(parts[1..], t);
      FirstPlainWins(parts[1..], t, i - 1);
    }
  }

  /** The `msg.walk()` loop over a multipart message. */
  method PickBodies(parts: seq<MimePart>) returns (html: Option<string>, text: Option<string>)
    ensures (html, text) == Picked(parts, None)
  {
    html, text := None, None;
    var i := 0;
    while i < |parts|
      invariant 0 <= i <= |parts|
      invariant Picked(parts, None) == Picked(parts[i..], text)
    {
      var part := parts[i];
      assert parts[i..][1..] == parts[i + 1..];
      if part.contentType == "text/html" {
        html := Some(part.content);
        return;
      } else if part.contentType == "text/plain" && !Results.Truthy(text) {
        text := Some(part.content);
      }
      i := i + 1;
    }
  }

  /** The bodies found in a message, before any fallback. */
  function Bodies(m: EmlMessage): (Option<string>, Option<string>) {
    match m
    case Multipart(_, parts) => Picked(parts, None)
    case SinglePart(_, body) =>
      if IsHtml(body) then (Some(body.content), None)
      else if IsPlain(body) then (None, Some(body.content))
      else (None, None)
  }

  /** `<html><body><pre>{text}</pre></body></html>`. */
  function PreWrapped(text: string): (r: string)
    ensures |r| == 17 + |text| + 20
    ensures StartsWith(r, "<html><body><pre>") && EndsWith(r, "</pre></body></html>")
    ensures r[17..|r| - 20] == text
  {
    "<html><body><pre>" + text + "</pre></body></html>"
  }

  /** The bodies after the fallbacks: a text-only mail gets its text wrapped
      in `<pre>` as HTML, and an HTML-only mail gets `htmlToText` of its
      HTML as text. */
  function WithFallbacks(html: Option<string>, text: Option<string>, htmlToText: string -> string)
    : (r: (Option<string>, Option<string>))
    ensures Results.Truthy(r.0) <==> Results.Truthy(html) || Results.Truthy(text)
    ensures Results.Truthy(html) ==> r.0 == html
    ensures Results.Truthy(text) ==> r.1 == text
    ensures !Results.Truthy(html) && Results.Truthy(text) ==> r.0 == Some(PreWrapped(text.value))
    ensures Results.Truthy(html) && !Results.Truthy(text) ==> r.1 == Some(htmlToText(html.value))
    ensures !Results.Truthy(html) && !Results.Truthy(text) ==> r == (html, text)
  {
    var html' := if !Results.Truthy(html) && Results.Truthy(text) then Some(PreWrapped(text.value)) else html;
    var text' := if !Results.Truthy(text) && Results.Truthy(html') then Some(htmlToText(html'.value)) else text;
    (html', text')
  }

  /** `name if name else filename.replace('.eml', '')`. */
  function ImportedName(req: EmlImport): string {
    if Results.Truthy(req.name) then req.name.value else Replace(req.filename, ".eml", "")
  }

  /** A file name `stem.eml` whose stem holds no ".eml" names the template `stem`. */
  lemma {:induction false} ImportedNameFromFile(req: EmlImport, stem: string)
    requires !Results.Truthy(req.name) && req.filename == stem + ".eml"
    requires forall i :: 0 <= i < |stem| ==> !OccursAt(stem + ".eml", ".eml", i)
    ensures ImportedName(req) == stem
  {
    ReplaceSkip(stem, ".eml", ".eml", "");
    assert Replace(".eml", ".eml", "") == "" + Replace([], ".eml", "");
  }

  /** The extension is removed case-sensitively: an upload "a.EML" is
      accepted but keeps its extension in the name. */
  lemma UpperCaseExtensionKept()
    ensures CheckUpload(EmlImport("a.EML", None, None, None, "custom", false, true)).Ok?
    ensures ImportedName(EmlImport("a.EML", None, None, None, "custom", false, true)) == "a.EML"
  {
    var f := "a.EML";
    var low := Lower(f);
    assert low[0] == 'a' && low[1] == '.' && low[2] == 'e' && low[3] == 'm' && low[4] == 'l';
    assert low[|low| - 4..] == ".eml";
    assert f[0..4][0] == 'a';
    ReplaceHead(f, ".eml", "");
    assert f[1..][0..4][1] == 'E';
    ReplaceHead(f[1..], ".eml", "");
    assert [f[0]] + ([f[1]] + f[2..]) == f;
  }

  /** The row an import inserts, before the duplicate-name check: the parse
      error is reported as a 400. */
  function ImportDraft(req: EmlImport, parsed: Parsed, htmlToText: string -> string, id: int, userId: int, now: Time)
    : (r: Result<EmailTemplate>)
    ensures r.Fail? ==> r.code == 400
    ensures parsed.Unparsable? && CheckUpload(req).Ok? ==> r == Fail(400, ParseFailure + parsed.error)
    ensures r.Ok? ==>
      (parsed.Message? && r.value.userId == userId && r.value.name == ImportedName(req)
       && r.value.subject != [] && r.value.variables.None?
       && (r.value.htmlContent, r.value.textContent)
          == WithFallbacks(Bodies(parsed.msg).0, Bodies(parsed.msg).1, htmlToText))
    ensures r.Ok? <==> CheckUpload(req).Ok? && parsed.Message?
    ensures CheckUpload(req).Fail? ==> r == Fail(400, CheckUpload(req).detail)
    ensures r.Ok? ==>
      r.value.subject == (if parsed.msg.subject == [] then DefaultSubject else parsed.msg.subject)
      && r.value.description == Some(if Results.Truthy(req.description) then req.description.value
                                     else "Imported from " + req.filename)
      && r.value.id == id && r.value.templateType == req.templateType
      && r.value.isDemo == Some(req.isDemo) && r.value.isActive == req.isActive
      && r.value.createdAt == now && r.value.updatedAt == now
  {
    var _ :- CheckUpload(req);
    if parsed.Unparsable? then Fail(400, ParseFailure + parsed.error)
    else
      var m := parsed.msg;
      var subject := if m.subject == [] then DefaultSubject else m.subject;
      var bodies := Bodies(m);
      var (html, text) := WithFallbacks(bodies.0, bodies.1, htmlToText);
      var description := if Results.Truthy(req.description) then req.description.value
                         else "Imported from " + req.filename;
      Ok(EmailTemplate(id, ImportedName(req), Some(description), userId, subject, html, text,
                       Some(req.isDemo), req.templateType, None, req.isActive, now, now))
  }

  /** `str()` of an `HTTPException`: its status code, ": " and its detail. */
  function ExceptionText(code: int, detail: string): string {
    IntToString(code) + ": " + detail
  }

  /** The import as written: the duplicate-name `HTTPException` is raised
      inside the `try` and caught by its `except Exception`, so its detail
      reaches the client wrapped in the parse-failure message. */
  function ImportedAsWritten(templates: map<int, EmailTemplate>, userId: int, req: EmlImport, parsed: Parsed,
                             htmlToText: string -> string, id: int, now: Time): (r: Result<EmailTemplate>)
    ensures r.Fail? ==> r.code == 400
  {
    var t :- ImportDraft(req, parsed, htmlToText, id, userId, now);
    if NameTaken(templates, userId, t.name, None) then Fail(400, ParseFailure + ExceptionText(400, DuplicateImport))
    else Ok(t)
  }

  /** The import as evidently intended: a duplicate name is reported with its own message. */
  function Imported(templates: map<int, EmailTemplate>, userId: int, req: EmlImport, parsed: Parsed,
                    htmlToText: string -> string, id: int, now: Time): (r: Result<EmailTemplate>)
    ensures r.Fail? ==> r.code == 400
    ensures r.Ok? <==> ImportDraft(req, parsed, htmlToText, id, userId, now).Ok?
                       && !NameTaken(templates, userId, ImportedName(req), None)
    ensures ImportDraft(req, parsed, htmlToText, id, userId, now).Ok? && NameTaken(templates, userId, ImportedName(req), None) ==>
      r == Fail(400, DuplicateImport)
    ensures r.Ok? ==> r == ImportDraft(req, parsed, htmlToText, id, userId, now)
  {
    var t :- ImportDraft(req, parsed, htmlToText, id, userId, now);
    if NameTaken(templates, userId, t.name, None) then Fail(400, DuplicateImport)
    else Ok(t)
  }

  /** The two versions differ exactly in the detail of a duplicate-name rejection. */
  lemma DuplicateImportWrapped(templates: map<int, EmailTemplate>, userId: int, req: EmlImport, parsed: Parsed,
                               htmlToText: string -> string, id: int, now: Time)
    requires ImportDraft(req, parsed, htmlToText, id, userId, now).Ok?
    requires NameTaken(templates, userId, ImportedName(req), None)
    ensures ImportedAsWritten(templates, userId, req, parsed, htmlToText, id, now)
         == Fail(400, ParseFailure + "400: " + DuplicateImport)
    ensures Imported(templates, userId, req, parsed, htmlToText, id, now)
         == Fail(400, DuplicateImport)
  {
    assert NatToString(4) == "4";
    assert NatToString(40) == "4" + "0";
    assert NatToString(400) == "40" + "0";
    assert ExceptionText(400, DuplicateImport) == "400" + ": " + DuplicateImport;
    assert "400" + ": " == "400: ";
  }

  /** A text-only mail is imported with its text in `<pre>` as HTML. */
  lemma TextOnlyMailGetsPre(templates: map<int, EmailTemplate>, userId: int, req: EmlImport, text: string,
                            htmlToText: string -> string, id: int, now: Time)
    requires CheckUpload(req).Ok? && !NameTaken(templates, userId, ImportedName(req), None)
    requires text != []
    ensures var r := Imported(templates, userId, req, Message(SinglePart("", MimePart("text/plain", text))),
                              htmlToText, id, now);
      r.Ok? && r.value.subject == DefaultSubject
      && r.value.htmlContent == Some("<html><body><pre>" + text + "</pre></body></html>")
      && r.value.textContent == Some(text)
  {
    assert !IsHtml(MimePart("text/plain", text));
  }

  /** The message's bodies as the import handler settles them: the walk or
      the single part, then the two fallbacks. */
  method ImportBodies(m: EmlMessage, htmlToText: string -> string) returns (html: Option<string>, text: Option<string>)
    ensures (html, text) == WithFallbacks(Bodies(m).0, Bodies(m).1, htmlToText)
  {
    match m {
      case Multipart(_, parts) =>
        html, text := PickBodies(parts);
      case SinglePart(_, body) =>
        html, text := Bodies(m).0, Bodies(m).1;
    }
    if !Results.Truthy(html) && Results.Truthy(text) {
      html := Some(PreWrapped(text.value));
    }
    if !Results.Truthy(text) && Results.Truthy(html) {
      text := Some(htmlToText(html.value));
    }
  }

  /** The upload checks and the row the import would insert. */
  method DraftImport(req: EmlImport, parsed: Parsed, htmlToText: string -> string, id: int, userId: int, now: Time)
    returns (r: Result<EmailTemplate>)
    ensures r == ImportDraft(req, parsed, htmlToText, id, userId, now)
  {
    var check := CheckUpload(req);
    if check.Fail? {
      return check.PropagateFailure();
    }
    if parsed.Unparsable? {
      return Fail(400, ParseFailure + parsed.error);
    }
    var m := parsed.msg;
    var html, text := ImportBodies(m, htmlToText);
    var subject := if m.subject == [] then DefaultSubject else m.subject;
    var description := if Results.Truthy(req.description) then req.description.value
                       else "Imported from " + req.filename;
    r := Ok(EmailTemplate(id, ImportedName(req), Some(description), userId, subject, html, text,
                          Some(req.isDemo), req.templateType, None, req.isActive, now, now));
  }

  // ---------------------------------------------------------------------
  // The table

  predicate Visible(templates: map<int, EmailTemplate>, id: int, userId: int, isAdmin: bool) {
    id in templates && (templates[id].userId == userId || isAdmin)
  }

  class TemplateStore {
    var templates: map<int, EmailTemplate>
    var nextId: int

    /** Every template is stored under its own id, below the next id to give out. */
    ghost predicate Valid()
      reads this
    {
      nextId >= 1 && forall k :: k in templates ==> 1 <= k < nextId && templates[k].id == k
    }

    constructor ()
      ensures Valid() && templates == map[]
    {
      templates := map[];
      nextId := 1;
    }

    /** Stores a new row under the next id. */
    method Insert(t: EmailTemplate)
      requires Valid() && t.id == nextId
      modifies this
      ensures Valid() && nextId == old(nextId) + 1
      ensures old(nextId) !in old(templates) && templates == old(templates)[old(nextId) := t]
    {
      templates := templates[nextId := t];
      nextId := nextId + 1;
    }

    /** `POST /api/v1/email-templates/`. */
    method Create(userId: int, req: TemplateCreate, now: Time) returns (r: Result<EmailTemplate>)
      requires Valid()
      modifies this
      ensures Valid()
      ensures r == Created(old(templates), userId, req, old(nextId), now)
      ensures r.Fail? ==> templates == old(templates)
      ensures r.Ok? ==> old(nextId) !in old(templates) && templates == old(templates)[old(nextId) := r.value]
    {
      r := Created(templates, userId, req, nextId, now);
      if r.Fail? {
        return;
      }
      Insert(r.value);
    }

    /** `PUT /api/v1/email-templates/{id}`: the template must belong to the
        user or the user must be an admin; a new name must not be used by
        another template of the requesting user. */
    method Update(id: int, userId: int, isAdmin: bool, u: TemplateUpdate, now: Time) returns (r: Result<EmailTemplate>)
      requires Valid()
      modifies this
      ensures Valid() && nextId == old(nextId)
      ensures !Visible(old(templates), id, userId, isAdmin) ==>
        r == Fail(404, "Email template not found") && templates == old(templates)
      ensures Visible(old(templates), id, userId, isAdmin) && u.name.Some?
              && NameTaken(old(templates), userId, u.name.value, Some(id)) ==>
        r == Fail(400, DuplicateName) && templates == old(templates)
      ensures Visible(old(templates), id, userId, isAdmin)
              && !(u.name.Some? && NameTaken(old(templates), userId, u.name.value, Some(id))) ==>
        r == Ok(Applied(old(templates)[id], u, now))
        && templates == old(templates)[id := Applied(old(templates)[id], u, now)]
    {
      if !(id in templates && (templates[id].userId == userId || isAdmin)) {
        return Fail(404, "Email template not found");
      }
      if u.name.Some? && NameTaken(templates, userId, u.name.value, Some(id)) {
        return Fail(400, DuplicateName);
      }
      var t := Applied(templates[id], u, now);
      templates := templates[id := t];
      r := Ok(t);
    }

    /** `POST /api/v1/email-templates/import/eml`, with the duplicate name
        reported as intended (see `ImportedAsWritten`). */
    method ImportEml(userId: int, req: EmlImport, parsed: Parsed, htmlToText: string -> string, now: Time)
      returns (r: Result<EmailTemplate>)
      requires Valid()
      modifies this
      ensures Valid()
      ensures r == Imported(old(templates), userId, req, parsed, htmlToText, old(nextId), now)
      ensures r.Fail? ==> templates == old(templates)
      ensures r.Ok? ==> old(nextId) !in old(templates) && templates == old(templates)[old(nextId) := r.value]
    {
      var draft := DraftImport(req, parsed, htmlToText, nextId, userId, now);
      if draft.Fail? {
        return draft;
      }
      if NameTaken(templates, userId, draft.value.name, None) {
        return Fail(400, DuplicateImport);
      }
      Insert(draft.value);
      r := draft;
    }
  }
}
