/** The cloned-page side of the pipeline (routers/phishlet_router.py): form
    discovery on a cloned page, rewriting its relative links to absolute ones,
    the button-to-div rewrite, and serving a page with or without tracking
    instrumentation. Pages are parsed trees (see module Html); `urljoin` is a
    parameter. */
module Phishlet {
  import opened Wrappers
  import opened Text
  import opened Html
  import opened Tokens
  import Results

  /** `tag.get(key, default)`. */
  function AttrOr(attrs: Attrs, key: string, default: string): string {
    if key in attrs then attrs[key] else default
  }

  function AttrsOf(n: Node): Attrs {
    if n.Element? then n.attrs else map[]
  }

  function TagOf(n: Node): string {
    if n.Element? then n.tag else ""
  }

  // ---------------------------------------------------------------------
  // extract_form_fields (routers/phishlet_router.py:82-116)

  const FieldTags: set<string> := {"input", "textarea", "select", "button"}

  /** One descriptor of a form control. */
  datatype FormField = FormField(
    tag: string, fieldType: string, name: string, id: string, placeholder: string,
    required: bool, formAction: string, formMethod: string)

  /** The descriptor of control `field` inside `form`; missing attributes take
      their defaults and `required` only asks whether the attribute exists. */
  function Describe(form: Node, field: Node): FormField {
    var f := AttrsOf(field);
    FormField(TagOf(field), AttrOr(f, "type", "text"), AttrOr(f, "name", ""), AttrOr(f, "id", ""),
              AttrOr(f, "placeholder", ""), "required" in f,
              AttrOr(AttrsOf(form), "action", ""), Lower(AttrOr(AttrsOf(form), "method", "get")))
  }

  /** The defaults of one descriptor, spelled out by presence of each
      attribute: a missing `type` reads "text", a missing `name`, `id` or
      `placeholder` reads "", and `required` holds exactly when the attribute
      exists, even with an empty value. */
  lemma DescribeDefaults(form: Node, field: Node)
    ensures var d, a := Describe(form, field), AttrsOf(field);
      (d.fieldType == if "type" in a then a["type"] else "text")
      && (d.name == if "name" in a then a["name"] else "")
      && (d.id == if "id" in a then a["id"] else "")
      && (d.placeholder == if "placeholder" in a then a["placeholder"] else "")
      && (d.required <==> "required" in a)
      && (field.Element? && "required" in field.attrs && field.attrs["required"] == "" ==> d.required)
  {
  }

  /** The controls of a form, in document order. */
  function Controls(form: Node): seq<Node> {
    if form.Element? then FindAll(form.children, FieldTags) else []
  }

  /** One descriptor per control, each carrying its control's tag, its own
      attributes with their defaults (`type` "text", `name`, `id` and
      `placeholder` empty), `required` exactly when that attribute is present
      whatever its value, and its form's action and (lower-cased) method. */
  function DescribeAll(form: Node): (ds: seq<FormField>)
    ensures |ds| == |Controls(form)|
    ensures forall k :: 0 <= k < |ds| ==>
      ds[k].tag == TagOf(Controls(form)[k])
      && ds[k].formAction == AttrOr(AttrsOf(form), "action", "")
      && ds[k].formMethod == Lower(AttrOr(AttrsOf(form), "method", "get"))
    ensures forall k :: 0 <= k < |ds| ==>
      ds[k].fieldType == AttrOr(AttrsOf(Controls(form)[k]), "type", "text")
      && ds[k].name == AttrOr(AttrsOf(Controls(form)[k]), "name", "")
      && ds[k].id == AttrOr(AttrsOf(Controls(form)[k]), "id", "")
      && ds[k].placeholder == AttrOr(AttrsOf(Controls(form)[k]), "placeholder", "")
      && (ds[k].required <==> "required" in AttrsOf(Controls(form)[k]))
  {
    var cs := Controls(form);
    seq(|cs|, k requires 0 <= k < |cs| => Describe(form, cs[k]))
  }

  /** The descriptors of every control of every form, form after form. */
  function FieldsOf(forms: seq<Node>): seq<FormField> {
    if forms == [] then []
    else FieldsOf(forms[..|forms| - 1]) + DescribeAll(forms[|forms| - 1])
  }

  /** The forms of a page, nested ones included, in document order. */
  function Forms(doc: seq<Node>): seq<Node> {
    FindAll(doc, {"form"})
  }

  /** The inner loop of `extract_form_fields`: the descriptors of one form's
      controls, in order. */
  method DescribeForm(form: Node) returns (ds: seq<FormField>)
    ensures ds == DescribeAll(form)
  {
    var inputs := Controls(form);
    ds := [];
    var j := 0;
    while j < |inputs|
      invariant 0 <= j <= |inputs|
      invariant |ds| == j && forall k :: 0 <= k < j ==> ds[k] == Describe(form, inputs[k])
    {
      ds := ds + [Describe(form, inputs[j])];
      j := j + 1;
    }
  }

  /** `extract_form_fields`: one descriptor per control of each form. */
  method ExtractFormFields(doc: seq<Node>) returns (fields: seq<FormField>)
    ensures fields == FieldsOf(Forms(doc))
  {
    var forms := Forms(doc);
    fields := [];
    var i := 0;
    while i < |forms|
      invariant 0 <= i <= |forms|
      invariant fields == FieldsOf(forms[..i])
    {
      var ds := DescribeForm(forms[i]);
      fields := fields + ds;
      assert forms[..i + 1][..i] == forms[..i];
      i := i + 1;
    }
    assert forms[..i] == forms;
  }

  /** Every descriptor describes an `input`, `textarea`, `select` or `button`,
      and its method is in lower case. */
  lemma {:induction false} FieldsAreControls(forms: seq<Node>)
    ensures forall i :: 0 <= i < |FieldsOf(forms)| ==>
      FieldsOf(forms)[i].tag in FieldTags && Lower(FieldsOf(forms)[i].formMethod) == FieldsOf(forms)[i].formMethod
  {
    if forms != [] {
      var form := forms[|forms| - 1];
      FieldsAreControls(forms[..|forms| - 1]);
      if form.Element? {
        WithTagTags(Elements(form.children), FieldTags);
      }
      var ds := DescribeAll(form);
      forall k | 0 <= k < |ds|
        ensures ds[k].tag in FieldTags && Lower(ds[k].formMethod) == ds[k].formMethod
      {
        LowerIdempotent(AttrOr(AttrsOf(form), "method", "get"));
      }
    }
  }

  lemma LowerIdempotent(s: string)
    ensures Lower(Lower(s)) == Lower(s)
  {
  }

  /** Exactly one descriptor per control: the count is the sum over forms. */
  function ControlCount(forms: seq<Node>): nat {
    if forms == [] then 0 else ControlCount(forms[..|forms| - 1]) + |Controls(forms[|forms| - 1])|
  }

  lemma {:induction false} FieldsCount(forms: seq<Node>)
    ensures |FieldsOf(forms)| == ControlCount(forms)
  {
    if forms != [] {
      FieldsCount(forms[..|forms| - 1]);
    }
  }

  /** A page without forms yields no descriptors, whatever controls it has. */
  lemma NoFormsNoFields(doc: seq<Node>)
    requires forall i :: 0 <= i < |Elements(doc)| ==> TagOf(Elements(doc)[i]) != "form"
    ensures FieldsOf(Forms(doc)) == []
  {
    WithTagNone(Elements(doc), {"form"});
  }

  // ---------------------------------------------------------------------
  // convert_urls_to_absolute (routers/phishlet_router.py:118-141)

  const UrlTags: set<string> := {"img", "link", "script", "a", "form"}

  /** `urljoin(base, ref)`. */
  type Joiner = (string, string) -> string

  predicate IsHttpUrl(s: string) {
    StartsWith(s, "http://") || StartsWith(s, "https://")
  }

  /** A `src` that is kept as it is. */
  predicate SrcKept(v: string) {
    v == [] || IsHttpUrl(v) || StartsWith(v, "data:") || StartsWith(v, "#")
  }

  /** An `href` that is kept as it is. */
  predicate HrefKept(v: string) {
    SrcKept(v) || StartsWith(v, "mailto:") || StartsWith(v, "tel:")
  }

  /** An `action` that is kept as it is. */
  predicate ActionKept(v: string) {
    v == [] || IsHttpUrl(v)
  }

  /** `attrs[key] = urljoin(base, attrs[key])` unless the value is kept. */
  function ResolveAttr(attrs: Attrs, key: string, kept: bool, base: string, join: Joiner): Attrs {
    if key in attrs && !kept then attrs[key := join(base, attrs[key])] else attrs
  }

  /** The three rewrites applied to one element of a rewritten tag. */
  function AbsoluteAttrs(base: string, join: Joiner, a: Attrs): (r: Attrs)
    ensures r.Keys == a.Keys
    ensures forall k :: k in a && k != "src" && k != "href" && k != "action" ==> r[k] == a[k]
    ensures "src" in a ==> r["src"] == (if SrcKept(a["src"]) then a["src"] else join(base, a["src"]))
    ensures "href" in a ==> r["href"] == (if HrefKept(a["href"]) then a["href"] else join(base, a["href"]))
    ensures "action" in a ==> r["action"] == (if ActionKept(a["action"]) then a["action"] else join(base, a["action"]))
  {
    var a1 := ResolveAttr(a, "src", "src" in a && SrcKept(a["src"]), base, join);
    var a2 := ResolveAttr(a1, "href", "href" in a1 && HrefKept(a1["href"]), base, join);
    ResolveAttr(a2, "action", "action" in a2 && ActionKept(a2["action"]), base, join)
  }

  function UrlRule(base: string, join: Joiner): Rule {
    (t: string, a: Attrs) => (t, if t in UrlTags then AbsoluteAttrs(base, join, a) else a)
  }

  /** The attribute rewriting of `convert_urls_to_absolute`. */
  function ConvertUrlsToAbsolute(doc: seq<Node>, base: string, join: Joiner): seq<Node> {
    RewriteNodes(UrlRule(base, join), doc)
  }

  /** Element by element: the tag and the set of attributes are unchanged;
      `src`, `href` and `action` of the five rewritten tags are resolved
      against the base unless their own skip rule keeps them; every other
      attribute, and every attribute of any other tag, is unchanged. */
  lemma ConvertedElement(doc: seq<Node>, base: string, join: Joiner, i: nat)
    requires i < |Elements(doc)|
    ensures |Elements(ConvertUrlsToAbsolute(doc, base, join))| == |Elements(doc)|
    ensures var e := Elements(doc)[i];
      var e' := Elements(ConvertUrlsToAbsolute(doc, base, join))[i];
      e.Element? && e'.Element? && e'.tag == e.tag && e'.attrs.Keys == e.attrs.Keys
      && (forall k :: k in e.attrs && (e.tag !in UrlTags || (k != "src" && k != "href" && k != "action")) ==>
            e'.attrs[k] == e.attrs[k])
      && (e.tag in UrlTags && "src" in e.attrs && !SrcKept(e.attrs["src"]) ==>
            e'.attrs["src"] == join(base, e.attrs["src"]))
      && (e.tag in UrlTags && "href" in e.attrs && !HrefKept(e.attrs["href"]) ==>
            e'.attrs["href"] == join(base, e.attrs["href"]))
      && (e.tag in UrlTags && "action" in e.attrs && !ActionKept(e.attrs["action"]) ==>
            e'.attrs["action"] == join(base, e.attrs["action"]))
  {
    RewrittenElement(UrlRule(base, join), doc, i);
  }

  /** What `urljoin` does for a base with an `http`/`https` scheme: the result
      is an `http(s)` URL, or the reference itself when it carries a scheme
      the join leaves alone (`javascript:`, `ftp://` and the like). */
  ghost predicate ResolvesFrom(join: Joiner, base: string) {
    forall r :: IsHttpUrl(join(base, r)) || join(base, r) == r
  }

  lemma AbsoluteAttrsIdempotent(base: string, join: Joiner, a: Attrs)
    requires ResolvesFrom(join, base)
    ensures AbsoluteAttrs(base, join, AbsoluteAttrs(base, join, a)) == AbsoluteAttrs(base, join, a)
  {
    var once := AbsoluteAttrs(base, join, a);
    var twice := AbsoluteAttrs(base, join, once);
    forall k | k in once
      ensures twice[k] == once[k]
    {
      if k == "src" || k == "href" || k == "action" {
        var v := a[k];
        var w := join(base, v);
        assert IsHttpUrl(w) || w == v;
        if IsHttpUrl(w) {
          assert !StartsWith(w, "http://") ==> StartsWith(w, "https://");
        }
      }
    }
  }

  /** A second pass of the rewrite changes nothing. */
  lemma ConvertIdempotent(doc: seq<Node>, base: string, join: Joiner)
    requires ResolvesFrom(join, base)
    ensures ConvertUrlsToAbsolute(ConvertUrlsToAbsolute(doc, base, join), base, join)
         == ConvertUrlsToAbsolute(doc, base, join)
  {
    var rule := UrlRule(base, join);
    forall t, a
      ensures rule(rule(t, a).0, rule(t, a).1) == rule(t, a)
    {
      if t in UrlTags {
        AbsoluteAttrsIdempotent(base, join, a);
      }
    }
    RewriteIdempotent(rule, doc);
  }

  // ---------------------------------------------------------------------
  // replace_buttons_with_divs (routers/phishlet_router.py:744-776)

  /** The attributes the replacement `div` of a `button` gets. */
  function DivAttrs(a: Attrs): (r: Attrs)
    ensures "onclick" !in r
    ensures "onclick" in a ==> "data-orig-onclick" in r && r["data-orig-onclick"] == a["onclick"]
    ensures "role" in r && r["role"] == AttrOr(a, "role", "button")
    ensures "tabindex" in r <==> "tabindex" in a || "disabled" !in a
    ensures "tabindex" in r ==> r["tabindex"] == AttrOr(a, "tabindex", "0")
    ensures "disabled" in r <==> "disabled" in a
    ensures "disabled" in a ==> "aria-disabled" in r && r["aria-disabled"] == "true"
    ensures forall k :: k in a && k !in {"onclick", "role", "tabindex"}
                        && !(k == "data-orig-onclick" && "onclick" in a)
                        && !(k == "aria-disabled" && "disabled" in a) ==>
      k in r && r[k] == a[k]
    ensures forall k :: k in r ==> k in a || k in {"data-orig-onclick", "role", "tabindex", "aria-disabled"}
  {
    var copied := map k | k in a && k != "onclick" :: a[k];
    var moved := if "onclick" in a then copied["data-orig-onclick" := a["onclick"]] else copied;
    var withRole := if "role" in moved then moved else moved["role" := "button"];
    var withTab := if "tabindex" in withRole || "disabled" in withRole then withRole else withRole["tabindex" := "0"];
    if "disabled" in withTab then withTab["aria-disabled" := "true"] else withTab
  }

  function ButtonRule(): Rule {
    (t: string, a: Attrs) => if t == "button" then ("div", DivAttrs(a)) else (t, a)
  }

  function ReplaceButtonsWithDivs(doc: seq<Node>): seq<Node> {
    RewriteNodes(ButtonRule(), doc)
  }

  /** Each button becomes a `div` with the attributes above and keeps its
      children; nothing else changes, and no button is left. */
  lemma ButtonsReplaced(doc: seq<Node>, i: nat)
    requires i < |Elements(doc)|
    ensures |Elements(ReplaceButtonsWithDivs(doc))| == |Elements(doc)|
    ensures var e := Elements(doc)[i];
      var e' := Elements(ReplaceButtonsWithDivs(doc))[i];
      e.Element? && e'.Element? && e'.tag != "button"
      && (e.tag == "button" ==> e'.tag == "div" && e'.attrs == DivAttrs(e.attrs))
      && (e.tag != "button" ==> e'.tag == e.tag && e'.attrs == e.attrs)
  {
    RewrittenElement(ButtonRule(), doc, i);
  }

  // ---------------------------------------------------------------------
  // tracked serving (routers/phishlet_router.py:827-876)

  const TriggerTags: set<string> := {"button", "a", "h1"}
  const TrackSubmitPath: string := "/api/v1/track/f2/"

  /** The text of the injected script around its one varying part, the URL it
      posts the collected fields to; the JavaScript itself is abbreviated. */
  const ScriptPrefix: string := "function sendFormData() { /* collect input, select and textarea values into {fields: ...} */ fetch(\""
  const ScriptSuffix: string := "\", { method: \"POST\", headers: { \"Content-Type\": \"application/json\" }, body: JSON.stringify(payload) }); }"

  function CaptureScript(backend: string, campaignId: int, targetId: int): string {
    ScriptPrefix + backend + TrackSubmitPath + PairToken(campaignId, targetId) + ScriptSuffix
  }

  function ScriptElement(backend: string, campaignId: int, targetId: int): Node {
    Element("script", map[], [Text(CaptureScript(backend, campaignId, targetId))])
  }

  /** The script posts to the tracker with the pair it was served for, and the
      tracker accepts that pair. */
  lemma ScriptPostsPair(backend: string, campaignId: int, targetId: int)
    ensures OccursAt(CaptureScript(backend, campaignId, targetId),
                     backend + TrackSubmitPath + PairToken(campaignId, targetId), |ScriptPrefix|)
    ensures DecodePairToken(PairToken(campaignId, targetId)) == Ok((campaignId, targetId))
  {
    var url := backend + TrackSubmitPath + PairToken(campaignId, targetId);
    assert CaptureScript(backend, campaignId, targetId) == ScriptPrefix + url + ScriptSuffix;
    OccursAfter(ScriptPrefix, url, ScriptSuffix);
    DecodePairTokenRoundTrip(campaignId, targetId);
  }

  /** The script goes at the end of the first `body`, else of the first
      `head`, else of the document. */
  function PlaceScript(doc: seq<Node>, script: Node): seq<Node> {
    if FindFirst(doc, "body").Some? then AppendToFirst(doc, "body", script)
    else if FindFirst(doc, "head").Some? then AppendToFirst(doc, "head", script)
    else doc + [script]
  }

  lemma PlaceScriptWhere(doc: seq<Node>, script: Node)
    ensures FindFirst(doc, "body").Some? ==>
      FindFirst(doc, "body").value.Element?
      && FindFirst(PlaceScript(doc, script), "body") == Some(WithChild(FindFirst(doc, "body").value, script))
    ensures FindFirst(doc, "body").None? && FindFirst(doc, "head").Some? ==>
      FindFirst(doc, "head").value.Element?
      && FindFirst(PlaceScript(doc, script), "head") == Some(WithChild(FindFirst(doc, "head").value, script))
    ensures FindFirst(doc, "body").None? && FindFirst(doc, "head").None? ==>
      PlaceScript(doc, script) == doc + [script]
    ensures |Elements(PlaceScript(doc, script))| == |Elements(doc)| + |ElementsOf(script)|
  {
    if FindFirst(doc, "body").Some? {
      AppendToFirstFound(doc, "body", script);
      AppendToFirstCount(doc, "body", script);
    } else if FindFirst(doc, "head").Some? {
      AppendToFirstFound(doc, "head", script);
      AppendToFirstCount(doc, "head", script);
    } else {
      ElementsAppend(doc, [script]);
      assert [script][1..] == [];
    }
  }

  function OnclickRule(): Rule {
    (t: string, a: Attrs) => (t, if t in TriggerTags then a["onclick" := "sendFormData()"] else a)
  }

  /** The page served for a tracked link. */
  function Instrument(doc: seq<Node>, backend: string, campaignId: int, targetId: int): seq<Node> {
    RewriteNodes(OnclickRule(), PlaceScript(doc, ScriptElement(backend, campaignId, targetId)))
  }

  /** A tracked page holds exactly one more element than the stored page (the
      script); every `button`, `a` and `h1` calls `sendFormData()` on click,
      whatever `onclick` it had, and every other element is as placed. */
  lemma InstrumentedElement(doc: seq<Node>, backend: string, campaignId: int, targetId: int, i: nat)
    requires i < |Elements(Instrument(doc, backend, campaignId, targetId))|
    ensures |Elements(Instrument(doc, backend, campaignId, targetId))| == |Elements(doc)| + 1
    ensures |Elements(PlaceScript(doc, ScriptElement(backend, campaignId, targetId)))| == |Elements(doc)| + 1
    ensures var placed := PlaceScript(doc, ScriptElement(backend, campaignId, targetId));
      var e := Elements(placed)[i];
      var e' := Elements(Instrument(doc, backend, campaignId, targetId))[i];
      e.Element? && e'.Element? && e'.tag == e.tag
      && (e.tag in TriggerTags ==> e'.attrs == e.attrs["onclick" := "sendFormData()"])
      && (e.tag !in TriggerTags ==> e'.attrs == e.attrs)
  {
    var script := ScriptElement(backend, campaignId, targetId);
    PlaceScriptWhere(doc, script);
    assert |ElementsOf(script)| == 1 by {
      assert Elements([Text(CaptureScript(backend, campaignId, targetId))]) == [];
    }
    var placed := PlaceScript(doc, script);
    ElementsOfRewrite(OnclickRule(), placed);
    RewrittenElement(OnclickRule(), placed, i);
  }

  // ---------------------------------------------------------------------
  // serve_phishlet (routers/phishlet_router.py:780-894)

  /** A stored phishlet: its serving handle (`url_id`), its `clone_url`, and
      its parsed page; `None` when `html_content` is empty or missing. */
  datatype StoredPhishlet = StoredPhishlet(urlId: string, cloneUrl: string, page: Option<seq<Node>>)

  /** `clone_url` as set when a page is cloned (routers/phishlet_router.py:323, 490). */
  function CloneUrl(backend: string, urlId: string): string {
    backend + "/api/v1/phishlets/serve/" + urlId
  }

  datatype ServeResponse = Page(doc: seq<Node>) | Error(status: int, detail: string)

  /** The response once the token is read: look the handle up, refuse a
      missing phishlet or an empty page, instrument a tracked visit. */
  function ServeOutcome(phishlets: map<string, StoredPhishlet>, handle: string,
                        tracked: Option<(int, int)>, backend: string): (r: ServeResponse)
    ensures r.Error? <==> handle !in phishlets || phishlets[handle].page.None?
    ensures r.Error? ==> r.status == 404
    ensures r.Page? && tracked.None? ==> r.doc == phishlets[handle].page.value
  {
    if handle !in phishlets then Error(404, "Phishlet not found")
    else match phishlets[handle].page
      case None => Error(404, "Phishlet has no HTML content")
      case Some(doc) =>
        match tracked
        case None => Page(doc)
        case Some((c, t)) => Page(Instrument(doc, backend, c, t))
  }

  /** `GET /api/v1/phishlets/serve/{url_id}`. A tracked visit records the
      click before the phishlet is looked up, so it is recorded even when the
      response is a 404; an unparsable id in a three-segment token is an
      unhandled error (500) before anything is written. */
  method ServePhishlet(table: Results.ResultsTable, phishlets: map<string, StoredPhishlet>,
                       urlId: string, backend: string, now: Results.Time)
    returns (resp: ServeResponse)
    modifies table
    ensures table.events == old(table.events)
    ensures match DecodeServeToken(urlId)
      case BadIds =>
        resp == Error(500, "invalid literal for int()") && table.rows == old(table.rows)
      case Untracked(h) =>
        resp == ServeOutcome(phishlets, h, None, backend) && table.rows == old(table.rows)
      case Tracked(h, c, t) =>
        resp == ServeOutcome(phishlets, h, Some((c, t)), backend)
        && table.rows == (if (c, t) in old(table.rows)
                          then old(table.rows)[(c, t) := Results.Clicked(old(table.rows)[(c, t)], now)]
                          else old(table.rows))
  {
    var urlContents := Split(urlId, Delimiter);
    var tracked: Option<(int, int)> := None;
    if |urlContents| == 3 {
      var campaignId := ParseInt(urlContents[1]);
      var trackerId := ParseInt(urlContents[2]);
      if campaignId.None? || trackerId.None? {
        return Error(500, "invalid literal for int()");
      }
      var key := (campaignId.value, trackerId.value);
      if key in table.rows {
        var row := table.rows[key];
        table.rows := table.rows[key := row.(linkClicked := true,
                                             linkClickedAt := Some(row.emailOpenedAt.GetOr(now)))];
      }
      tracked := Some(key);
    }
    var handle := urlContents[0];
    if handle !in phishlets {
      return Error(404, "Phishlet not found");
    }
    var phishlet := phishlets[handle];
    if phishlet.page.None? {
      return Error(404, "Phishlet has no HTML content");
    }
    var soup := phishlet.page.value;
    if tracked.Some? {
      var script := ScriptElement(backend, tracked.value.0, tracked.value.1);
      if FindFirst(soup, "body").Some? {
        soup := AppendToFirst(soup, "body", script);
      } else if FindFirst(soup, "head").Some? {
        soup := AppendToFirst(soup, "head", script);
      } else {
        soup := soup + [script];
      }
      soup := RewriteNodes(OnclickRule(), soup);
    }
    resp := Page(soup);
  }

  /** Following a dispatched link serves the stored page of that phishlet,
      instrumented for the recipient it was sent to. */
  lemma TrackedLinkServesInstrumented(phishlets: map<string, StoredPhishlet>, handle: string,
                                      campaignId: int, targetId: int, backend: string)
    requires IsHandle(handle) && handle in phishlets && phishlets[handle].page.Some?
    ensures DecodeServeToken(TrackedToken(handle, campaignId, targetId)) == Tracked(handle, campaignId, targetId)
    ensures ServeOutcome(phishlets, handle, Some((campaignId, targetId)), backend)
         == Page(Instrument(phishlets[handle].page.value, backend, campaignId, targetId))
  {
    DecodeTrackedToken(handle, campaignId, targetId);
  }
}
