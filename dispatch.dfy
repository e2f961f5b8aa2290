/** Campaign dispatch (`send_email`, routers/campaigns_router.py:626-829):
    resolve the campaign's sender, template, optional phishlet and
    attachment, and its active recipients; then, recipient by recipient,
    build the mail (attachment in preference to phishlet, the tracked link
    `clone_url*cid*tid` in place of every `{{PHISHLET_URL}}`, and the
    `cid*tid` open pixel appended), hand it to the mailer, and on success
    log a sent event and mark the result row sent. Mailer failures are
    collected and do not stop the loop; a failure while building a mail
    aborts the request. */
module Dispatch {
  import opened Wrappers
  import opened Text
  import Json
  import Tokens
  import Results
  import Campaigns
  import SenderProfiles
  import EmailTemplates
  import Phishlet

  type Time = Results.Time

  datatype Target = Target(id: int, email: string, groupId: Option<int>, isActive: bool)

  /** An attachment row; `readError` is the message of the exception raised
      when its file cannot be opened or read. */
  datatype Attachment = Attachment(name: string, fileType: Option<string>, readError: Option<string>)

  /** The tables `send_email` reads. Targets are in table order. */
  datatype Directory = Directory(
    campaigns: map<int, Campaigns.Campaign>,
    senders: map<int, SenderProfiles.SenderProfile>,
    templates: map<int, EmailTemplates.EmailTemplate>,
    phishlets: map<int, Phishlet.StoredPhishlet>,
    attachments: map<int, Attachment>,
    groups: set<int>,
    targets: seq<Target>)

  /** Everything resolved before the first mail is built. */
  datatype Plan = Plan(
    campaign: Campaigns.Campaign, sender: SenderProfiles.SenderProfile,
    template: EmailTemplates.EmailTemplate, phishlet: Option<Phishlet.StoredPhishlet>,
    attachment: Option<Attachment>, recipients: seq<Target>)

  // ---------------------------------------------------------------------
  // Recipients (routers/campaigns_router.py:662-691)

  /** `db(db.targets.id == id).select().first()`. */
  function FindTarget(targets: seq<Target>, id: int): (r: Option<Target>)
    ensures r.Some? ==> r.value in targets && r.value.id == id
    ensures r.None? ==> forall t | t in targets :: t.id != id
  {
    if targets == [] then None
    else if targets[0].id == id then Some(targets[0])
    else FindTarget(targets[1..], id)
  }

  /** The targets of a list of ids that exist and are active, one per listed
      id, in list order (a repeated id is mailed again). */
  function ActiveOf(targets: seq<Target>, ids: seq<int>): seq<Target> {
    if ids == [] then []
    else
      var prev := ActiveOf(targets, ids[..|ids| - 1]);
      match FindTarget(targets, ids[|ids| - 1])
      case Some(t) => if t.isActive then prev + [t] else prev
      case None => prev
  }

  /** A target is chosen exactly when it is active and some listed id finds it. */
  lemma {:induction false} ActiveOfMembers(targets: seq<Target>, ids: seq<int>, t: Target)
    ensures t in ActiveOf(targets, ids) <==>
      t.isActive && exists i :: 0 <= i < |ids| && FindTarget(targets, ids[i]) == Some(t)
  {
    if ids != [] {
      var init := ids[..|ids| - 1];
      ActiveOfMembers(targets, init, t);
      if exists i :: 0 <= i < |init| && FindTarget(targets, init[i]) == Some(t) {
        var i :| 0 <= i < |init| && FindTarget(targets, init[i]) == Some(t);
        assert ids[i] == init[i];
      }
      if exists i :: 0 <= i < |ids| && FindTarget(targets, ids[i]) == Some(t) {
        var i :| 0 <= i < |ids| && FindTarget(targets, ids[i]) == Some(t);
        if i < |init| {
          assert init[i] == ids[i];
        }
      }
    }
  }

  /** The loop over the listed ids. */
  method ResolveIndividuals(targets: seq<Target>, ids: seq<int>) returns (chosen: seq<Target>)
    ensures chosen == ActiveOf(targets, ids)
  {
    chosen := [];
    for i := 0 to |ids|
      invariant chosen == ActiveOf(targets, ids[..i])
    {
      assert ids[..i + 1][..i] == ids[..i];
      var found := FindTarget(targets, ids[i]);
      if found.Some? && found.value.isActive {
        chosen := chosen + [found.value];
      }
    }
    assert ids[..|ids|] == ids;
  }

  /** `[t for t in group_targets if t.is_active]`. */
  function GroupMembers(targets: seq<Target>, groupId: int): (r: seq<Target>)
    ensures forall t :: t in r <==> t in targets && t.groupId == Some(groupId) && t.isActive
    ensures |r| <= |targets|
  {
    if targets == [] then []
    else
      var t := targets[0];
      (if t.groupId == Some(groupId) && t.isActive then [t] else []) + GroupMembers(targets[1..], groupId)
  }

  /** The recipients of a campaign: its listed individuals, or the active
      members of its group. */
  function Recipients(d: Directory, c: Campaigns.Campaign): (r: Result<seq<Target>>)
    ensures r.Fail? ==>
      (c.targetType == "individual" && c.targetIndividuals.Unreadable?
       && r == Fail(400, "Invalid target individuals format"))
      || (c.targetType != "individual" && !(c.targetGroupId.Some? && c.targetGroupId.value in d.groups)
          && r == Fail(404, "Target group not found"))
    ensures r.Ok? ==> forall t | t in r.value :: t.isActive && t in d.targets
    ensures c.targetType == "individual" && c.targetIndividuals.NoIds? ==> r == Ok([])
    ensures c.targetType == "individual" && c.targetIndividuals.Ids? ==>
      r == Ok(ActiveOf(d.targets, c.targetIndividuals.ids))
    ensures c.targetType != "individual" && c.targetGroupId.Some? && c.targetGroupId.value in d.groups ==>
      r == Ok(GroupMembers(d.targets, c.targetGroupId.value))
  {
    if c.targetType == "individual" then
      match c.targetIndividuals
      case Unreadable => Fail(400, "Invalid target individuals format")
      case NoIds => Ok([])
      case Ids(ids) =>
        var chosen := ActiveOf(d.targets, ids);
        assert forall t | t in chosen :: t.isActive && t in d.targets by {
          forall t | t in chosen ensures t.isActive && t in d.targets {
            ActiveOfMembers(d.targets, ids, t);
          }
        }
        Ok(chosen)
    else if c.targetGroupId.Some? && c.targetGroupId.value in d.groups then
      Ok(GroupMembers(d.targets, c.targetGroupId.value))
    else Fail(404, "Target group not found")
  }

  // ---------------------------------------------------------------------
  // Validation (routers/campaigns_router.py:626-699)

  /** The phishlet row, when the campaign names one that exists. */
  function PhishletOf(d: Directory, c: Campaigns.Campaign): Option<Phishlet.StoredPhishlet> {
    if Campaigns.Set(c.phishletId) && c.phishletId.value in d.phishlets then Some(d.phishlets[c.phishletId.value])
    else None
  }

  function AttachmentOf(d: Directory, c: Campaigns.Campaign): Option<Attachment> {
    if Campaigns.Set(c.attachmentId) && c.attachmentId.value in d.attachments then Some(d.attachments[c.attachmentId.value])
    else None
  }

  /** A campaign that passes every check of `send_email`: its sender and
      template exist, its recipients resolve to a non-empty list, and the
      sender has SMTP credentials. */
  predicate ReadyToSend(d: Directory, c: Campaigns.Campaign) {
    c.senderProfileId in d.senders && c.emailTemplateId in d.templates
    && Recipients(d, c).Ok? && Recipients(d, c).value != []
    && Results.Truthy(d.senders[c.senderProfileId].smtpUsername)
    && Results.Truthy(d.senders[c.senderProfileId].smtpPassword)
  }

  /** The checks made before any mail is sent, in the handler's order. */
  function Prepare(d: Directory, campaignId: Option<int>): (r: Result<Plan>)
    ensures r.Fail? ==> r.code == 400 || r.code == 404
    ensures !Campaigns.Set(campaignId) ==> r == Fail(400, "Campaign ID is required")
    ensures Campaigns.Set(campaignId) && campaignId.value !in d.campaigns ==> r == Fail(404, "Campaign not found")
    ensures r.Ok? ==>
      campaignId.Some? && campaignId.value in d.campaigns
      && r.value.campaign == d.campaigns[campaignId.value]
      && r.value.recipients != []
      && (forall t | t in r.value.recipients :: t.isActive && t in d.targets)
      && Results.Truthy(r.value.sender.smtpUsername) && Results.Truthy(r.value.sender.smtpPassword)
      && r.value.phishlet == PhishletOf(d, r.value.campaign)
      && r.value.attachment == AttachmentOf(d, r.value.campaign)
    ensures r.Ok? <==>
      Campaigns.Set(campaignId) && campaignId.value in d.campaigns
      && ReadyToSend(d, d.campaigns[campaignId.value])
    ensures r.Ok? ==>
      var c := d.campaigns[campaignId.value];
      r.value.recipients == Recipients(d, c).value
      && r.value.sender == d.senders[c.senderProfileId]
      && r.value.template == d.templates[c.emailTemplateId]
    ensures Campaigns.Set(campaignId) && campaignId.value in d.campaigns ==>
      var c := d.campaigns[campaignId.value];
      (c.senderProfileId !in d.senders ==> r == Fail(404, "Sender profile not found"))
      && (c.senderProfileId in d.senders && c.emailTemplateId !in d.templates ==>
            r == Fail(404, "Email template not found"))
      && (c.senderProfileId in d.senders && c.emailTemplateId in d.templates && Recipients(d, c).Fail? ==>
            r == Fail(Recipients(d, c).code, Recipients(d, c).detail))
      && (c.senderProfileId in d.senders && c.emailTemplateId in d.templates && Recipients(d, c) == Ok([]) ==>
            r == Fail(400, "No active targets found"))
      && (c.senderProfileId in d.senders && c.emailTemplateId in d.templates
          && Recipients(d, c).Ok? && Recipients(d, c).value != []
          && !(Results.Truthy(d.senders[c.senderProfileId].smtpUsername)
               && Results.Truthy(d.senders[c.senderProfileId].smtpPassword)) ==>
            r == Fail(400, "Invalid SMTP credentials"))
  {
    if !Campaigns.Set(campaignId) then Fail(400, "Campaign ID is required")
    else if campaignId.value !in d.campaigns then Fail(404, "Campaign not found")
    else
      var c := d.campaigns[campaignId.value];
      if c.senderProfileId !in d.senders then Fail(404, "Sender profile not found")
      else if c.emailTemplateId !in d.templates then Fail(404, "Email template not found")
      else
        var recipients :- Recipients(d, c);
        var sender := d.senders[c.senderProfileId];
        if recipients == [] then Fail(400, "No active targets found")
        else if !Results.Truthy(sender.smtpUsername) || !Results.Truthy(sender.smtpPassword) then
          Fail(400, "Invalid SMTP credentials")
        else Ok(Plan(c, sender, d.templates[c.emailTemplateId], PhishletOf(d, c), AttachmentOf(d, c), recipients))
  }

  /** The validation steps as the handler runs them. */
  method PrepareSend(d: Directory, campaignId: Option<int>) returns (r: Result<Plan>)
    ensures r == Prepare(d, campaignId)
  {
    if !Campaigns.Set(campaignId) {
      return Fail(400, "Campaign ID is required");
    }
    if campaignId.value !in d.campaigns {
      return Fail(404, "Campaign not found");
    }
    var c := d.campaigns[campaignId.value];
    if c.senderProfileId !in d.senders {
      return Fail(404, "Sender profile not found");
    }
    if c.emailTemplateId !in d.templates {
      return Fail(404, "Email template not found");
    }
    var recipients: seq<Target>;
    if c.targetType == "individual" {
      match c.targetIndividuals {
        case Unreadable =>
          return Fail(400, "Invalid target individuals format");
        case NoIds =>
          recipients := [];
        case Ids(ids) =>
          recipients := ResolveIndividuals(d.targets, ids);
      }
    } else {
      if !(c.targetGroupId.Some? && c.targetGroupId.value in d.groups) {
        return Fail(404, "Target group not found");
      }
      recipients := GroupMembers(d.targets, c.targetGroupId.value);
    }
    assert Recipients(d, c) == Ok(recipients);
    if recipients == [] {
      return Fail(400, "No active targets found");
    }
    var sender := d.senders[c.senderProfileId];
    if !Results.Truthy(sender.smtpUsername) || !Results.Truthy(sender.smtpPassword) {
      return Fail(400, "Invalid SMTP credentials");
    }
    r := Ok(Plan(c, sender, d.templates[c.emailTemplateId], PhishletOf(d, c), AttachmentOf(d, c), recipients));
  }

  // ---------------------------------------------------------------------
  // One mail (routers/campaigns_router.py:704-746)

  datatype Mail = Mail(from: string, to: string, subject: string, plain: string, html: string)

  const Placeholder := "{{PHISHLET_URL}}"
  const AttachFailure := "Failed to attach file: "
  /** The response to an exception the handler does not catch. */
  const InternalError := "Internal Server Error"

  /** An optional text inside an f-string: None is written "None". */
  function Rendered(s: Option<string>): string {
    if s.Some? then s.value else "None"
  }

  /** `f"{clone_url}*{campaign_id}*{target_id}"`. */
  function PhishletLink(p: Phishlet.StoredPhishlet, campaignId: int, targetId: int): string {
    p.cloneUrl + [Tokens.Delimiter] + IntToString(campaignId) + [Tokens.Delimiter] + IntToString(targetId)
  }

  function PixelUrl(backend: string, campaignId: int, targetId: int): string {
    backend + "/api/v1/track/f1/" + Tokens.PairToken(campaignId, targetId)
  }

  /** The HTML body with the open pixel appended, as the handler's
      triple-quoted f-string lays it out. */
  function WithPixel(body: string, backend: string, campaignId: int, targetId: int): string {
    "\n            " + body + "\n            <br>\n            <img width=\"1\" height=\"1\" src=\""
    + PixelUrl(backend, campaignId, targetId) + "\">\n        "
  }

  /** Reading the attachment and splitting its MIME type into two halves. */
  function CheckAttachment(a: Attachment): (r: Result<()>)
    ensures r.Ok? <==> a.readError.None? && a.fileType.Some? && '/' in a.fileType.value
    ensures r.Fail? ==> r.code == 500 && StartsWith(r.detail, AttachFailure)
  {
    if a.readError.Some? then Fail(500, AttachFailure + a.readError.value)
    else if a.fileType.None? then Fail(500, AttachFailure + "'NoneType' object has no attribute 'split'")
    else if '/' !in a.fileType.value then Fail(500, AttachFailure + "not enough values to unpack (expected 2, got 1)")
    else Ok(())
  }

  /** The (plain, HTML) bodies before the pixel: the attachment branch keeps
      the template's bodies, the phishlet branch adds the untracked link to
      the plain body and the tracked link in place of the placeholder. */
  function Bodies(plan: Plan, t: Target): Result<(Option<string>, Option<string>)>
  {
    var tpl := plan.template;
    if plan.attachment.Some? then
      var _ :- CheckAttachment(plan.attachment.value);
      Ok((tpl.textContent, tpl.htmlContent))
    else if plan.phishlet.Some? then
      var p := plan.phishlet.value;
      var plain := Rendered(tpl.textContent) + "\n\nClick here: " + p.cloneUrl;
      if tpl.htmlContent.None? then Fail(500, InternalError)
      else Ok((Some(plain), Some(Replace(tpl.htmlContent.value, Placeholder, PhishletLink(p, plan.campaign.id, t.id)))))
    else Ok((tpl.textContent, tpl.htmlContent))
  }

  /** The mail for one recipient, or the error that aborts the request. */
  function Compose(plan: Plan, backend: string, t: Target): Result<Mail> {
    var bodies :- Bodies(plan, t);
    if bodies.0.None? then Fail(500, InternalError)
    else
      var subject := if plan.template.subject == [] then "No Subject" else plan.template.subject;
      Ok(Mail(plan.sender.fromAddress, t.email, subject, bodies.0.value,
              WithPixel(Rendered(bodies.1), backend, plan.campaign.id, t.id)))
  }

  /** Every error while composing is a 500; a composed mail goes from the
      sender profile's address to the recipient, has a subject, and carries
      the recipient's open pixel. */
  lemma ComposeShape(plan: Plan, backend: string, t: Target)
    ensures Compose(plan, backend, t).Fail? ==> Compose(plan, backend, t).code == 500
    ensures Compose(plan, backend, t).Ok? ==>
      var m := Compose(plan, backend, t).value;
      m.to == t.email && m.from == plan.sender.fromAddress && m.subject != []
      && Contains(m.html, PixelUrl(backend, plan.campaign.id, t.id))
  {
    var bodies := Bodies(plan, t);
    if bodies.Ok? {
      PixelInside(Rendered(bodies.value.1), backend, plan.campaign.id, t.id);
    }
  }

  /** A recipient's mail cannot be built exactly when the attachment cannot
      be read or split, or the body the chosen branch needs is missing: the
      plain text with an attachment or without a phishlet, the HTML with a
      phishlet. */
  lemma ComposeFailsIff(plan: Plan, backend: string, t: Target)
    ensures Compose(plan, backend, t).Fail? <==>
      (plan.attachment.Some? && (CheckAttachment(plan.attachment.value).Fail? || plan.template.textContent.None?))
      || (plan.attachment.None? && plan.phishlet.Some? && plan.template.htmlContent.None?)
      || (plan.attachment.None? && plan.phishlet.None? && plan.template.textContent.None?)
  {
  }

  /** An HTML-only template, which template creation accepts, sent without a
      phishlet or attachment fails at the first recipient with a 500. */
  lemma HtmlOnlyTemplateAborts(plan: Plan, backend: string, t: Target)
    requires plan.attachment.None? && plan.phishlet.None?
    requires plan.template.textContent.None? && plan.template.htmlContent.Some?
    ensures Compose(plan, backend, t) == Fail(500, InternalError)
  {
  }

  lemma PixelInside(body: string, backend: string, campaignId: int, targetId: int)
    ensures Contains(WithPixel(body, backend, campaignId, targetId), PixelUrl(backend, campaignId, targetId))
  {
    var url := PixelUrl(backend, campaignId, targetId);
    var head := "\n            " + body + "\n            <br>\n            <img width=\"1\" height=\"1\" src=\"";
    assert OccursAt(url, url, 0);
    ContainsInside(head, url, "\">\n        ", url);
    assert WithPixel(body, backend, campaignId, targetId) == head + url + "\">\n        ";
  }

  /** The open pixel's token is the pair the tracker decodes back. */
  lemma PixelTokenDecodes(plan: Plan, backend: string, t: Target)
    requires Compose(plan, backend, t).Ok?
    ensures Contains(Compose(plan, backend, t).value.html, backend + "/api/v1/track/f1/" + Tokens.PairToken(plan.campaign.id, t.id))
    ensures Tokens.DecodePairToken(Tokens.PairToken(plan.campaign.id, t.id)) == Ok((plan.campaign.id, t.id))
  {
    ComposeShape(plan, backend, t);
    Tokens.DecodePairTokenRoundTrip(plan.campaign.id, t.id);
  }

  /** With an attachment the phishlet is ignored. */
  lemma AttachmentWins(plan: Plan, backend: string, t: Target)
    requires plan.attachment.Some?
    ensures Compose(plan, backend, t) == Compose(plan.(phishlet := None), backend, t)
    ensures Compose(plan, backend, t).Ok? ==>
      Compose(plan, backend, t).value.plain == plan.template.textContent.value
      && Compose(plan, backend, t).value.html
         == WithPixel(Rendered(plan.template.htmlContent), backend, plan.campaign.id, t.id)
  {
  }

  /** The tracked link is the page server's serve URL with the tracked
      token, which the server decodes back to the handle and the pair. */
  lemma {:induction false} LinkIsTrackedServeUrl(p: Phishlet.StoredPhishlet, backend: string, campaignId: int, targetId: int)
    requires p.cloneUrl == Phishlet.CloneUrl(backend, p.urlId) && Tokens.IsHandle(p.urlId)
    ensures PhishletLink(p, campaignId, targetId)
         == backend + "/api/v1/phishlets/serve/" + Tokens.TrackedToken(p.urlId, campaignId, targetId)
    ensures Tokens.DecodeServeToken(Tokens.TrackedToken(p.urlId, campaignId, targetId))
         == Tokens.Tracked(p.urlId, campaignId, targetId)
  {
    var c, t := IntToString(campaignId), IntToString(targetId);
    var d := [Tokens.Delimiter];
    assert Join([p.urlId, c, t], d) == p.urlId + d + Join([c, t], d);
    assert Join([c, t], d) == c + d + Join([t], d);
    Tokens.DecodeTrackedToken(p.urlId, campaignId, targetId);
  }

  /** A phishlet mail (no attachment) carries the tracked link wherever the
      template had the placeholder, and the untracked clone URL in its plain
      body. */
  lemma PhishletMailLinks(plan: Plan, backend: string, t: Target)
    requires plan.attachment.None? && plan.phishlet.Some?
    requires plan.template.htmlContent.Some? && Contains(plan.template.htmlContent.value, Placeholder)
    ensures Compose(plan, backend, t).Ok?
    ensures Contains(Compose(plan, backend, t).value.html, PhishletLink(plan.phishlet.value, plan.campaign.id, t.id))
    ensures Compose(plan, backend, t).value.plain
         == Rendered(plan.template.textContent) + "\n\nClick here: " + plan.phishlet.value.cloneUrl
  {
    var link := PhishletLink(plan.phishlet.value, plan.campaign.id, t.id);
    var body := Replace(plan.template.htmlContent.value, Placeholder, link);
    ReplaceContains(plan.template.htmlContent.value, Placeholder, link);
    var head := "\n            ";
    var tail := "\n            <br>\n            <img width=\"1\" height=\"1\" src=\""
                + PixelUrl(backend, plan.campaign.id, t.id) + "\">\n        ";
    ContainsInside(head, body, tail, link);
    assert WithPixel(body, backend, plan.campaign.id, t.id) == head + body + tail;
  }

  // ---------------------------------------------------------------------
  // The send loop (routers/campaigns_router.py:701-829)

  /** What the mailer API call gave: a response, an `httpx.RequestError`,
      or any other exception. */
  datatype Delivery = Status(code: int, text: string) | RequestFailed(message: string) | Crashed(message: string)

  /** The state after some recipients: the result rows, the event log, the
      per-recipient errors, and the error that aborted the request, if any. */
  datatype Progress = Progress(
    rows: map<Results.Key, Results.CampaignResult>, events: seq<Results.EmailEvent>,
    errors: seq<(string, string)>, aborted: Option<(int, string)>)

  /** The `sent` event with the JSON `{"subject", "from", "to"}`. */
  function SentEvent(plan: Plan, t: Target): Results.EmailEvent {
    Results.EmailEvent(plan.campaign.id, t.id, "sent",
      Json.Dumps(Json.Object([("subject", Json.Str(plan.template.subject)),
                              ("from", Json.Str(plan.sender.fromAddress)),
                              ("to", Json.Str(t.email))])))
  }

  /** What happens for one recipient: the request is aborted, the
      recipient gets an error entry, or the mail is accepted. */
  datatype Turn = Abort(code: int, detail: string) | Failed(error: string) | Delivered(event: Results.EmailEvent)

  /** The turn of recipient `t`, the `i`-th: build the mail, post it, and
      classify the answer. `mailer(i, mail)` is the mailer's answer to the
      `i`-th call. */
  function TurnOf(plan: Plan, backend: string, mailer: (nat, Mail) -> Delivery, i: nat, t: Target): Turn {
    match Compose(plan, backend, t)
    case Fail(code, detail) => Abort(code, detail)
    case Ok(mail) =>
      match mailer(i, mail)
      case Status(code, text) =>
        if code != 200 then Failed("Mailer API error: " + IntToString(code) + " " + text)
        else Delivered(SentEvent(plan, t))
      case RequestFailed(msg) => Failed("Mailer request error: " + msg)
      case Crashed(msg) => Failed("Unexpected error: " + msg)
  }

  /** A turn aborts exactly when the mail cannot be composed, and then with a
      500; a delivered turn logs the `sent` event. */
  lemma TurnShape(plan: Plan, backend: string, mailer: (nat, Mail) -> Delivery, i: nat, t: Target)
    ensures TurnOf(plan, backend, mailer, i, t).Abort? <==> Compose(plan, backend, t).Fail?
    ensures TurnOf(plan, backend, mailer, i, t).Abort? ==> TurnOf(plan, backend, mailer, i, t).code == 500
    ensures TurnOf(plan, backend, mailer, i, t).Delivered? ==> TurnOf(plan, backend, mailer, i, t).event == SentEvent(plan, t)
  {
    ComposeShape(plan, backend, t);
  }

  /** Every recipient's turn, in order, for a per-recipient step `turnFor`. */
  function TurnsWith(plan: Plan, turnFor: (nat, Target) -> Turn): (turns: seq<Turn>)
    ensures |turns| == |plan.recipients|
    ensures forall i :: 0 <= i < |plan.recipients| ==> turns[i] == turnFor(i, plan.recipients[i])
  {
    seq(|plan.recipients|, i requires 0 <= i < |plan.recipients| => turnFor(i, plan.recipients[i]))
  }

  /** The step the handler runs for each recipient. */
  function Handler(plan: Plan, backend: string, mailer: (nat, Mail) -> Delivery): (nat, Target) -> Turn {
    (i: nat, t: Target) => TurnOf(plan, backend, mailer, i, t)
  }

  /** The effect of recipient `t`'s turn, recorded at time `now`. */
  function Step(plan: Plan, t: Target, turn: Turn, now: Time, acc: Progress): Progress {
    if acc.aborted.Some? then acc
    else match turn
      case Abort(code, detail) => acc.(aborted := Some((code, detail)))
      case Failed(error) => acc.(errors := acc.errors + [(t.email, error)])
      case Delivered(event) =>
        acc.(rows := Results.Upsert(acc.rows, (plan.campaign.id, t.id), now), events := acc.events + [event])
  }

  /** The state after the first `n` recipients. */
  function Progressed(plan: Plan, turns: seq<Turn>, clock: nat -> Time,
                      rows: map<Results.Key, Results.CampaignResult>, events: seq<Results.EmailEvent>, n: nat)
    : Progress
    requires n <= |plan.recipients| && n <= |turns|
  {
    if n == 0 then Progress(rows, events, [], None)
    else Step(plan, plan.recipients[n - 1], turns[n - 1], clock(n - 1),
              Progressed(plan, turns, clock, rows, events, n - 1))
  }

  /** The handler's answer. */
  datatype SendOutcome =
    | Sent(count: nat)                         // 200, every mail accepted
    | Refused(code: int, detail: string)       // an HTTPException before or during the loop
    | SomeFailed(errors: seq<(string, string)>) // 500 "Some emails failed" with the (email, error) list

  function Outcome(p: Progress, count: nat): SendOutcome {
    if p.aborted.Some? then Refused(p.aborted.value.0, p.aborted.value.1)
    else if p.errors != [] then SomeFailed(p.errors)
    else Sent(count)
  }

  /** Once aborted, later recipients change nothing. */
  lemma {:induction false} AbortSticks(plan: Plan, turns: seq<Turn>, clock: nat -> Time,
                                       rows: map<Results.Key, Results.CampaignResult>, events: seq<Results.EmailEvent>,
                                       k: nat, m: nat)
    requires k <= m <= |plan.recipients| && m <= |turns|
    requires Progressed(plan, turns, clock, rows, events, k).aborted.Some?
    ensures Progressed(plan, turns, clock, rows, events, m)
         == Progressed(plan, turns, clock, rows, events, k)
    decreases m
  {
    if m > k {
      AbortSticks(plan, turns, clock, rows, events, k, m - 1);
    }
  }

  /** Without an abort, every recipient yields exactly one error or one sent
      event: failures do not stop the loop. */
  lemma {:induction false} EveryRecipientAccounted(plan: Plan, turns: seq<Turn>, clock: nat -> Time,
                                                   rows: map<Results.Key, Results.CampaignResult>,
                                                   events: seq<Results.EmailEvent>, n: nat)
    requires n <= |plan.recipients| && n <= |turns|
    requires Progressed(plan, turns, clock, rows, events, n).aborted.None?
    ensures var p := Progressed(plan, turns, clock, rows, events, n);
      |p.events| >= |events| && |p.errors| + (|p.events| - |events|) == n
      && p.events[..|events|] == events
  {
    if n > 0 {
      var prev := Progressed(plan, turns, clock, rows, events, n - 1);
      EveryRecipientAccounted(plan, turns, clock, rows, events, n - 1);
      var p := Progressed(plan, turns, clock, rows, events, n);
      assert p.events[..|events|] == prev.events[..|events|] by {
        assert prev.events <= p.events;
      }
    }
  }

  /** A step that leaves no abort and no error marked its recipient sent. */
  lemma CleanStep(plan: Plan, t: Target, turn: Turn, now: Time, acc: Progress)
    requires var p := Step(plan, t, turn, now, acc); p.aborted.None? && p.errors == []
    ensures acc.aborted.None? && acc.errors == [] && turn.Delivered?
    ensures Step(plan, t, turn, now, acc).rows == Results.Upsert(acc.rows, (plan.campaign.id, t.id), now)
  {
  }

  /** When no recipient failed, every recipient's row is marked sent. */
  lemma {:induction false} CleanRunMarksAll(plan: Plan, turns: seq<Turn>, clock: nat -> Time,
                                            rows: map<Results.Key, Results.CampaignResult>,
                                            events: seq<Results.EmailEvent>, n: nat)
    requires n <= |plan.recipients| && n <= |turns|
    requires var p := Progressed(plan, turns, clock, rows, events, n);
      p.aborted.None? && p.errors == []
    ensures var p := Progressed(plan, turns, clock, rows, events, n);
      forall i :: 0 <= i < n ==>
        (plan.campaign.id, plan.recipients[i].id) in p.rows && p.rows[(plan.campaign.id, plan.recipients[i].id)].emailSent
  {
    if n > 0 {
      var prev := Progressed(plan, turns, clock, rows, events, n - 1);
      var p := Progressed(plan, turns, clock, rows, events, n);
      assert p == Step(plan, plan.recipients[n - 1], turns[n - 1], clock(n - 1), prev);
      CleanStep(plan, plan.recipients[n - 1], turns[n - 1], clock(n - 1), prev);
      CleanRunMarksAll(plan, turns, clock, rows, events, n - 1);
      var key := (plan.campaign.id, plan.recipients[n - 1].id);
      forall i | 0 <= i < n
        ensures (plan.campaign.id, plan.recipients[i].id) in p.rows
        ensures p.rows[(plan.campaign.id, plan.recipients[i].id)].emailSent
      {
        var k := (plan.campaign.id, plan.recipients[i].id);
        if i < n - 1 {
          assert k in prev.rows && prev.rows[k].emailSent;
        }
        Results.UpsertKeepsSent(prev.rows, key, clock(n - 1), k);
      }
    }
  }

  /** The effect of a turn that did not abort, written to the table. */
  method Record(table: Results.ResultsTable, plan: Plan, t: Target, turn: Turn, now: Time,
                errors: seq<(string, string)>)
    returns (errors': seq<(string, string)>)
    requires !turn.Abort?
    modifies table
    ensures Progress(table.rows, table.events, errors', None)
         == Step(plan, t, turn, now, Progress(old(table.rows), old(table.events), errors, None))
  {
    match turn {
      case Failed(error) =>
        errors' := errors + [(t.email, error)];
      case Delivered(event) =>
        errors' := errors;
        table.events := table.events + [event];
        table.rows := Results.Upsert(table.rows, (plan.campaign.id, t.id), now);
    }
  }

  /** The loop over the recipients: `turnFor(i, t)` runs recipient `t`'s
      turn; a failed mail is recorded and the loop goes on, an aborted turn
      ends the request. */
  method SendAll(table: Results.ResultsTable, plan: Plan, turnFor: (nat, Target) -> Turn, clock: nat -> Time)
    returns (out: SendOutcome)
    modifies table
    ensures var p := Progressed(plan, TurnsWith(plan, turnFor), clock, old(table.rows), old(table.events),
                                |plan.recipients|);
      table.rows == p.rows && table.events == p.events && out == Outcome(p, |plan.recipients|)
  {
    var n := |plan.recipients|;
    ghost var turns := TurnsWith(plan, turnFor);
    ghost var rows0, events0 := table.rows, table.events;
    var errors: seq<(string, string)> := [];
    var i := 0;
    while i < n
      invariant 0 <= i <= n
      invariant Progressed(plan, turns, clock, rows0, events0, i) == Progress(table.rows, table.events, errors, None)
    {
      var turn := turnFor(i, plan.recipients[i]);
      if turn.Abort? {
        AbortSticks(plan, turns, clock, rows0, events0, i + 1, n);
        return Refused(turn.code, turn.detail);
      }
      errors := Record(table, plan, plan.recipients[i], turn, clock(i), errors);
      i := i + 1;
    }
    out := if errors != [] then SomeFailed(errors) else Sent(n);
  }

  /** `POST /api/v1/campaigns/send_email`. */
  method SendEmail(table: Results.ResultsTable, d: Directory, campaignId: Option<int>, backend: string,
                   mailer: (nat, Mail) -> Delivery, clock: nat -> Time)
    returns (out: SendOutcome)
    modifies table
    ensures Prepare(d, campaignId).Fail? ==>
      out == Refused(Prepare(d, campaignId).code, Prepare(d, campaignId).detail)
      && table.rows == old(table.rows) && table.events == old(table.events)
    ensures Prepare(d, campaignId).Ok? ==>
      var plan := Prepare(d, campaignId).value;
      var p := Progressed(plan, TurnsWith(plan, Handler(plan, backend, mailer)), clock,
                          old(table.rows), old(table.events), |plan.recipients|);
      table.rows == p.rows && table.events == p.events && out == Outcome(p, |plan.recipients|)
  {
    var prepared := PrepareSend(d, campaignId);
    if prepared.Fail? {
      return Refused(prepared.code, prepared.detail);
    }
    out := SendAll(table, prepared.value, Handler(prepared.value, backend, mailer), clock);
  }
}
