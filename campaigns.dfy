/** Campaign records and their status rules (routers/campaigns_router.py):
    creation with its initial status and required references, the partial
    update, and the run and pause transitions. The campaigns table is a class
    whose map the handlers update in place. */
module Campaigns {
  import opened Wrappers
  import Results

  type Time = Results.Time

  /** The stored `target_individuals` column: absent or empty, the JSON text
      of a list of ids, or text that is not valid JSON. */
  datatype StoredIds = NoIds | Ids(ids: seq<int>) | Unreadable

  datatype Campaign = Campaign(
    id: int, name: string, description: Option<string>, userId: int,
    senderProfileId: int, emailTemplateId: int,
    phishletId: Option<int>, attachmentId: Option<int>,
    targetType: string, targetGroupId: Option<int>, targetIndividuals: StoredIds,
    scheduledAt: Option<Time>, status: string, isActive: bool,
    createdAt: Time, updatedAt: Time)

  /** Python truthiness of an optional id: present and not 0. */
  predicate Set(id: Option<int>) {
    id.Some? && id.value != 0
  }

  // ---------------------------------------------------------------------
  // create_campaign (routers/campaigns_router.py:85-155)

  datatype CampaignCreate = CampaignCreate(
    name: string, description: Option<string>, senderProfileId: int, emailTemplateId: int,
    phishletId: Option<int>, attachmentId: Option<int>, targetType: string,
    targetGroupId: Option<int>, targetIndividuals: Option<seq<int>>,
    scheduledAt: Option<Time>, launchNow: bool)

  predicate NameTaken(campaigns: map<int, Campaign>, userId: int, name: string) {
    exists k :: k in campaigns && campaigns[k].userId == userId && campaigns[k].name == name
  }

  /** The checks of creation, in the order they are made; all failures are 400. */
  function CheckCreate(campaigns: map<int, Campaign>, userId: int, req: CampaignCreate): (r: Result<()>)
    ensures r.Fail? ==> r.code == 400
    ensures r.Ok? <==>
      (!NameTaken(campaigns, userId, req.name) && req.senderProfileId != 0
       && req.emailTemplateId != 0 && (Set(req.phishletId) || Set(req.attachmentId)))
  {
    if NameTaken(campaigns, userId, req.name) then Fail(400, "A campaign with this name already exists")
    else if req.senderProfileId == 0 then Fail(400, "Sender profile is required")
    else if req.emailTemplateId == 0 then Fail(400, "Email template is required")
    else if !Set(req.phishletId) && !Set(req.attachmentId) then Fail(400, "Phishlet or attachment is required")
    else Ok(())
  }

  /** Initial status and schedule: launching now runs at once; otherwise the
      campaign is scheduled for the requested time, or for now. */
  function InitialSchedule(launchNow: bool, scheduledAt: Option<Time>, now: Time): (r: (string, Time))
    ensures r.0 == "running" <==> launchNow
    ensures r.0 == "scheduled" <==> !launchNow
    ensures r.1 == (if !launchNow && scheduledAt.Some? then scheduledAt.value else now)
  {
    if launchNow then ("running", now)
    else if scheduledAt.Some? then ("scheduled", scheduledAt.value)
    else ("scheduled", now)
  }

  function NewCampaign(id: int, userId: int, req: CampaignCreate, now: Time): Campaign {
    var (status, when) := InitialSchedule(req.launchNow, req.scheduledAt, now);
    Campaign(id, req.name, req.description, userId, req.senderProfileId, req.emailTemplateId,
             req.phishletId, req.attachmentId, req.targetType, req.targetGroupId,
             if req.targetIndividuals.Some? && req.targetIndividuals.value != [] then Ids(req.targetIndividuals.value) else NoIds,
             Some(when), status, true, now, now)
  }

  // ---------------------------------------------------------------------
  // update_campaign (routers/campaigns_router.py:297-397)

  datatype CampaignUpdate = CampaignUpdate(
    name: Option<string>, description: Option<string>,
    senderProfileId: Option<int>, emailTemplateId: Option<int>,
    phishletId: Option<int>, attachmentId: Option<int>,
    targetType: Option<string>, targetGroupId: Option<int>, targetIndividuals: Option<seq<int>>,
    scheduledAt: Option<Time>, launchNow: Option<bool>, status: Option<string>, isActive: Option<bool>)

  /** The descriptive fields an update copies as given, when present. */
  function CopiedDetails(c: Campaign, u: CampaignUpdate): Campaign {
    c.(name := u.name.GetOr(c.name),
       description := if u.description.Some? then u.description else c.description,
       senderProfileId := u.senderProfileId.GetOr(c.senderProfileId),
       emailTemplateId := u.emailTemplateId.GetOr(c.emailTemplateId),
       isActive := u.isActive.GetOr(c.isActive))
  }

  /** The lure and audience fields an update copies as given, when present. */
  function CopiedTargets(c: Campaign, u: CampaignUpdate): Campaign {
    c.(phishletId := if u.phishletId.Some? then u.phishletId else c.phishletId,
       attachmentId := if u.attachmentId.Some? then u.attachmentId else c.attachmentId,
       targetType := u.targetType.GetOr(c.targetType),
       targetGroupId := if u.targetGroupId.Some? then u.targetGroupId else c.targetGroupId,
       targetIndividuals := if u.targetIndividuals.Some? then Ids(u.targetIndividuals.value) else c.targetIndividuals)
  }

  function Copied(c: Campaign, u: CampaignUpdate): Campaign {
    CopiedTargets(CopiedDetails(c, u), u)
  }

  /** Status and schedule after an update: `launch_now` true means running
      with no schedule, false without a time means scheduled; an explicit
      time and an explicit status override those. */
  function Rescheduled(c: Campaign, u: CampaignUpdate): Campaign {
    var launchedStatus :=
      if u.launchNow == Some(true) then "running"
      else if u.launchNow == Some(false) && u.scheduledAt.None? then "scheduled"
      else c.status;
    var launchedSchedule := if u.launchNow == Some(true) then None else c.scheduledAt;
    c.(scheduledAt := if u.scheduledAt.Some? then u.scheduledAt else launchedSchedule,
       status := u.status.GetOr(launchedStatus))
  }

  /** The record after an update; `updated_at` is always set. */
  function Merged(c: Campaign, u: CampaignUpdate, now: Time): Campaign {
    Rescheduled(Copied(c, u), u).(updatedAt := now)
  }

  /** The handler copying the descriptive fields given, one at a time. */
  method CopyDetails(c: Campaign, u: CampaignUpdate) returns (m: Campaign)
    ensures m == CopiedDetails(c, u)
  {
    var name, description, sender, template, active := c.name, c.description, c.senderProfileId, c.emailTemplateId, c.isActive;
    if u.name.Some? { name := u.name.value; }
    if u.description.Some? { description := u.description; }
    if u.senderProfileId.Some? { sender := u.senderProfileId.value; }
    if u.emailTemplateId.Some? { template := u.emailTemplateId.value; }
    if u.isActive.Some? { active := u.isActive.value; }
    m := c.(name := name, description := description, senderProfileId := sender, emailTemplateId := template,
            isActive := active);
  }

  /** The handler copying the lure and audience fields given, one at a time. */
  method CopyTargets(c: Campaign, u: CampaignUpdate) returns (m: Campaign)
    ensures m == CopiedTargets(c, u)
  {
    var phishlet, attachment, targetType, group, individuals := c.phishletId, c.attachmentId, c.targetType, c.targetGroupId, c.targetIndividuals;
    if u.phishletId.Some? { phishlet := u.phishletId; }
    if u.attachmentId.Some? { attachment := u.attachmentId; }
    if u.targetType.Some? { targetType := u.targetType.value; }
    if u.targetGroupId.Some? { group := u.targetGroupId; }
    if u.targetIndividuals.Some? { individuals := Ids(u.targetIndividuals.value); }
    m := c.(phishletId := phishlet, attachmentId := attachment, targetType := targetType, targetGroupId := group,
            targetIndividuals := individuals);
  }

  /** The status half of the handler's merge, in the handler's order. */
  method Reschedule(c: Campaign, u: CampaignUpdate) returns (m: Campaign)
    ensures m == Rescheduled(c, u)
  {
    m := c;
    if u.launchNow.Some? {
      if u.launchNow.value {
        m := m.(status := "running", scheduledAt := None);
      } else if u.scheduledAt.None? {
        m := m.(status := "scheduled");
      }
    }
    if u.scheduledAt.Some? { m := m.(scheduledAt := u.scheduledAt); }
    if u.status.Some? { m := m.(status := u.status.value); }
  }

  /** `launch_now` true, with no explicit status, runs the campaign; its
      schedule is cleared unless a time is given in the same request. */
  lemma LaunchNowRuns(c: Campaign, u: CampaignUpdate, now: Time)
    requires u.launchNow == Some(true) && u.status.None?
    ensures Merged(c, u, now).status == "running"
    ensures Merged(c, u, now).scheduledAt == u.scheduledAt
  {
  }

  /** An explicit status wins over what `launch_now` implies. */
  lemma ExplicitStatusWins(c: Campaign, u: CampaignUpdate, now: Time)
    requires u.status.Some?
    ensures Merged(c, u, now).status == u.status.value
  {
  }

  /** A request that sets nothing only touches `updated_at`. */
  lemma EmptyUpdateTouchesOnlyTimestamp(c: Campaign, now: Time)
    ensures Merged(c, CampaignUpdate(None, None, None, None, None, None, None, None, None, None, None, None, None), now)
         == c.(updatedAt := now)
  {
  }

  /** After the merge, the campaign must still have a phishlet or an attachment. */
  function CheckMerged(m: Campaign): (r: Result<()>)
    ensures r.Ok? <==> Set(m.phishletId) || Set(m.attachmentId)
    ensures r.Fail? ==> r.code == 400
  {
    if Set(m.phishletId) || Set(m.attachmentId) then Ok(())
    else Fail(400, "Either phishlet or attachment is required")
  }

  // ---------------------------------------------------------------------
  // run_campaign and pause_campaign (routers/campaigns_router.py:470-562)

  /** The status `run` moves to, or its 400. */
  function RunTransition(status: string): (r: Result<string>)
    ensures r.Ok? <==> status == "scheduled" || status == "paused"
    ensures r.Ok? ==> r.value == "running"
    ensures r.Fail? ==> r.code == 400
  {
    if status == "scheduled" || status == "paused" then Ok("running")
    else Fail(400, "Campaign can only be run when scheduled or paused")
  }

  /** The status `pause` moves to, or its 400. */
  function PauseTransition(status: string): (r: Result<string>)
    ensures r.Ok? <==> status == "running"
    ensures r.Ok? ==> r.value == "paused"
    ensures r.Fail? ==> r.code == 400
  {
    if status == "running" then Ok("paused")
    else Fail(400, "Campaign can only be paused when running")
  }

  /** Pausing and running again returns to running; a running campaign cannot
      be run again, nor a paused one paused again. */
  lemma PauseThenRun(status: string)
    requires PauseTransition(status).Ok?
    ensures RunTransition(PauseTransition(status).value) == Ok(status)
    ensures RunTransition(status).Fail?
    ensures PauseTransition(PauseTransition(status).value).Fail?
  {
  }

  /** A campaign the caller may act on: their own, or any for an admin. */
  predicate Visible(campaigns: map<int, Campaign>, id: int, userId: int, isAdmin: bool) {
    id in campaigns && (campaigns[id].userId == userId || isAdmin)
  }

  class CampaignStore {
    var campaigns: map<int, Campaign>
    var nextId: int

    /** Every campaign is stored under its own id, below the next id to give out. */
    ghost predicate Valid()
      reads this
    {
      nextId >= 1 && forall k :: k in campaigns ==> 1 <= k < nextId && campaigns[k].id == k
    }

    constructor ()
      ensures Valid() && campaigns == map[]
    {
      campaigns := map[];
      nextId := 1;
    }

    /** `POST /api/v1/campaigns/`. The scheduler registration that follows the
        insert is not part of this model. */
    method Create(userId: int, req: CampaignCreate, now: Time) returns (r: Result<Campaign>)
      requires Valid()
      modifies this
      ensures Valid()
      ensures CheckCreate(old(campaigns), userId, req).Fail? ==>
        r == Fail(CheckCreate(old(campaigns), userId, req).code, CheckCreate(old(campaigns), userId, req).detail)
        && campaigns == old(campaigns)
      ensures CheckCreate(old(campaigns), userId, req).Ok? ==>
        old(nextId) !in old(campaigns)
        && r == Ok(NewCampaign(old(nextId), userId, req, now))
        && campaigns == old(campaigns)[old(nextId) := NewCampaign(old(nextId), userId, req, now)]
    {
      var existing := NameTaken(campaigns, userId, req.name);
      if existing {
        return Fail(400, "A campaign with this name already exists");
      }
      var initialStatus: string;
      var scheduledAt: Option<Time>;
      if req.launchNow {
        initialStatus := "running";
        scheduledAt := None;
      } else if req.scheduledAt.Some? {
        initialStatus := "scheduled";
        scheduledAt := req.scheduledAt;
      } else {
        initialStatus := "scheduled";
        scheduledAt := None;
      }
      if scheduledAt.None? {
        scheduledAt := Some(now);
      }
      if req.senderProfileId == 0 {
        return Fail(400, "Sender profile is required");
      }
      if req.emailTemplateId == 0 {
        return Fail(400, "Email template is required");
      }
      if !Set(req.phishletId) && !Set(req.attachmentId) {
        return Fail(400, "Phishlet or attachment is required");
      }
      var stored := if req.targetIndividuals.Some? && req.targetIndividuals.value != [] then Ids(req.targetIndividuals.value) else NoIds;
      var c := Campaign(nextId, req.name, req.description, userId, req.senderProfileId, req.emailTemplateId,
                        req.phishletId, req.attachmentId, req.targetType, req.targetGroupId, stored,
                        scheduledAt, initialStatus, true, now, now);
      campaigns := campaigns[nextId := c];
      nextId := nextId + 1;
      r := Ok(c);
    }

    /** `PUT /api/v1/campaigns/{id}`. */
    method Update(id: int, userId: int, isAdmin: bool, u: CampaignUpdate, now: Time) returns (r: Result<Campaign>)
      requires Valid()
      modifies this
      ensures Valid() && nextId == old(nextId)
      ensures !Visible(old(campaigns), id, userId, isAdmin) ==>
        r == Fail(404, "Campaign not found") && campaigns == old(campaigns)
      ensures Visible(old(campaigns), id, userId, isAdmin) ==>
        var m := Merged(old(campaigns)[id], u, now);
        (CheckMerged(m).Fail? ==> r == Fail(400, CheckMerged(m).detail) && campaigns == old(campaigns))
        && (CheckMerged(m).Ok? ==> r == Ok(m) && campaigns == old(campaigns)[id := m])
    {
      if !(id in campaigns && (campaigns[id].userId == userId || isAdmin)) {
        return Fail(404, "Campaign not found");
      }
      var m := CopyDetails(campaigns[id], u);
      m := CopyTargets(m, u);
      m := Reschedule(m, u);
      m := m.(updatedAt := now);
      if !(Set(m.phishletId) || Set(m.attachmentId)) {
        return Fail(400, "Either phishlet or attachment is required");
      }
      campaigns := campaigns[id := m];
      r := Ok(m);
    }

    /** `POST /api/v1/campaigns/{id}/run`. */
    method Run(id: int, userId: int, isAdmin: bool, now: Time) returns (r: Result<()>)
      requires Valid()
      modifies this
      ensures Valid() && nextId == old(nextId)
      ensures !Visible(old(campaigns), id, userId, isAdmin) ==>
        r == Fail(404, "Campaign not found") && campaigns == old(campaigns)
      ensures Visible(old(campaigns), id, userId, isAdmin) ==>
        var t := RunTransition(old(campaigns)[id].status);
        (t.Fail? ==> r == Fail(t.code, t.detail) && campaigns == old(campaigns))
        && (t.Ok? ==> r == Ok(()) && campaigns == old(campaigns)[id := old(campaigns)[id].(status := t.value, updatedAt := now)])
    {
      if !(id in campaigns && (campaigns[id].userId == userId || isAdmin)) {
        return Fail(404, "Campaign not found");
      }
      var c := campaigns[id];
      if c.status != "scheduled" && c.status != "paused" {
        return Fail(400, "Campaign can only be run when scheduled or paused");
      }
      campaigns := campaigns[id := c.(status := "running", updatedAt := now)];
      r := Ok(());
    }

    /** `POST /api/v1/campaigns/{id}/pause`. */
    method Pause(id: int, userId: int, isAdmin: bool, now: Time) returns (r: Result<()>)
      requires Valid()
      modifies this
      ensures Valid() && nextId == old(nextId)
      ensures !Visible(old(campaigns), id, userId, isAdmin) ==>
        r == Fail(404, "Campaign not found") && campaigns == old(campaigns)
      ensures Visible(old(campaigns), id, userId, isAdmin) ==>
        var t := PauseTransition(old(campaigns)[id].status);
        (t.Fail? ==> r == Fail(t.code, t.detail) && campaigns == old(campaigns))
        && (t.Ok? ==> r == Ok(()) && campaigns == old(campaigns)[id := old(campaigns)[id].(status := t.value, updatedAt := now)])
    {
      if !(id in campaigns && (campaigns[id].userId == userId || isAdmin)) {
        return Fail(404, "Campaign not found");
      }
      var c := campaigns[id];
      if c.status != "running" {
        return Fail(400, "Campaign can only be paused when running");
      }
      campaigns := campaigns[id := c.(status := "paused", updatedAt := now)];
      r := Ok(());
    }
  }
}
