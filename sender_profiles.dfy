/** Sender profiles (routers/sender_profile_router.py): the SMTP or OAuth
    credentials a campaign mails with. Creation validates the auth type and
    the credentials it needs, and stores only that type's credentials; an
    update applies only the fields of the profile's own type and records a
    change log in which secrets appear as "***". */
module SenderProfiles {
  import opened Wrappers
  import Json
  import Results

  type Time = Results.Time

  datatype SenderProfile = SenderProfile(
    id: int, name: string, userId: int, authType: string,
    fromAddress: string, fromName: Option<string>,
    smtpHost: Option<string>, smtpPort: Option<int>,
    smtpUsername: Option<string>, smtpPassword: Option<string>,
    oauthClientId: Option<string>, oauthClientSecret: Option<string>, oauthRefreshToken: Option<string>,
    isActive: bool, createdAt: Time, updatedAt: Time)

  /** Python truthiness of an optional text or port field. */
  predicate Given(s: Option<string>) {
    s.Some? && s.value != []
  }

  predicate PortGiven(p: Option<int>) {
    p.Some? && p.value != 0
  }

  /** A profile name already used by `userId`, other than by profile `except`. */
  predicate NameTaken(profiles: map<int, SenderProfile>, userId: int, name: string, except: Option<int>) {
    exists k :: k in profiles && profiles[k].userId == userId && profiles[k].name == name && Some(k) != except
  }

  // ---------------------------------------------------------------------
  // create_sender_profile (routers/sender_profile_router.py:95-154)

  datatype ProfileCreate = ProfileCreate(
    name: string, authType: string, fromAddress: string, fromName: Option<string>,
    smtpHost: Option<string>, smtpPort: Option<int>, smtpUsername: Option<string>, smtpPassword: Option<string>,
    oauthClientId: Option<string>, oauthClientSecret: Option<string>, oauthRefreshToken: Option<string>,
    isActive: bool)

  predicate SmtpComplete(req: ProfileCreate) {
    Given(req.smtpHost) && PortGiven(req.smtpPort) && Given(req.smtpUsername) && Given(req.smtpPassword)
  }

  predicate OAuthComplete(req: ProfileCreate) {
    Given(req.oauthClientId) && Given(req.oauthClientSecret) && Given(req.oauthRefreshToken)
  }

  lemma AuthTypesDiffer()
    ensures "smtp" != "oauth"
  {
    assert "smtp"[0] != "oauth"[0];
  }

  /** The checks of creation, in order: the auth type, its credentials, then
      the name; every rejection is a 400. */
  function CheckCreate(profiles: map<int, SenderProfile>, userId: int, req: ProfileCreate): (r: Result<()>)
    ensures r.Fail? ==> r.code == 400
    ensures r.Ok? <==>
      ((req.authType == "smtp" && SmtpComplete(req)) || (req.authType == "oauth" && OAuthComplete(req)))
      && !NameTaken(profiles, userId, req.name, None)
    ensures req.authType != "smtp" && req.authType != "oauth" ==>
      r == Fail(400, "auth_type must be either 'smtp' or 'oauth'")
  {
    AuthTypesDiffer();
    if req.authType != "smtp" && req.authType != "oauth" then
      Fail(400, "auth_type must be either 'smtp' or 'oauth'")
    else if req.authType == "smtp" && !SmtpComplete(req) then
      Fail(400, "SMTP configuration requires host, port, username, and password")
    else if req.authType == "oauth" && !OAuthComplete(req) then
      Fail(400, "OAuth configuration requires client_id, client_secret, and refresh_token")
    else if NameTaken(profiles, userId, req.name, None) then
      Fail(400, "A sender profile with this name already exists")
    else Ok(())
  }

  /** The inserted row: the common fields and the credentials of its own type. */
  function StoredProfile(id: int, userId: int, req: ProfileCreate, now: Time): SenderProfile {
    var smtp := req.authType == "smtp";
    var oauth := req.authType == "oauth";
    SenderProfile(id, req.name, userId, req.authType, req.fromAddress, req.fromName,
                  if smtp then req.smtpHost else None, if smtp then req.smtpPort else None,
                  if smtp then req.smtpUsername else None, if smtp then req.smtpPassword else None,
                  if oauth then req.oauthClientId else None, if oauth then req.oauthClientSecret else None,
                  if oauth then req.oauthRefreshToken else None,
                  req.isActive, now, now)
  }

  /** A stored profile carries the credentials of its own type and none of the other. */
  lemma StoredCarriesOwnType(id: int, userId: int, req: ProfileCreate, now: Time)
    requires CheckCreate(map[], userId, req).Ok?
    ensures var p := StoredProfile(id, userId, req, now);
      (p.authType == "smtp" ==>
         p.oauthClientId.None? && p.oauthClientSecret.None? && p.oauthRefreshToken.None?
         && Given(p.smtpHost) && PortGiven(p.smtpPort) && Given(p.smtpUsername) && Given(p.smtpPassword))
      && (p.authType == "oauth" ==>
         p.smtpHost.None? && p.smtpPort.None? && p.smtpUsername.None? && p.smtpPassword.None?
         && Given(p.oauthClientId) && Given(p.oauthClientSecret) && Given(p.oauthRefreshToken))
      && (p.authType == "smtp" || p.authType == "oauth")
  {
  }

  // ---------------------------------------------------------------------
  // update_sender_profile (routers/sender_profile_router.py:269-350)

  datatype ProfileUpdate = ProfileUpdate(
    name: Option<string>, fromAddress: Option<string>, fromName: Option<string>,
    smtpHost: Option<string>, smtpPort: Option<int>, smtpUsername: Option<string>, smtpPassword: Option<string>,
    oauthClientId: Option<string>, oauthClientSecret: Option<string>, oauthRefreshToken: Option<string>,
    isActive: Option<bool>)

  /** The columns an update may write; they are the keys of the change log. */
  datatype Field =
    | Name | FromAddress | FromName | IsActive
    | SmtpHost | SmtpPort | SmtpUsername | SmtpPassword
    | OAuthClientId | OAuthClientSecret | OAuthRefreshToken

  /** The fields whose new value is logged as "***". */
  predicate IsSecret(f: Field) {
    f == SmtpPassword || f == OAuthClientSecret || f == OAuthRefreshToken
  }

  const Redacted: string := "***"

  function OptText(s: Option<string>): Json.Value {
    if s.Some? then Json.Str(s.value) else Json.Null
  }

  /** A column of a profile as it would appear in the JSON log. */
  function Column(p: SenderProfile, f: Field): Json.Value {
    match f
    case Name => Json.Str(p.name)
    case FromAddress => Json.Str(p.fromAddress)
    case FromName => OptText(p.fromName)
    case IsActive => Json.Bool(p.isActive)
    case SmtpHost => OptText(p.smtpHost)
    case SmtpPort => if p.smtpPort.Some? then Json.Int(p.smtpPort.value) else Json.Null
    case SmtpUsername => OptText(p.smtpUsername)
    case SmtpPassword => OptText(p.smtpPassword)
    case OAuthClientId => OptText(p.oauthClientId)
    case OAuthClientSecret => OptText(p.oauthClientSecret)
    case OAuthRefreshToken => OptText(p.oauthRefreshToken)
  }

  /** The fields every profile type accepts. */
  function AppliedCommon(p: SenderProfile, u: ProfileUpdate): SenderProfile {
    p.(name := u.name.GetOr(p.name), fromAddress := u.fromAddress.GetOr(p.fromAddress),
       fromName := if u.fromName.Some? then u.fromName else p.fromName,
       isActive := u.isActive.GetOr(p.isActive))
  }

  /** The SMTP fields, applied only to an smtp profile. */
  function AppliedSmtp(p: SenderProfile, u: ProfileUpdate): SenderProfile {
    if p.authType != "smtp" then p
    else p.(smtpHost := if u.smtpHost.Some? then u.smtpHost else p.smtpHost,
            smtpPort := if u.smtpPort.Some? then u.smtpPort else p.smtpPort,
            smtpUsername := if u.smtpUsername.Some? then u.smtpUsername else p.smtpUsername,
            smtpPassword := if u.smtpPassword.Some? then u.smtpPassword else p.smtpPassword)
  }

  /** The OAuth fields, applied only to an oauth profile. */
  function AppliedOAuth(p: SenderProfile, u: ProfileUpdate): SenderProfile {
    if p.authType != "oauth" then p
    else p.(oauthClientId := if u.oauthClientId.Some? then u.oauthClientId else p.oauthClientId,
            oauthClientSecret := if u.oauthClientSecret.Some? then u.oauthClientSecret else p.oauthClientSecret,
            oauthRefreshToken := if u.oauthRefreshToken.Some? then u.oauthRefreshToken else p.oauthRefreshToken)
  }

  /** The profile after an update; `updated_at` is always set. */
  function Applied(p: SenderProfile, u: ProfileUpdate, now: Time): SenderProfile {
    AppliedOAuth(AppliedSmtp(AppliedCommon(p, u), u), u).(updatedAt := now)
  }

  /** Whether an update of a profile of type `authType` writes field `f`. */
  predicate Writes(authType: string, u: ProfileUpdate, f: Field) {
    match f
    case Name => u.name.Some?
    case FromAddress => u.fromAddress.Some?
    case FromName => u.fromName.Some?
    case IsActive => u.isActive.Some?
    case SmtpHost => authType == "smtp" && u.smtpHost.Some?
    case SmtpPort => authType == "smtp" && u.smtpPort.Some?
    case SmtpUsername => authType == "smtp" && u.smtpUsername.Some?
    case SmtpPassword => authType == "smtp" && u.smtpPassword.Some?
    case OAuthClientId => authType == "oauth" && u.oauthClientId.Some?
    case OAuthClientSecret => authType == "oauth" && u.oauthClientSecret.Some?
    case OAuthRefreshToken => authType == "oauth" && u.oauthRefreshToken.Some?
  }

  /** The value the request carries for field `f`, as JSON. */
  function Requested(u: ProfileUpdate, f: Field): Json.Value {
    match f
    case Name => OptText(u.name)
    case FromAddress => OptText(u.fromAddress)
    case FromName => OptText(u.fromName)
    case IsActive => if u.isActive.Some? then Json.Bool(u.isActive.value) else Json.Null
    case SmtpHost => OptText(u.smtpHost)
    case SmtpPort => if u.smtpPort.Some? then Json.Int(u.smtpPort.value) else Json.Null
    case SmtpUsername => OptText(u.smtpUsername)
    case SmtpPassword => OptText(u.smtpPassword)
    case OAuthClientId => OptText(u.oauthClientId)
    case OAuthClientSecret => OptText(u.oauthClientSecret)
    case OAuthRefreshToken => OptText(u.oauthRefreshToken)
  }

  /** The three groups of fields the handler treats in turn. */
  predicate IsCommon(f: Field) {
    f.Name? || f.FromAddress? || f.FromName? || f.IsActive?
  }

  predicate IsSmtp(f: Field) {
    f.SmtpHost? || f.SmtpPort? || f.SmtpUsername? || f.SmtpPassword?
  }

  const AllFields: set<Field> := {Name, FromAddress, FromName, IsActive,
    SmtpHost, SmtpPort, SmtpUsername, SmtpPassword, OAuthClientId, OAuthClientSecret, OAuthRefreshToken}

  /** What the log records for a written field: secrets as "***". */
  function LogValue(u: ProfileUpdate, f: Field): Json.Value {
    if IsSecret(f) then Json.Str(Redacted) else Requested(u, f)
  }

  /** The `changes` dict for a profile of type `authType`. */
  function ChangeLog(authType: string, u: ProfileUpdate): map<Field, Json.Value> {
    map f | f in AllFields && Writes(authType, u, f) :: LogValue(u, f)
  }

  lemma ChangeLogByField(authType: string, u: ProfileUpdate, f: Field)
    ensures f in ChangeLog(authType, u) <==> Writes(authType, u, f)
  {
    assert f in AllFields;
  }

  /** The updated record, field by field: a written field takes the requested
      value, every other keeps its old one. */
  lemma AppliedByField(p: SenderProfile, u: ProfileUpdate, now: Time, f: Field)
    ensures Column(Applied(p, u, now), f) == (if Writes(p.authType, u, f) then Requested(u, f) else Column(p, f))
  {
    match f
    case Name =>
    case FromAddress =>
    case FromName =>
    case IsActive =>
    case SmtpHost =>
    case SmtpPort =>
    case SmtpUsername =>
    case SmtpPassword =>
    case OAuthClientId =>
    case OAuthClientSecret =>
    case OAuthRefreshToken =>
  }

  /** The log mirrors the update of `before` into `after`. */
  ghost predicate Mirrors(log: map<Field, Json.Value>, before: SenderProfile, after: SenderProfile) {
    (forall f :: f in log && IsSecret(f) ==> log[f] == Json.Str(Redacted))
    && (forall f :: f in log && !IsSecret(f) ==> log[f] == Column(after, f))
    && (forall f :: f !in log ==> Column(after, f) == Column(before, f))
  }

  /** The change log mirrors the update: it names exactly the columns the
      update wrote, with their new values, except that the three secrets are
      logged as "***"; every column it does not name keeps its old value. */
  lemma {:induction false} ChangeLogMirrorsUpdate(p: SenderProfile, u: ProfileUpdate, now: Time)
    ensures Mirrors(ChangeLog(p.authType, u), p, Applied(p, u, now))
  {
    forall f: Field
      ensures f in ChangeLog(p.authType, u) <==> Writes(p.authType, u, f)
      ensures Column(Applied(p, u, now), f) == (if Writes(p.authType, u, f) then Requested(u, f) else Column(p, f))
    {
      ChangeLogByField(p.authType, u, f);
      AppliedByField(p, u, now, f);
    }
  }

  /** Fields of the other credential type are silently ignored, and a
      profile of neither type takes no credential field at all. */
  lemma OtherTypeIgnored(p: SenderProfile, u: ProfileUpdate, now: Time)
    ensures var q := Applied(p, u, now);
      (p.authType != "oauth" ==>
         q.oauthClientId == p.oauthClientId && q.oauthClientSecret == p.oauthClientSecret
         && q.oauthRefreshToken == p.oauthRefreshToken)
      && (p.authType != "smtp" ==>
         q.smtpHost == p.smtpHost && q.smtpPort == p.smtpPort
         && q.smtpUsername == p.smtpUsername && q.smtpPassword == p.smtpPassword)
      && q.authType == p.authType && q.id == p.id && q.userId == p.userId && q.createdAt == p.createdAt
  {
  }

  /** The handler's common-field block, one field at a time. */
  method BuildCommon(p: SenderProfile, u: ProfileUpdate) returns (m: SenderProfile, changes: map<Field, Json.Value>)
    ensures m == AppliedCommon(p, u)
    ensures forall f :: f in changes <==> IsCommon(f) && Writes(p.authType, u, f)
    ensures forall f :: f in changes ==> changes[f] == LogValue(u, f)
  {
    var name, address, fromName, active := p.name, p.fromAddress, p.fromName, p.isActive;
    changes := map[];
    if u.name.Some? {
      name := u.name.value;
      changes := changes[Name := Json.Str(u.name.value)];
    }
    if u.fromAddress.Some? {
      address := u.fromAddress.value;
      changes := changes[FromAddress := Json.Str(u.fromAddress.value)];
    }
    if u.fromName.Some? {
      fromName := u.fromName;
      changes := changes[FromName := Json.Str(u.fromName.value)];
    }
    if u.isActive.Some? {
      active := u.isActive.value;
      changes := changes[IsActive := Json.Bool(u.isActive.value)];
    }
    m := p.(name := name, fromAddress := address, fromName := fromName, isActive := active);
  }

  /** The handler's SMTP block, run only for an smtp profile. */
  method BuildSmtp(p: SenderProfile, u: ProfileUpdate) returns (m: SenderProfile, changes: map<Field, Json.Value>)
    ensures m == AppliedSmtp(p, u)
    ensures forall f :: f in changes <==> IsSmtp(f) && Writes(p.authType, u, f)
    ensures forall f :: f in changes ==> changes[f] == LogValue(u, f)
  {
    m, changes := p, map[];
    if p.authType == "smtp" {
      var host, port, user, password := p.smtpHost, p.smtpPort, p.smtpUsername, p.smtpPassword;
      if u.smtpHost.Some? {
        host := u.smtpHost;
        changes := changes[SmtpHost := Json.Str(u.smtpHost.value)];
      }
      if u.smtpPort.Some? {
        port := u.smtpPort;
        changes := changes[SmtpPort := Json.Int(u.smtpPort.value)];
      }
      if u.smtpUsername.Some? {
        user := u.smtpUsername;
        changes := changes[SmtpUsername := Json.Str(u.smtpUsername.value)];
      }
      if u.smtpPassword.Some? {
        password := u.smtpPassword;
        changes := changes[SmtpPassword := Json.Str(Redacted)];
      }
      m := p.(smtpHost := host, smtpPort := port, smtpUsername := user, smtpPassword := password);
    }
  }

  /** The handler's OAuth block, run only for an oauth profile. */
  method BuildOAuth(p: SenderProfile, u: ProfileUpdate) returns (m: SenderProfile, changes: map<Field, Json.Value>)
    ensures m == AppliedOAuth(p, u)
    ensures forall f :: f in changes <==> !IsCommon(f) && !IsSmtp(f) && Writes(p.authType, u, f)
    ensures forall f :: f in changes ==> changes[f] == LogValue(u, f)
  {
    m, changes := p, map[];
    if p.authType == "oauth" {
      var clientId, secret, refresh := p.oauthClientId, p.oauthClientSecret, p.oauthRefreshToken;
      if u.oauthClientId.Some? {
        clientId := u.oauthClientId;
        changes := changes[OAuthClientId := Json.Str(u.oauthClientId.value)];
      }
      if u.oauthClientSecret.Some? {
        secret := u.oauthClientSecret;
        changes := changes[OAuthClientSecret := Json.Str(Redacted)];
      }
      if u.oauthRefreshToken.Some? {
        refresh := u.oauthRefreshToken;
        changes := changes[OAuthRefreshToken := Json.Str(Redacted)];
      }
      m := p.(oauthClientId := clientId, oauthClientSecret := secret, oauthRefreshToken := refresh);
    }
  }

  /** The three field groups' logs together make the change log. */
  lemma ChangeLogParts(authType: string, u: ProfileUpdate,
                       common: map<Field, Json.Value>, smtp: map<Field, Json.Value>, oauth: map<Field, Json.Value>)
    requires forall f :: f in common <==> IsCommon(f) && Writes(authType, u, f)
    requires forall f :: f in smtp <==> IsSmtp(f) && Writes(authType, u, f)
    requires forall f :: f in oauth <==> !IsCommon(f) && !IsSmtp(f) && Writes(authType, u, f)
    requires forall f :: f in common ==> common[f] == LogValue(u, f)
    requires forall f :: f in smtp ==> smtp[f] == LogValue(u, f)
    requires forall f :: f in oauth ==> oauth[f] == LogValue(u, f)
    ensures common + smtp + oauth == ChangeLog(authType, u)
  {
    var all, log := common + smtp + oauth, ChangeLog(authType, u);
    forall f | f in all
      ensures f in log && all[f] == log[f]
    {
      ChangeLogByField(authType, u, f);
      PartsAt(authType, u, common, smtp, oauth, f);
    }
    forall f | f in log
      ensures f in all
    {
      ChangeLogByField(authType, u, f);
      PartsAt(authType, u, common, smtp, oauth, f);
    }
    assert all.Keys == log.Keys;
  }

  /** One field of the merged group logs. */
  lemma PartsAt(authType: string, u: ProfileUpdate,
                common: map<Field, Json.Value>, smtp: map<Field, Json.Value>, oauth: map<Field, Json.Value>, f: Field)
    requires f in common <==> IsCommon(f) && Writes(authType, u, f)
    requires f in smtp <==> IsSmtp(f) && Writes(authType, u, f)
    requires f in oauth <==> !IsCommon(f) && !IsSmtp(f) && Writes(authType, u, f)
    requires f in common ==> common[f] == LogValue(u, f)
    requires f in smtp ==> smtp[f] == LogValue(u, f)
    requires f in oauth ==> oauth[f] == LogValue(u, f)
    ensures f in common + smtp + oauth <==> Writes(authType, u, f)
    ensures f in common + smtp + oauth ==> (common + smtp + oauth)[f] == LogValue(u, f)
  {
  }

  /** The handler's whole builder: the updated row and its change log. */
  method BuildUpdate(p: SenderProfile, u: ProfileUpdate, now: Time) returns (m: SenderProfile, changes: map<Field, Json.Value>)
    ensures m == Applied(p, u, now)
    ensures changes == ChangeLog(p.authType, u)
  {
    var common, smtp, oauth;
    m, common := BuildCommon(p, u);
    m, smtp := BuildSmtp(m, u);
    m, oauth := BuildOAuth(m, u);
    ChangeLogParts(p.authType, u, common, smtp, oauth);
    changes := common + smtp + oauth;
    m := m.(updatedAt := now);
  }

  /** The inserted row, built as the handler builds it: the common fields,
      then the credentials of the profile's type. */
  method NewProfile(id: int, userId: int, req: ProfileCreate, now: Time) returns (p: SenderProfile)
    ensures p == StoredProfile(id, userId, req, now)
  {
    p := SenderProfile(id, req.name, userId, req.authType, req.fromAddress, req.fromName,
                       None, None, None, None, None, None, None, req.isActive, now, now);
    if req.authType == "smtp" {
      p := p.(smtpHost := req.smtpHost, smtpPort := req.smtpPort,
              smtpUsername := req.smtpUsername, smtpPassword := req.smtpPassword);
    }
    if req.authType == "oauth" {
      p := p.(oauthClientId := req.oauthClientId, oauthClientSecret := req.oauthClientSecret,
              oauthRefreshToken := req.oauthRefreshToken);
    }
  }

  /** A profile the caller may act on: their own, or any for an admin. */
  predicate Visible(profiles: map<int, SenderProfile>, id: int, userId: int, isAdmin: bool) {
    id in profiles && (profiles[id].userId == userId || isAdmin)
  }

  class ProfileStore {
    var profiles: map<int, SenderProfile>
    var nextId: int

    /** Every profile is stored under its own id, below the next id to give out. */
    ghost predicate Valid()
      reads this
    {
      nextId >= 1 && forall k :: k in profiles ==> 1 <= k < nextId && profiles[k].id == k
    }

    constructor ()
      ensures Valid() && profiles == map[]
    {
      profiles := map[];
      nextId := 1;
    }

    /** `POST /api/v1/sender-profiles/`. */
    method Create(userId: int, req: ProfileCreate, now: Time) returns (r: Result<SenderProfile>)
      requires Valid()
      modifies this
      ensures Valid()
      ensures CheckCreate(old(profiles), userId, req).Fail? ==>
        r == Fail(400, CheckCreate(old(profiles), userId, req).detail) && profiles == old(profiles)
      ensures CheckCreate(old(profiles), userId, req).Ok? ==>
        old(nextId) !in old(profiles)
        && r == Ok(StoredProfile(old(nextId), userId, req, now))
        && profiles == old(profiles)[old(nextId) := StoredProfile(old(nextId), userId, req, now)]
    {
      var check := CheckCreate(profiles, userId, req);
      if check.Fail? {
        return Fail(400, check.detail);
      }
      var p := NewProfile(nextId, userId, req, now);
      profiles := profiles[nextId := p];
      nextId := nextId + 1;
      r := Ok(p);
    }

    /** `PUT /api/v1/sender-profiles/{id}`. `hasRequest` says whether the
        handler received the request object; the activity is logged only
        when it did and something changed. */
    method Update(id: int, userId: int, isAdmin: bool, u: ProfileUpdate, now: Time, hasRequest: bool)
      returns (r: Result<SenderProfile>, changes: map<Field, Json.Value>, logged: bool)
      requires Valid()
      modifies this
      ensures Valid() && nextId == old(nextId)
      ensures !Visible(old(profiles), id, userId, isAdmin) ==>
        r == Fail(404, "Sender profile not found") && profiles == old(profiles) && !logged
      ensures Visible(old(profiles), id, userId, isAdmin) && u.name.Some?
              && NameTaken(old(profiles), userId, u.name.value, Some(id)) ==>
        r == Fail(400, "A sender profile with this name already exists") && profiles == old(profiles) && !logged
      ensures Visible(old(profiles), id, userId, isAdmin)
              && !(u.name.Some? && NameTaken(old(profiles), userId, u.name.value, Some(id))) ==>
        r == Ok(Applied(old(profiles)[id], u, now))
        && profiles == old(profiles)[id := Applied(old(profiles)[id], u, now)]
        && changes == ChangeLog(old(profiles)[id].authType, u)
        && (logged <==> hasRequest && changes != map[])
    {
      changes, logged := map[], false;
      if !(id in profiles && (profiles[id].userId == userId || isAdmin)) {
        return Fail(404, "Sender profile not found"), changes, logged;
      }
      if u.name.Some? && NameTaken(profiles, userId, u.name.value, Some(id)) {
        return Fail(400, "A sender profile with this name already exists"), changes, logged;
      }
      var m;
      m, changes := BuildUpdate(profiles[id], u, now);
      profiles := profiles[id := m];
      logged := hasRequest && changes != map[];
      r := Ok(m);
    }
  }
}
