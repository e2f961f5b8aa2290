/** The correlation-token scheme shared by the dispatcher, the page server and
    the tracker: identities are joined with `*` into one path segment, and the
    receiving side classifies a token by how many `*`-separated segments it has.
    Handles are `str(uuid4())` values (routers/phishlet_router.py:302, 470),
    which never contain `*`. */
module Tokens {
  import opened Wrappers
  import opened Text

  const Delimiter: char := '*'

  /** Text of a version-4 UUID: 36 characters, hexadecimal digits and dashes. */
  predicate IsUuidText(h: string) {
    |h| == 36 && forall i :: 0 <= i < |h| ==> (IsDigit(h[i]) || 'a' <= h[i] <= 'f' || h[i] == '-')
  }

  /** A serving handle the codec can carry: it holds no delimiter. */
  predicate IsHandle(h: string) {
    Delimiter !in h
  }

  lemma UuidIsHandle(h: string)
    requires IsUuidText(h)
    ensures IsHandle(h)
  {
    forall i | 0 <= i < |h|
      ensures h[i] != Delimiter
    {
    }
  }

  // ---------------------------------------------------------------------
  // encoding (routers/campaigns_router.py:733, 745; routers/phishlet_router.py:858)

  /** `f"{handle}*{campaign_id}*{target_id}"`: the tracked serve token. */
  function TrackedToken(handle: string, campaignId: int, targetId: int): string {
    Join([handle, IntToString(campaignId), IntToString(targetId)], [Delimiter])
  }

  /** `f"{campaign_id}*{target_id}"`: the open-pixel and form-submit token. */
  function PairToken(campaignId: int, targetId: int): string {
    Join([IntToString(campaignId), IntToString(targetId)], [Delimiter])
  }

  // ---------------------------------------------------------------------
  // decoding by the page server (routers/phishlet_router.py:783-787, 802)

  /** How the page server reads its path segment. */
  datatype ServeRequest =
    | Untracked(handle: string)                               // any count but 3
    | Tracked(handle: string, campaignId: int, targetId: int) // exactly 3 segments
    | BadIds                                                  // 3 segments, an `int()` raises

  function DecodeServeToken(token: string): (r: ServeRequest)
    ensures r.Untracked? <==> |Split(token, Delimiter)| != 3
    ensures r.BadIds? <==>
      |Split(token, Delimiter)| == 3
      && (ParseInt(Split(token, Delimiter)[1]).None? || ParseInt(Split(token, Delimiter)[2]).None?)
    ensures !r.BadIds? ==> r.handle == Split(token, Delimiter)[0]
  {
    var parts := Split(token, Delimiter);
    if |parts| == 3 then
      match (ParseInt(parts[1]), ParseInt(parts[2]))
      case (Some(c), Some(t)) => Tracked(parts[0], c, t)
      case _ => BadIds
    else Untracked(parts[0])
  }

  /** Tracked tokens built by the dispatcher decode to their three parts. */
  lemma DecodeTrackedToken(handle: string, campaignId: int, targetId: int)
    requires IsHandle(handle)
    ensures DecodeServeToken(TrackedToken(handle, campaignId, targetId))
         == Tracked(handle, campaignId, targetId)
  {
    var parts := [handle, IntToString(campaignId), IntToString(targetId)];
    IntToStringChars(campaignId, Delimiter);
    IntToStringChars(targetId, Delimiter);
    SplitJoin(parts, Delimiter);
    ParseIntToString(campaignId);
    ParseIntToString(targetId);
  }

  /** A bare handle is served untracked. */
  lemma DecodeBareHandle(handle: string)
    requires IsHandle(handle)
    ensures DecodeServeToken(handle) == Untracked(handle)
  {
    SplitNoDelimiter(handle, Delimiter);
  }

  /** Any segment count other than three is untracked and addressed by the
      first segment, so `a*b*c*d` serves handle `a` without instrumentation. */
  lemma DecodeOtherArity(token: string)
    requires Count(token, Delimiter) != 2
    ensures DecodeServeToken(token) == Untracked(Split(token, Delimiter)[0])
  {
  }

  // ---------------------------------------------------------------------
  // decoding by the tracker (routers/tracker_router.py:42-63, 98-118)

  /** `unique_id` checks shared by both tracker endpoints: present, exactly two
      `*`-segments, both integers. Failures are 400 responses. */
  function DecodePairToken(token: string): (r: Result<(int, int)>)
    ensures r.Fail? ==> r.code == 400
    ensures r.Ok? ==> Count(token, Delimiter) == 1
  {
    if token == [] then Fail(400, "unique_id is required")
    else
      var parts := Split(token, Delimiter);
      if |parts| != 2 then
        Fail(400, "Invalid unique_id format. Expected <campaign_id>*<user_id>")
      else
        match (ParseInt(parts[0]), ParseInt(parts[1]))
        case (Some(c), Some(t)) => Ok((c, t))
        case _ => Fail(400, "campaign_id and user_id must be integers")
  }

  /** Pixel and submit tokens built by the dispatcher and the injected script
      decode to the pair they were built from. */
  lemma DecodePairTokenRoundTrip(campaignId: int, targetId: int)
    ensures DecodePairToken(PairToken(campaignId, targetId)) == Ok((campaignId, targetId))
  {
    var parts := [IntToString(campaignId), IntToString(targetId)];
    IntToStringChars(campaignId, Delimiter);
    IntToStringChars(targetId, Delimiter);
    SplitJoin(parts, Delimiter);
    ParseIntToString(campaignId);
    ParseIntToString(targetId);
  }

  /** A token is accepted only if it splits into exactly two integer segments. */
  lemma DecodePairTokenAccepts(token: string)
    ensures DecodePairToken(token).Ok? <==>
      (var parts := Split(token, Delimiter);
       |parts| == 2 && ParseInt(parts[0]).Some? && ParseInt(parts[1]).Some?)
  {
    if token == [] {
      assert Split(token, Delimiter) == [""];
    }
  }

  /** The serve token the page server receives for a tracked link is never
      accepted by the tracker: it has three segments, not two. */
  lemma TrackedTokenNotAPair(handle: string, campaignId: int, targetId: int)
    requires IsHandle(handle)
    ensures DecodePairToken(TrackedToken(handle, campaignId, targetId)).Fail?
  {
    IntToStringChars(campaignId, Delimiter);
    IntToStringChars(targetId, Delimiter);
    SplitJoin([handle, IntToString(campaignId), IntToString(targetId)], Delimiter);
  }
}
