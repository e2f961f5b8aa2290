/** The per-recipient funnel row of `campaign_results` (database.py:173-190)
    and the four ways the routers write it: the open pixel, the tracked link,
    the form submission and the dispatcher's upsert. Each write has its own
    timestamp rule. The table itself is a class whose rows the request
    handlers update in place. */
module Results {
  import opened Wrappers
  import Text

  /** A point in time (`datetime.utcnow()`), supplied by the caller. */
  type Time = int

  /** Row key: (campaign id, target id). */
  type Key = (int, int)

  /** The columns the routers write; `ip_address` and `user_agent` are never
      written by them. */
  datatype CampaignResult = CampaignResult(
    emailSent: bool, emailSentAt: Option<Time>,
    emailOpened: bool, emailOpenedAt: Option<Time>,
    linkClicked: bool, linkClickedAt: Option<Time>,
    formSubmitted: bool, formSubmittedAt: Option<Time>,
    credentialsCaptured: bool, capturedData: Option<string>,
    createdAt: Time, updatedAt: Time)

  /** A row of `email_events`. */
  datatype EmailEvent = EmailEvent(campaignId: int, targetId: int, eventType: string, eventData: string)

  /** Python truthiness of an optional text column. */
  predicate Truthy(s: Option<string>) {
    s.Some? && s.value != []
  }

  // ---------------------------------------------------------------------
  // open pixel (routers/tracker_router.py:77-80)

  function Opened(r: CampaignResult, now: Time): (r': CampaignResult)
    ensures r'.emailOpened
    ensures r'.emailOpenedAt == (if r.emailOpenedAt.Some? then r.emailOpenedAt else Some(now))
    ensures r'.(emailOpened := r.emailOpened, emailOpenedAt := r.emailOpenedAt) == r
  {
    r.(emailOpened := true, emailOpenedAt := Some(r.emailOpenedAt.GetOr(now)))
  }

  /** Repeated opens never move the open timestamp: the first one wins. */
  lemma {:induction false} OpenedTwice(r: CampaignResult, t1: Time, t2: Time)
    ensures Opened(Opened(r, t1), t2) == Opened(r, t1)
  {
  }

  // ---------------------------------------------------------------------
  // tracked link (routers/phishlet_router.py:794-800)

  /** The click timestamp is the open timestamp when there is one, else the
      time of this visit; it is rewritten on every visit. */
  function Clicked(r: CampaignResult, now: Time): (r': CampaignResult)
    ensures r'.linkClicked
    ensures r'.linkClickedAt == (if r.emailOpenedAt.Some? then r.emailOpenedAt else Some(now))
    ensures r'.(linkClicked := r.linkClicked, linkClickedAt := r.linkClickedAt) == r
  {
    r.(linkClicked := true, linkClickedAt := Some(r.emailOpenedAt.GetOr(now)))
  }

  /** A later visit to a never-opened message overwrites the click time. */
  lemma ClickedTwice(r: CampaignResult, t1: Time, t2: Time)
    ensures Clicked(Clicked(r, t1), t2).linkClickedAt
         == (if r.emailOpenedAt.Some? then r.emailOpenedAt else Some(t2))
  {
  }

  // ---------------------------------------------------------------------
  // form submission (routers/tracker_router.py:146-164)

  /** `captured_data` after one more submission: the old log, a newline and
      the new entry, or the entry alone when the log is empty or absent. */
  function AppendCapture(log: Option<string>, entry: string): (r: string)
    ensures Truthy(log) ==> r == log.value + "\n" + entry
    ensures !Truthy(log) ==> r == entry
  {
    if Truthy(log) then log.value + "\n" + entry else entry
  }

  function Submitted(r: CampaignResult, entry: string, now: Time): (r': CampaignResult)
    ensures r'.formSubmitted && r'.credentialsCaptured
    ensures r'.formSubmittedAt == (if r.formSubmittedAt.Some? then r.formSubmittedAt else Some(now))
    ensures r'.capturedData == Some(AppendCapture(r.capturedData, entry))
    ensures r'.(formSubmitted := r.formSubmitted, credentialsCaptured := r.credentialsCaptured,
                formSubmittedAt := r.formSubmittedAt, capturedData := r.capturedData) == r
  {
    r.(formSubmitted := true, credentialsCaptured := true,
       formSubmittedAt := if r.formSubmittedAt.None? then Some(now) else r.formSubmittedAt,
       capturedData := Some(AppendCapture(r.capturedData, entry)))
  }

  /** A sequence of submissions, each with the body it carried and its time. */
  function SubmittedAll(r: CampaignResult, subs: seq<(string, Time)>): CampaignResult
  {
    if subs == [] then r
    else Submitted(SubmittedAll(r, subs[..|subs| - 1]), subs[|subs| - 1].0, subs[|subs| - 1].1)
  }

  function Entries(subs: seq<(string, Time)>): (es: seq<string>)
    ensures |es| == |subs|
    ensures forall i :: 0 <= i < |subs| ==> es[i] == subs[i].0
  {
    if subs == [] then [] else Entries(subs[..|subs| - 1]) + [subs[|subs| - 1].0]
  }

  /** Starting from an empty log, non-empty submissions accumulate as exactly
      one newline-separated entry each, in order and without deduplication,
      whatever the row's submit time. */
  lemma {:induction false} SubmittedAllCaptures(r: CampaignResult, subs: seq<(string, Time)>)
    requires !Truthy(r.capturedData)
    requires |subs| >= 1
    requires forall i :: 0 <= i < |subs| ==> subs[i].0 != []
    ensures SubmittedAll(r, subs).capturedData == Some(Text.Join(Entries(subs), "\n"))
    ensures SubmittedAll(r, subs).formSubmitted && SubmittedAll(r, subs).credentialsCaptured
  {
    var n := |subs|;
    if n > 1 {
      var init := subs[..n - 1];
      SubmittedAllCaptures(r, init);
      var es := Entries(init);
      Text.JoinSnoc(es, subs[n - 1].0, "\n");
      Text.JoinStartsWithFirst(es, "\n");
      assert Entries(subs) == es + [subs[n - 1].0];
    }
  }

  /** On a row never submitted before, the first submission's time is kept
      as the submit time through any number of later submissions. */
  lemma {:induction false} SubmittedAllFirstTime(r: CampaignResult, subs: seq<(string, Time)>)
    requires r.formSubmittedAt.None?
    requires |subs| >= 1
    ensures SubmittedAll(r, subs).formSubmittedAt == Some(subs[0].1)
  {
    var n := |subs|;
    if n > 1 {
      SubmittedAllFirstTime(r, subs[..n - 1]);
      assert subs[..n - 1][0] == subs[0];
    }
  }

  /** Both together: the newline-joined log of all bodies, and the first
      submission's time. */
  lemma SubmittedAllLog(r: CampaignResult, subs: seq<(string, Time)>)
    requires !Truthy(r.capturedData) && r.formSubmittedAt.None?
    requires |subs| >= 1
    requires forall i :: 0 <= i < |subs| ==> subs[i].0 != []
    ensures SubmittedAll(r, subs).capturedData == Some(Text.Join(Entries(subs), "\n"))
    ensures SubmittedAll(r, subs).formSubmittedAt == Some(subs[0].1)
    ensures SubmittedAll(r, subs).formSubmitted && SubmittedAll(r, subs).credentialsCaptured
  {
    SubmittedAllCaptures(r, subs);
    SubmittedAllFirstTime(r, subs);
  }

  // ---------------------------------------------------------------------
  // dispatcher upsert (routers/campaigns_router.py:807-815)

  /** The row `update_or_insert` creates at a first successful send, with the
      column defaults of database.py for everything else. */
  function SentRow(now: Time): CampaignResult {
    CampaignResult(true, Some(now), false, None, false, None, false, None, false, None, now, now)
  }

  /** `update_or_insert`: an existing row is marked sent at `now` (the send
      time is overwritten on every send); a missing one is created. */
  function Upsert(rows: map<Key, CampaignResult>, key: Key, now: Time): (rows': map<Key, CampaignResult>)
    ensures rows'.Keys == rows.Keys + {key}
    ensures rows'[key].emailSent && rows'[key].emailSentAt == Some(now) && rows'[key].updatedAt == now
    ensures key in rows ==> rows'[key].(emailSent := rows[key].emailSent, emailSentAt := rows[key].emailSentAt,
                                        updatedAt := rows[key].updatedAt) == rows[key]
    ensures forall k :: k in rows && k != key ==> rows'[k] == rows[k]
  {
    if key in rows then rows[key := rows[key].(emailSent := true, emailSentAt := Some(now), updatedAt := now)]
    else rows[key := SentRow(now)]
  }

  /** A row marked sent stays marked sent, and the upserted row is marked. */
  lemma UpsertKeepsSent(rows: map<Key, CampaignResult>, key: Key, now: Time, k: Key)
    requires k == key || (k in rows && rows[k].emailSent)
    ensures k in Upsert(rows, key, now) && Upsert(rows, key, now)[k].emailSent
  {
  }

  /** Sending never erases the progress already recorded for a recipient. */
  lemma UpsertKeepsFunnel(rows: map<Key, CampaignResult>, key: Key, now: Time)
    requires key in rows
    ensures var r := Upsert(rows, key, now)[key];
      r.emailOpened == rows[key].emailOpened && r.linkClicked == rows[key].linkClicked
      && r.formSubmitted == rows[key].formSubmitted && r.capturedData == rows[key].capturedData
  {
  }

  /** The result table and the sent-event log, written in place by the handlers. */
  class ResultsTable {
    var rows: map<Key, CampaignResult>
    var events: seq<EmailEvent>

    constructor ()
      ensures rows == map[] && events == []
    {
      rows := map[];
      events := [];
    }
  }
}
