/** The two public tracking endpoints: `GET /api/v1/track/f1/{unique_id}`
    (the open pixel) and `POST /api/v1/track/f2/{unique_id}` (the injected
    form script). Both decode a `campaign_id*target_id` token and update the
    matching funnel row in place. */
module Tracker {
  import opened Wrappers
  import opened Tokens
  import opened Results
  import Json

  /** The status code and `detail` of the JSON response. */
  datatype Reply = Reply(status: int, detail: string)

  /** Open pixel (routers/tracker_router.py:41-92). */
  method TrackOpen(table: ResultsTable, uniqueId: string, now: Time) returns (reply: Reply)
    modifies table
    ensures table.events == old(table.events)
    ensures match DecodePairToken(uniqueId)
      case Fail(code, detail) => reply == Reply(code, detail) && table.rows == old(table.rows)
      case Ok(key) =>
        if key in old(table.rows) then
          reply == Reply(200, "Email opened successfully tracked")
          && table.rows == old(table.rows)[key := Opened(old(table.rows)[key], now)]
        else
          reply == Reply(404, "Record not found") && table.rows == old(table.rows)
  {
    var decoded := DecodePairToken(uniqueId);
    if decoded.Fail? {
      return Reply(decoded.code, decoded.detail);
    }
    var key := decoded.value;
    if key !in table.rows {
      return Reply(404, "Record not found");
    }
    var row := table.rows[key];
    table.rows := table.rows[key := row.(emailOpened := true, emailOpenedAt := Some(row.emailOpenedAt.GetOr(now)))];
    reply := Reply(200, "Email opened successfully tracked");
  }

  /** Form submission (routers/tracker_router.py:96-176). `body` is the
      decoded request body, `None` when it is not valid JSON. The body checks
      come before the row lookup. */
  method TrackSubmit(table: ResultsTable, uniqueId: string, body: Option<Json.Value>, now: Time)
    returns (reply: Reply)
    modifies table
    ensures table.events == old(table.events)
    ensures match DecodePairToken(uniqueId)
      case Fail(code, detail) => reply == Reply(code, detail) && table.rows == old(table.rows)
      case Ok(key) =>
        if body.None? then
          reply == Reply(400, "Invalid JSON body") && table.rows == old(table.rows)
        else if !body.value.Object? then
          reply == Reply(400, "Body must be a JSON object") && table.rows == old(table.rows)
        else if key !in old(table.rows) then
          reply == Reply(404, "Record not found") && table.rows == old(table.rows)
        else
          reply == Reply(200, "Form data captured successfully")
          && table.rows == old(table.rows)[key := Submitted(old(table.rows)[key], Json.Dumps(body.value), now)]
  {
    var decoded := DecodePairToken(uniqueId);
    if decoded.Fail? {
      return Reply(decoded.code, decoded.detail);
    }
    if body.None? {
      return Reply(400, "Invalid JSON body");
    }
    if !body.value.Object? {
      return Reply(400, "Body must be a JSON object");
    }
    var key := decoded.value;
    if key !in table.rows {
      return Reply(404, "Record not found");
    }
    var updated := MarkSubmitted(table.rows[key], Json.Dumps(body.value), now);
    table.rows := table.rows[key := updated];
    reply := Reply(200, "Form data captured successfully");
  }

  /** The row update of a submission, field by field. */
  method MarkSubmitted(row: CampaignResult, newData: string, now: Time) returns (updated: CampaignResult)
    ensures updated == Submitted(row, newData, now)
  {
    updated := row.(formSubmitted := true, credentialsCaptured := true);
    if row.formSubmittedAt.None? {
      updated := updated.(formSubmittedAt := Some(now));
    }
    if row.capturedData.Some? && row.capturedData.value != [] {
      updated := updated.(capturedData := Some(row.capturedData.value + "\n" + newData));
    } else {
      updated := updated.(capturedData := Some(newData));
    }
  }
}
