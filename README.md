# Campaign tracking pipeline of a phishing-simulation API, in Dafny

This project models the part of a phishing-simulation API that runs a campaign end to end, and proves properties of that model. The original is a FastAPI service. The campaign steps are:

1. An operator clones a login page into a *phishlet*. The HTML is rewritten: URLs are made absolute and form fields are catalogued.
2. The operator writes an email template by hand, or generates one with an AI provider, or imports one from an `.eml` upload.
3. The operator picks a sender profile (SMTP or OAuth credentials) and creates a campaign, whose status is scheduled, running or paused.
4. `send_email` mails every active recipient. Each mail carries:
   - a tracked link `clone_url*campaign_id*target_id`;
   - an open pixel `track/f1/campaign_id*target_id`.
5. When a recipient follows the link, the page server records the click and serves the cloned page with an injected script. The script posts the form's fields to `track/f2/campaign_id*target_id`.
6. The tracker updates the recipient's funnel row (opened, clicked, submitted) and appends every submission to a newline-separated capture log. The campaign router reads that log back as credential lists.

The model follows the routers file by file:

| file | module | contents |
|---|---|---|
| `wrappers.dfy` | `Wrappers` | `Option` and `Result` (an HTTP status and detail on failure) |
| `text.dfy` | `Text` | The parts of Python's `str` used by the routers: split, join, replace, strip, ASCII lower-casing, `int()` and `str()` |
| `json.dfy` | `Json` | JSON values and a concrete `json.dumps` |
| `html.dfy` | `Html` | Parsed HTML as an element tree, with document-order listing and `find`/`append` |
| `tokens.dfy` | `Tokens` | The `*`-separated correlation tokens shared by dispatch, the page server and the tracker |
| `results.dfy` | `Results` | The per-recipient funnel row and its four update rules, plus the results table as a class |
| `tracker.dfy` | `Tracker` | The open-pixel and form-submit endpoints |
| `phishlet.dfy` | `Phishlet` | Form-field extraction, URL absolutisation, the (uncalled) button replacement, and tracked serving |
| `captured_data.dfy` | `CapturedData` | `parse_captured_data` |
| `campaigns.dfy` | `Campaigns` | Campaign create, update, run and pause over a campaign table class |
| `dispatch.dfy` | `Dispatch` | `send_email`: validation, recipients, per-recipient mail and the send loop |
| `ai_response.dfy` | `AiResponse` | The section parser applied to AI provider replies, in its two fallback variants |
| `email_templates.dfy` | `EmailTemplates` | Template create, update and `.eml` import over a template table class |
| `sender_profiles.dfy` | `SenderProfiles` | Sender profile create and the type-gated update with its redacted change log |

Tables are Dafny maps held in classes (`CampaignStore`, `TemplateStore`, `ProfileStore`, `ResultsTable`), and the handlers update them in place. Loops in the source are methods with loop invariants, proved against specification functions. The properties are proved about those functions.

Where the code and its documentation disagree, the model follows the code:
- `email_sent_at` is overwritten on every successful send, not only on the first.
- `link_clicked_at` is set again on every tracked visit, to the open time if there is one, else to now.
- The page server does not check a phishlet's `is_active` flag.
- Template creation accepts a template with HTML content and no plain text (routers/email_template_router.py:369-373). Sending such a template without a phishlet or attachment ends the whole send with a 500 at the first recipient, because `MIMEText(None, "plain")` fails (routers/campaigns_router.py:748; `Dispatch.HtmlOnlyTemplateAborts`).
- A three-segment serve token whose ids are not integers raises an unhandled `ValueError`, which is a 500, not a 400.

## Model

| member | source | states |
|---|---|---|
| Tokens.UuidIsHandle | routers/phishlet_router.py:302 | A `uuid4` text (hex digits and dashes) never contains `*`, so every serving handle fits in a token |
| Tokens.DecodeTrackedToken | routers/phishlet_router.py:783-787 | The tracked link `handle*cid*tid` built by dispatch is read by the page server as tracked, with exactly that handle and those two ids (round trip) |
| Tokens.DecodeBareHandle | routers/phishlet_router.py:783-802 | A bare handle is served untracked, under that same handle |
| Tokens.DecodeOtherArity | routers/phishlet_router.py:785-802 | Any token whose segment count is not 3 is served untracked, addressed by its first segment |
| Tokens.DecodeServeToken | routers/phishlet_router.py:783-802 | A serve token is untracked exactly when it does not have 3 `*`-segments; it is refused (`BadIds`) exactly when it has 3 and an id does not parse; otherwise the handle is its first segment |
| Tokens.TrackedToken | routers/campaigns_router.py:733 | The link token `handle*cid*tid`; its decoding by the page server is `DecodeTrackedToken` |
| Tokens.DecodePairToken | routers/tracker_router.py:43-63 | Every rejection of a tracker token is a 400, and an accepted token has exactly one `*` |
| Tokens.DecodePairTokenAccepts | routers/tracker_router.py:43-63 | A tracker token is accepted if and only if it splits into exactly two segments that both parse as integers |
| Tokens.DecodePairTokenRoundTrip | routers/campaigns_router.py:745 | The pixel and submit token `cid*tid` decodes back to `(cid, tid)` for every pair of ints, negative ones included |
| Tokens.TrackedTokenNotAPair | routers/tracker_router.py:49-54 | The three-segment serve token is always refused by the tracker |
| Results.Opened | routers/tracker_router.py:77-80 | An open sets `email_opened`, keeps an existing open time (else sets now), and changes no other column |
| Results.OpenedTwice | routers/tracker_router.py:77-80 | A second open changes nothing: the first open time wins |
| Results.Clicked | routers/phishlet_router.py:794-800 | A click sets `link_clicked`, sets the click time to the open time if there is one (else now), and changes nothing else |
| Results.ClickedTwice | routers/phishlet_router.py:794-800 | After two visits the click time is the open time if the row was opened, else the second visit's time: for an unopened row the last click wins |
| Results.AppendCapture | routers/tracker_router.py:158-161 | The capture log gets the new entry after a newline, or is replaced by it when it was empty or absent |
| Results.Submitted | routers/tracker_router.py:146-164 | A submission sets `form_submitted` and `credentials_captured`, keeps the first submit time, appends one entry to the log, and changes nothing else |
| Results.Entries | routers/tracker_router.py:153-161 | The entries of a run of submissions are their bodies, one per submission, in order |
| Results.SubmittedAllCaptures | routers/tracker_router.py:146-161 | Starting from an empty log, n non-empty submissions leave exactly their bodies joined by newlines, in order, with no deduplication, whatever the row's submit time |
| Results.SubmittedAllFirstTime | routers/tracker_router.py:150-151 | On a row never submitted before, the first submission's time stays the submit time through every later submission |
| Results.SubmittedAllLog | routers/tracker_router.py:146-164 | Starting from an empty row, n non-empty submissions leave exactly their bodies joined by newlines, in order, with no deduplication; the submit time is the first submission's |
| Results.Upsert | routers/campaigns_router.py:807-815 | A send marks its row sent at now (creating the row if missing), keeps every other column of an existing row, and leaves other rows alone |
| Results.UpsertKeepsSent | routers/campaigns_router.py:807-815 | A row already marked sent, and the upserted row, are marked sent afterwards |
| Results.UpsertKeepsFunnel | routers/campaigns_router.py:807-815 | Sending again never erases opens, clicks or captured data already recorded |
| Results.ResultsTable.constructor | database.py:173-190 | The results table starts empty, with no events |
| Tracker.TrackOpen | routers/tracker_router.py:41-92 | Token errors give the decoder's 400 and change nothing; a missing row gives 404; otherwise exactly that row becomes `Opened` and the reply is 200 |
| Tracker.TrackSubmit | routers/tracker_router.py:96-176 | Token errors give 400, then a non-JSON or non-object body gives 400 before the row lookup, then a missing row gives 404; otherwise exactly that row becomes `Submitted` with the body's `json.dumps` |
| Tracker.MarkSubmitted | routers/tracker_router.py:146-164 | The handler's field-by-field update equals the submission rule `Submitted` |
| Phishlet.DescribeAll | routers/phishlet_router.py:89-114 | One descriptor per control of the form, in order, each with its control's tag, its `type` (default "text"), `name`, `id` and `placeholder` (default ""), `required` exactly when the attribute is present, and its form's `action` (default "") and lower-cased `method` (default "get") |
| Phishlet.DescribeForm | routers/phishlet_router.py:96-114 | The inner loop yields the descriptors of the form's controls, in order, with the attribute defaults |
| Phishlet.ExtractFormFields | routers/phishlet_router.py:82-116 | The handler's nested loops compute the descriptors of every control of every form, form after form in document order |
| Phishlet.FieldsAreControls | routers/phishlet_router.py:89-102 | Every descriptor is of a control tag, and its form method is lower case |
| Phishlet.DescribeDefaults | routers/phishlet_router.py:97-102 | A control's descriptor takes each attribute when present and otherwise its default (`type` "text"; `name`, `id`, `placeholder` ""); `required` holds exactly when the attribute exists, even with an empty value |
| Phishlet.Describe | routers/phishlet_router.py:89-112 | One control's descriptor; its defaults are stated by `DescribeDefaults` and `DescribeAll`, its tag and method by `FieldsAreControls` |
| Phishlet.FieldsCount | routers/phishlet_router.py:88-114 | The number of descriptors is exactly the sum over forms of their control counts |
| Phishlet.NoFormsNoFields | routers/phishlet_router.py:85-88 | A page without forms yields no descriptors, whatever controls it holds |
| Phishlet.AbsoluteAttrs | routers/phishlet_router.py:125-140 | On one element, `src` is resolved unless empty or starting with http://, https://, data: or #; `href` also keeps mailto: and tel:; `action` keeps only http(s); the attribute names and all other attributes are unchanged |
| Phishlet.ConvertedElement | routers/phishlet_router.py:118-141 | Element by element, only `src`/`href`/`action` of `img`/`link`/`script`/`a`/`form` are resolved; every other tag is untouched and the tree keeps its shape |
| Phishlet.ConvertUrlsToAbsolute | routers/phishlet_router.py:118-141 | The whole-page URL rewrite; what it does per element is `ConvertedElement`, and `ConvertIdempotent` shows it is idempotent |
| Phishlet.AbsoluteAttrsIdempotent | routers/phishlet_router.py:125-140 | If `urljoin` yields an http(s) URL for an http(s) base, a second rewrite of one element changes nothing |
| Phishlet.ConvertIdempotent | routers/phishlet_router.py:118-141 | Under the same hypothesis, a second pass over the whole document changes nothing |
| Phishlet.DivAttrs | routers/phishlet_router.py:750-767 | A replacement div moves `onclick` to `data-orig-onclick`, adds `role=button` only when absent, and adds `tabindex=0` only when absent and not disabled; `disabled` adds `aria-disabled=true`; every other attribute is copied unchanged, including a `data-orig-onclick` on a button without `onclick` and an `aria-disabled` on one without `disabled`, and nothing else is added (the function is not called by the page server) |
| Phishlet.ButtonsReplaced | routers/phishlet_router.py:744-776 | Element by element, every button becomes a div whose attributes are `DivAttrs` of its own, every other element keeps its tag and attributes, the element count is unchanged, and no button remains (the rewrite is defined but its one call, at line 828, is commented out) |
| Phishlet.ScriptPostsPair | routers/phishlet_router.py:858 | The injected script posts to `BACKEND_URL/api/v1/track/f2/cid*tid`, and the tracker decodes that token back to `(cid, tid)` |
| Phishlet.PlaceScriptWhere | routers/phishlet_router.py:868-873 | The script is appended to the first `body`, else to the first `head`, else to the document's end, and the page gains exactly the script's elements |
| Phishlet.InstrumentedElement | routers/phishlet_router.py:827-876 | A tracked page has exactly one more element than the stored page; every `button`/`a`/`h1` gets `onclick="sendFormData()"`, whatever it had, and nothing else changes |
| Phishlet.Instrument | routers/phishlet_router.py:827-876 | The tracked page: script placed, then every trigger tag's `onclick` set; described element by element by `PlaceScriptWhere` and `InstrumentedElement` |
| Phishlet.ServeOutcome | routers/phishlet_router.py:802-814 | The response is a 404 exactly when the handle is unknown or the page is empty; an untracked visit gets the stored page unchanged |
| Phishlet.ServePhishlet | routers/phishlet_router.py:780-894 | A three-segment token with non-integer ids is a 500 and writes nothing; a tracked visit updates an existing row to `Clicked` before the phishlet lookup, so the click is recorded even when the reply is a 404; the reply is `ServeOutcome` |
| Phishlet.TrackedLinkServesInstrumented | routers/phishlet_router.py:783-876 | Following a dispatched link serves that phishlet's stored page, instrumented for that campaign and recipient |
| CapturedData.FixJoinedObjects | routers/campaigns_router.py:566 | Rewriting `}\n{` as `},{` turns newline-joined serialised objects into the same objects joined by commas |
| CapturedData.LogIsArrayText | routers/campaigns_router.py:566 | For a log of dumped JSON objects, the fixed-up text is exactly the JSON array text of those dumps |
| CapturedData.DumpAll | routers/tracker_router.py:153-156 | There is one serialisation per submitted body, and none contains a raw newline, so the newline-separated log splits back into them |
| CapturedData.FieldEntry | routers/campaigns_router.py:572-575 | A field contributes at most one entry, and the read succeeds exactly when the field is a JSON object |
| CapturedData.FieldEntryShown | routers/campaigns_router.py:573-575 | A field contributes exactly `key: value` when its value is present and not null, "" or "null", and nothing otherwise |
| CapturedData.FieldEntries | routers/campaigns_router.py:572-575 | A submission's fields all read successfully exactly when each is an object, giving at most one entry per field |
| CapturedData.FieldEntriesFailPrefix | routers/campaigns_router.py:572-575 | The first unreadable field decides the failure of the whole submission |
| CapturedData.AllEntries | routers/campaigns_router.py:569-577 | The reader yields exactly one credential list per submission |
| CapturedData.AllEntriesFailPrefix | routers/campaigns_router.py:569-577 | The first unreadable submission decides the failure of the whole log |
| CapturedData.Credentials | routers/campaigns_router.py:567-580 | The reader after decoding: a decoding failure is a 500, an array gives `AllEntries` of its items |
| CapturedData.FieldCredentials | routers/campaigns_router.py:571-575 | The inner loop computes the submission's entries, or its failure |
| CapturedData.SubmissionCredentials | routers/campaigns_router.py:570-577 | One outer-loop iteration reads `fields` (empty when absent) and computes its entries |
| CapturedData.ParseCapturedData | routers/campaigns_router.py:565-580 | The reader decodes the fixed-up log and succeeds exactly when `Credentials` does, returning the dict `{"credentials": …}` (the record `CapturedView`) holding one credential list per submission, or the decoding failure's code and detail |
| CapturedData.SubmissionsReadBack | routers/campaigns_router.py:565-580 | Object bodies stored one after another by the tracker are read back as the credential lists of those same bodies, in order (round trip through the log), given that `json.loads` decodes array text; the row's earlier submit time does not matter |
| Json.DumpsHasNoNewline | routers/tracker_router.py:153-161 | `json.dumps` never writes a raw newline, so newline-joined dumps can be separated again |
| Json.Dumps | routers/tracker_router.py:153-156 | The serialisation is printable ASCII, and an object is written between braces |
| Json.Get | routers/campaigns_router.py:570-573 | `d.get(key)` finds a value exactly when some member has that key |
| Json.GetFound | routers/campaigns_router.py:570-573 | The value found is the one of the first member with that key |
| Json.GetDistinct | routers/campaigns_router.py:570-573 | In a dict with distinct keys (every dict the decoder yields), `d.get(k)` is exactly the value stored under `k` |
| Campaigns.CheckCreate | routers/campaigns_router.py:94-137 | A create is accepted exactly when the user has no campaign of that name, a sender profile and a template are given, and a phishlet or an attachment is given; every rejection is a 400 |
| Campaigns.InitialSchedule | routers/campaigns_router.py:105-116 | A new campaign runs at once exactly when `launch_now`, and is otherwise scheduled; the schedule is the requested time when not launching, else now |
| Campaigns.NewCampaign | routers/campaigns_router.py:140-154 | The inserted row: active, with the initial status and schedule; used by `CampaignStore.Create` |
| Campaigns.CopyDetails | routers/campaigns_router.py:321-356 | The handler copies each descriptive field that is given, and only those |
| Campaigns.CopyTargets | routers/campaigns_router.py:321-356 | The handler copies each lure and audience field that is given, and only those |
| Campaigns.Reschedule | routers/campaigns_router.py:358-376 | The status half of the merge computes the specified schedule and status |
| Campaigns.LaunchNowRuns | routers/campaigns_router.py:358-368 | `launch_now` true without an explicit status runs the campaign, with the schedule cleared unless a time is given |
| Campaigns.ExplicitStatusWins | routers/campaigns_router.py:374-376 | An explicit status overrides whatever `launch_now` implies |
| Campaigns.EmptyUpdateTouchesOnlyTimestamp | routers/campaigns_router.py:321-383 | An update that gives no field changes only `updated_at` |
| Campaigns.CheckMerged | routers/campaigns_router.py:385-393 | The merged record is accepted exactly when it has a phishlet or an attachment; otherwise 400 |
| Campaigns.Merged | routers/campaigns_router.py:321-383 | The update's merge; its properties are `LaunchNowRuns`, `ExplicitStatusWins` and `EmptyUpdateTouchesOnlyTimestamp` |
| Campaigns.RunTransition | routers/campaigns_router.py:489-499 | Run is allowed exactly from scheduled or paused, moves to running, and is otherwise a 400 |
| Campaigns.PauseTransition | routers/campaigns_router.py:536-546 | Pause is allowed exactly from running, moves to paused, and is otherwise a 400 |
| Campaigns.PauseThenRun | routers/campaigns_router.py:489-546 | Pausing and then running returns to running; a running campaign cannot be run, and a paused one cannot be paused |
| Campaigns.CampaignStore.constructor | routers/campaigns_router.py:140-154 | The campaign table starts empty and valid |
| Campaigns.CampaignStore.Create | routers/campaigns_router.py:85-155 | A rejected create changes nothing; an accepted one inserts the new campaign (active, with its initial status and schedule) under a fresh id |
| Campaigns.CampaignStore.Update | routers/campaigns_router.py:297-397 | A campaign that is not the user's (and the user is no admin) gives 404; a merge without a phishlet or attachment gives 400 and changes nothing; otherwise only that campaign becomes the merged record |
| Campaigns.CampaignStore.Run | routers/campaigns_router.py:470-515 | 404 for an invisible campaign; otherwise the run transition is applied to that campaign only, or its 400 is returned with nothing changed |
| Campaigns.CampaignStore.Pause | routers/campaigns_router.py:517-562 | 404 for an invisible campaign; otherwise the pause transition is applied to that campaign only, or its 400 is returned with nothing changed |
| Dispatch.FindTarget | routers/campaigns_router.py:674 | The lookup finds a target with that id when one exists, and none otherwise |
| Dispatch.ActiveOfMembers | routers/campaigns_router.py:673-676 | A target is chosen from the id list exactly when it is active and some listed id finds it |
| Dispatch.ResolveIndividuals | routers/campaigns_router.py:673-676 | The loop over listed ids yields the existing active targets, one per listed id, in list order |
| Dispatch.GroupMembers | routers/campaigns_router.py:684-685 | A group's recipients are exactly its active members |
| Dispatch.Recipients | routers/campaigns_router.py:664-685 | An unreadable id list is a 400 and a missing group is a 404; otherwise the recipients are exactly `ActiveOf` the listed ids (none when no ids are stored) or exactly the group's active members, and every recipient is an active target |
| Dispatch.Prepare | routers/campaigns_router.py:629-700 | Accepted if and only if the campaign id is given and exists and the campaign is `ReadyToSend` (sender and template exist, recipients resolve to a non-empty list, SMTP username and password are set); otherwise the first failing check's error in the handler's order: 400 id, 404 campaign, 404 sender, 404 template, the recipients' 400/404, 400 "No active targets found", 400 "Invalid SMTP credentials"; an accepted plan carries exactly the resolved recipients, that sender, template, phishlet and attachment |
| Dispatch.PrepareSend | routers/campaigns_router.py:629-700 | The handler's validation steps compute `Prepare` |
| Dispatch.CheckAttachment | routers/campaigns_router.py:711-726 | Attaching succeeds exactly when the file reads and its type has a `/`; otherwise 500 "Failed to attach file: …" |
| Dispatch.Bodies | routers/campaigns_router.py:711-738 | The plain and HTML bodies before the pixel: the template's with an attachment, the phishlet text and tracked link otherwise; see `AttachmentWins`, `PhishletMailLinks` and, for its failures, `ComposeFailsIff` |
| Dispatch.Compose | routers/campaigns_router.py:704-749 | One recipient's mail; when it cannot be built is `ComposeFailsIff`, its shape is `ComposeShape` and its pixel `PixelTokenDecodes` |
| Dispatch.ComposeFailsIff | routers/campaigns_router.py:711-748 | A mail cannot be built exactly when the attachment cannot be read or split, or a body its branch needs is missing: the plain text with an attachment or with neither attachment nor phishlet, the HTML with a phishlet |
| Dispatch.HtmlOnlyTemplateAborts | routers/campaigns_router.py:735-748 | A template with HTML but no plain text, sent without a phishlet or attachment, fails at the first recipient with a 500 |
| Dispatch.ComposeShape | routers/campaigns_router.py:704-749 | Every error while building a mail is a 500; a built mail goes from the sender's address to the recipient, has a non-empty subject, and carries the open pixel in its HTML |
| Dispatch.PixelInside | routers/campaigns_router.py:741-746 | The HTML body contains the pixel URL |
| Dispatch.PixelTokenDecodes | routers/campaigns_router.py:745 | Every mail's pixel carries the token that the tracker decodes to this campaign and recipient |
| Dispatch.AttachmentWins | routers/campaigns_router.py:711-738 | With an attachment, the phishlet is ignored and the template's bodies are used |
| Dispatch.LinkIsTrackedServeUrl | routers/campaigns_router.py:733 | The tracked link is the phishlet's serve URL followed by `*cid*tid`, and the page server decodes its token as tracked for this campaign and recipient |
| Dispatch.PhishletMailLinks | routers/campaigns_router.py:731-734 | A phishlet mail whose HTML has the placeholder carries the tracked link in its HTML, and the untracked `clone_url` in its plain body |
| Dispatch.TurnShape | routers/campaigns_router.py:704-821 | A recipient's turn aborts exactly when the mail cannot be built, then with a 500; a delivered turn logs the `sent` event |
| Dispatch.TurnsWith | routers/campaigns_router.py:704 | There is one turn per recipient, in order |
| Dispatch.Step | routers/campaigns_router.py:786-821 | One loop iteration's effect on rows, events and errors; its properties are `CleanStep`, `AbortSticks` and `EveryRecipientAccounted` |
| Dispatch.AbortSticks | routers/campaigns_router.py:722-726 | Once a turn aborts, later recipients change nothing |
| Dispatch.EveryRecipientAccounted | routers/campaigns_router.py:786-821 | Without an abort, every recipient adds exactly one error entry or one `sent` event |
| Dispatch.CleanStep | routers/campaigns_router.py:786-816 | A turn that leaves no abort and no error was delivered, and upserted its row |
| Dispatch.CleanRunMarksAll | routers/campaigns_router.py:807-829 | When no recipient failed, every recipient's row is marked sent |
| Dispatch.Record | routers/campaigns_router.py:786-821 | A turn that did not abort is written to the table: an error entry, or the event and the upsert |
| Dispatch.SendAll | routers/campaigns_router.py:703-829 | The loop leaves the rows and events of processing every recipient in order; it stops at the first abort; its answer is that abort, else 500 with the error list, else the recipient count |
| Dispatch.SendEmail | routers/campaigns_router.py:626-829 | A failed validation is answered with its error and writes nothing; otherwise the rows, events and answer are those of the send loop over the plan's recipients |
| AiResponse.SubjectColon | routers/email_template_router.py:175-176 | On a "subject:" line the first `:` is the one right after "subject" |
| AiResponse.Step | routers/email_template_router.py:174-184 | One line of the parser; its properties are `HeaderAndBodyLines`, `EmptyLineSkipped`, `LastSubjectWins` and `SubjectDoesNotSteer` |
| AiResponse.FoldAppend | routers/email_template_router.py:173-184 | Parsing two runs of lines in turn is parsing their concatenation |
| AiResponse.NoSubjectLine | routers/email_template_router.py:175-176 | Lines with no "subject:" line leave the subject alone |
| AiResponse.LastSubjectWins | routers/email_template_router.py:173-176 | The subject is the stripped text after the first `:` of the last "subject:" line |
| AiResponse.SubjectDoesNotSteer | routers/email_template_router.py:173-184 | The subject never influences the sections |
| AiResponse.PreambleDropped | routers/email_template_router.py:177-184 | Lines before the first "HTML:"/"Text:" header add nothing to the HTML or text |
| AiResponse.HeaderAndBodyLines | routers/email_template_router.py:177-184 | A header line adds nothing to either body; in the HTML section a non-empty line that is not a subject line is appended, stripped, with "\n"; in the preamble nothing is collected |
| AiResponse.ParseSections | routers/email_template_router.py:168-184 | The handler's loop computes the line-by-line parse |
| AiResponse.BreakLines | routers/email_template_router.py:316 | There is at least one piece, and no piece holds a line-break character |
| AiResponse.EmptyLineSkipped | routers/email_template_router.py:325 | An empty line changes nothing |
| AiResponse.FallbacksAgree | routers/email_template_router.py:188-192 | The all-or-nothing fallback and the per-field fallback agree exactly when nothing was parsed, or when every requested part that came out empty would fall back to an empty reply |
| AiResponse.GeneratedShape | routers/email_template_router.py:331-341 | In both variants the subject is never empty and exactly the requested parts are present; in the per-field variant a requested part is non-empty whenever the reply is |
| AiResponse.GenerateAllOrNothing | routers/email_template_router.py:168-199 | The OpenAI/Anthropic code splits on "\n", parses, and falls back to the whole reply only when subject, HTML and text are all empty |
| AiResponse.GeneratePerField | routers/email_template_router.py:311-343 | The DeepSeek code parses the reply's lines and falls back field by field |
| EmailTemplates.BlankIffAllSpace | routers/email_template_router.py:357 | A name is blank exactly when it is all whitespace |
| EmailTemplates.HasContentIff | routers/email_template_router.py:369-370 | A body has content exactly when it is present and not all whitespace |
| EmailTemplates.CreateChecks | routers/email_template_router.py:357-385 | A create is accepted exactly when the name and one body are not all whitespace and the user has no template of that name; a blank name and missing content are 422s, a duplicate a 400 |
| EmailTemplates.CreatedVariables | routers/email_template_router.py:397 | Variables are stored as their JSON text, and an empty dictionary as nothing |
| EmailTemplates.Created | routers/email_template_router.py:376-397 | A create yields a row exactly when the checks pass, under the new id, owned by the user, with the requested name |
| EmailTemplates.CreatedIsVisible | routers/email_template_router.py:357-374 | An accepted template has a name and a body that are not all whitespace |
| EmailTemplates.CreateKeepsNamesUnique | routers/email_template_router.py:376-397 | A create that passed the checks keeps names unique per user |
| EmailTemplates.Applied | routers/email_template_router.py:670-689 | The update's field copy; its properties are `UpdateKeepsUnrequested`, `UpdateIdempotent` and `EmptyVariablesDiffer` |
| EmailTemplates.UpdateKeepsUnrequested | routers/email_template_router.py:655-689 | An update never changes the owner, type, demo flag or creation time, sets `updated_at`, and leaves every field not given as it was |
| EmailTemplates.UpdateIdempotent | routers/email_template_router.py:655-689 | Applying the same update twice equals applying it once |
| EmailTemplates.EmptyVariablesDiffer | routers/email_template_router.py:682-683 | An empty variables dictionary is dropped on create but stored as "{}" on update |
| EmailTemplates.OwnerUpdateKeepsNamesUnique | routers/email_template_router.py:655-668 | An update by the template's owner that passed the name check keeps names unique per user |
| EmailTemplates.AdminRenameCanDuplicate | routers/email_template_router.py:657-661 | The name check looks at the requesting user's templates, so an admin renaming another user's template can give that user two templates of the same name |
| EmailTemplates.CheckUpload | routers/email_template_router.py:851-862 | An upload is accepted exactly when its lower-cased name ends in ".eml" and its size is not over 10 MiB; every rejection is a 400 |
| EmailTemplates.FirstHtmlWins | routers/email_template_router.py:881-885 | The HTML body is the content of the first `text/html` part |
| EmailTemplates.NoHtmlPart | routers/email_template_router.py:881-885 | Without an HTML part there is no HTML body |
| EmailTemplates.PickedTextKept | routers/email_template_router.py:886-887 | Once a non-empty text is picked it is kept |
| EmailTemplates.FirstPlainWins | routers/email_template_router.py:881-887 | The text body is the first non-empty `text/plain` part before any HTML part |
| EmailTemplates.PickBodies | routers/email_template_router.py:880-888 | The `walk()` loop computes the picked bodies |
| EmailTemplates.Bodies | routers/email_template_router.py:880-895 | The bodies of a parsed message: the multipart walk (`Picked`), or the single part by its content type |
| EmailTemplates.PreWrapped | routers/email_template_router.py:899 | The wrapped text is exactly `<html><body><pre>`, the text, then `</pre></body></html>` |
| EmailTemplates.WithFallbacks | routers/email_template_router.py:897-912 | A found body is kept; a text-only mail gets its text wrapped in `<pre>` as HTML; an HTML-only mail gets text converted from the HTML; the result has HTML exactly when the mail had some body |
| EmailTemplates.ImportBodies | routers/email_template_router.py:880-912 | The handler's part selection and fallbacks compute `WithFallbacks` of the message's bodies |
| EmailTemplates.ImportedNameFromFile | routers/email_template_router.py:915 | Without a given name, `stem.eml` names the template `stem` |
| EmailTemplates.UpperCaseExtensionKept | routers/email_template_router.py:851-915 | "a.EML" passes the case-insensitive extension check, but its extension is removed case-sensitively, so the template is named "a.EML" |
| EmailTemplates.ImportDraft | routers/email_template_router.py:851-943 | A draft exists exactly when the upload passes its checks and the message parsed; otherwise the upload's 400 or a 400 with the parse-failure message; a drafted row belongs to the user, has the derived name, the Subject header or "Imported Email Template", the given description or "Imported from <filename>", no variables, the fallback bodies, and the requested type, demo flag and active flag |
| EmailTemplates.DraftImport | routers/email_template_router.py:851-943 | The handler's steps up to the insert compute `ImportDraft` |
| EmailTemplates.ImportedAsWritten | routers/email_template_router.py:919-1001 | As written, every failure is a 400 (the duplicate-name error is caught by the surrounding `except`) |
| EmailTemplates.Imported | routers/email_template_router.py:919-943 | An import succeeds exactly when the draft succeeds and the name is free; a duplicate is a 400 with its own message |
| EmailTemplates.DuplicateImportWrapped | routers/email_template_router.py:925-1001 | For a duplicate name, the code as written answers "Failed to parse .eml file: 400: A template with this name already exists" instead of the duplicate-name message |
| EmailTemplates.TextOnlyMailGetsPre | routers/email_template_router.py:872-899 | A single-part plain-text mail without a subject is imported with the default subject, its text, and that text in `<pre>` as HTML |
| EmailTemplates.TemplateStore.constructor | routers/email_template_router.py:388-399 | The template table starts empty and valid |
| EmailTemplates.TemplateStore.Insert | routers/email_template_router.py:388-399 | A row is stored under the next id, which was unused |
| EmailTemplates.TemplateStore.Create | routers/email_template_router.py:348-400 | The outcome is `Created`; a rejection changes nothing, and an acceptance adds exactly the new row under a fresh id |
| EmailTemplates.TemplateStore.Update | routers/email_template_router.py:632-692 | A template that is not the user's (and the user is no admin) gives 404; a name used by another of the user's templates gives 400; otherwise only that template changes, to the applied update |
| EmailTemplates.TemplateStore.ImportEml | routers/email_template_router.py:837-1001 | The outcome is `Imported`; a rejection changes nothing, and an acceptance adds exactly the drafted row under a fresh id |
| SenderProfiles.CheckCreate | routers/sender_profile_router.py:95-127 | A create is accepted exactly when the auth type is smtp with truthy host, port (0 counts as missing), username and password, or oauth with truthy client id, secret and refresh token, and the user has no profile of that name; any other auth type gives its own 400 |
| SenderProfiles.StoredCarriesOwnType | routers/sender_profile_router.py:130-154 | A stored profile carries complete credentials of its own type and none of the other type |
| SenderProfiles.NewProfile | routers/sender_profile_router.py:130-154 | The handler's row construction yields the stored profile |
| SenderProfiles.ChangeLogByField | routers/sender_profile_router.py:297-337 | A field is in the change log exactly when the update writes it |
| SenderProfiles.ChangeLog | routers/sender_profile_router.py:297-337 | The `changes` dictionary; its properties are `ChangeLogByField` and `ChangeLogMirrorsUpdate` |
| SenderProfiles.Applied | routers/sender_profile_router.py:297-340 | The updated profile; its properties are `AppliedByField` and `OtherTypeIgnored` |
| SenderProfiles.AppliedByField | routers/sender_profile_router.py:297-340 | Each column of the updated profile is the requested value if the update writes it, else its old value |
| SenderProfiles.ChangeLogMirrorsUpdate | routers/sender_profile_router.py:297-340 | The change log names exactly the written columns, with their new values, except that the password, client secret and refresh token are logged as "***"; every column it does not name keeps its value |
| SenderProfiles.OtherTypeIgnored | routers/sender_profile_router.py:313-337 | Credential fields of the other auth type are silently ignored; identity, type and creation time never change |
| SenderProfiles.BuildCommon | routers/sender_profile_router.py:297-310 | The common block writes and logs exactly the given common fields |
| SenderProfiles.BuildSmtp | routers/sender_profile_router.py:313-325 | The SMTP block writes and logs exactly the given SMTP fields of an smtp profile, with the password redacted |
| SenderProfiles.BuildOAuth | routers/sender_profile_router.py:328-337 | The OAuth block writes and logs exactly the given OAuth fields of an oauth profile, with the secret and token redacted |
| SenderProfiles.ChangeLogParts | routers/sender_profile_router.py:297-337 | The three blocks' logs together are the whole change log |
| SenderProfiles.BuildUpdate | routers/sender_profile_router.py:281-340 | The handler's builder yields the applied update and the change log, with `updated_at` set |
| SenderProfiles.ProfileStore.constructor | routers/sender_profile_router.py:157-158 | The profile table starts empty and valid |
| SenderProfiles.ProfileStore.Create | routers/sender_profile_router.py:86-158 | A rejected create is a 400 and changes nothing; an accepted one inserts the stored profile under a fresh id |
| SenderProfiles.ProfileStore.Update | routers/sender_profile_router.py:260-350 | 404 for an invisible profile; a name used by another of the user's profiles gives 400; otherwise only that profile changes, to the applied update, and the activity is logged exactly when there is a request and the change log is non-empty |
| Text.SplitJoin | routers/tracker_router.py:49 | Splitting a join on a separator absent from the parts gives the parts back |
| Text.ParseIntToString | routers/tracker_router.py:56-63 | `int(str(n)) == n` for every integer |
| Text.StripEmptyIffAllSpace | routers/email_template_router.py:357 | `s.strip()` is empty exactly when `s` is all whitespace |
| Text.ReplaceContains | routers/campaigns_router.py:734 | Replacing an occurring pattern leaves the replacement in the result |
| Html.RewrittenElement | routers/phishlet_router.py:123-140 | A tree rewrite keeps the tree's shape and applies the rule to every element in document order |
| Html.AppendToFirstFound | routers/phishlet_router.py:868-871 | After `find(tag).append(child)`, the first element with that tag is the old one with the child appended |
| Html.AppendToFirstCount | routers/phishlet_router.py:868-871 | The append adds exactly the child's elements to the document |

## Left out

- The activity logger calls in every handler are not modelled. Only the sender-profile update's decision to log is kept, as the `logged` result.
- The easycron registration that follows a campaign create (routers/campaigns_router.py:156-190), with its timezone arithmetic, is not modelled. It is network I/O and date arithmetic.
- The mailer API call (the `httpx.post`) is the parameter `mailer`. Its answer is a status and text, a request error, or any other exception.
- The clock is the parameter `now` (or `clock(i)` in the send loop). `BACKEND_URL` is the parameter `backend`.
- The mailer payload's SMTP host, port and credentials, and the MIME structure of the message, are not modelled. A mail is modelled as from, to, subject, plain body and HTML body.
- The attachment is read a second time to build the payload (routers/campaigns_router.py:754-769). This read is not modelled: it reads the same file the first read (711-726) already read, and the model folds both into that first read.
- Pydantic request validation, and database failures inside handlers, are not modelled. The HTML and JSON libraries are not modelled either: JSON decoding is a parameter (`loads`, or the decoded `body` of the submit endpoint), and an HTML page is modelled as its parsed tree.
- Serialising the tree back to text, attribute order and multi-valued attributes are not modelled: attributes are a `map<string, string>` with lower-case names, as `html.parser` produces them.
- `convert_urls_to_absolute`, `replace_buttons_with_divs` and the `onclick` loop of the page server mutate elements in place. They are modelled as tree maps. Each iteration writes only its own element, and the `find_all` list is fixed before the loop, so the result is the same. Aliasing between nodes is not modelled.
- The `style` `url()` rewrite in `convert_urls_to_absolute` (routers/phishlet_router.py:143-153) is not modelled. It is a regular expression over CSS text.
- `urljoin` is the parameter `join`. The idempotence lemmas assume only that it gives an http(s) URL for an http(s) base (reference resolution, section 5.2 of RFC 3986).
- Phishlet.ServePhishlet: the 500 for a non-integer id carries a fixed detail, not Python's exact `ValueError` text.
- Phishlet.DivAttrs: a button that carries both `onclick` and `data-orig-onclick` gets, in the source, whichever of the two comes later in its attribute order; the model has no attribute order and always lets `onclick` win.
- `replace_buttons_with_divs` (routers/phishlet_router.py:744-776) is modelled as `ReplaceButtonsWithDivs`, but the page server never calls it: its one call (line 828) is commented out, so `Instrument` does not use it.
- Text.Lower lower-cases ASCII letters only, where Python's `str.lower()` is Unicode-aware. The prefix checks it serves compare with ASCII literals, so only values differ: a non-ASCII form `method` (in `Phishlet.Describe`) or `.eml` file name keeps its non-ASCII capitals in the model.
- JSON floating-point numbers are not modelled: `Json.Value` has integers only, so a submitted `1.5` cannot be represented, and its display (`age: 1.5`) is not covered.
- Json.Get returns the first member with a key. Python's decoder keeps the last value of a repeated key, at the position of the first. Decoded dicts have distinct keys (`GetDistinct`), and a `Json.Value` with a repeated key stands for no Python dict.
- The JavaScript of the injected script is abbreviated to a fixed prefix and suffix. Only the URL it posts to is exact.
- Text.ParseInt accepts an optional sign and decimal digits. Python's `int()` also accepts surrounding whitespace and underscores.
- CapturedData.FieldEntry: a nested list or dict value is shown in its JSON form, where Python prints its `repr`.
- The AI provider calls and the prompt building around the section parser are not modelled. The provider's reply is the input `content`.
- AiResponse.GeneratePerField: `str.splitlines()` is modelled by `BreakLines`. This splits at every line-break character, so `"\r\n"` and a trailing line break give extra empty pieces. The parser skips empty lines (`EmptyLineSkipped`), so the parse is unchanged.
- EmailTemplates.ImportDraft: `message_from_bytes` is modelled by its result, the `Parsed` input. The HTML-to-text regular expressions (routers/email_template_router.py:906-912) are the parameter `htmlToText`.
- The import summary and response shaping of the EML import (routers/email_template_router.py:961-995) are not modelled. This includes the response's fixed `isDemo=False`, while the stored row keeps the requested flag.
- The read-modify-write races on result rows under concurrent requests are not modelled. The handlers are modelled as atomic.
- Dispatch.SendAll: its per-recipient step is a function parameter. `SendEmail` instantiates it with the step that builds the mail and calls the mailer.

## Findings

| source | as written | input that shows it | evidently intended | confidence | as-written member | corrected member |
|---|---|---|---|---|---|---|
| routers/email_template_router.py:925-929 | The duplicate-name `HTTPException` is raised inside the `try` whose `except Exception` (997-1001) turns every error into a parse failure | A valid `.eml` upload whose derived name the user already has gets 400 "Failed to parse .eml file: 400: A template with this name already exists" | 400 "A template with this name already exists", like the other duplicate checks | high for the wrapped message; not executed | EmailTemplates.ImportedAsWritten (shown by EmailTemplates.DuplicateImportWrapped) | EmailTemplates.Imported (used by EmailTemplates.TemplateStore.ImportEml) |
