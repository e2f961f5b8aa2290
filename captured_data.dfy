/** Reading the capture log back (`parse_captured_data`,
    routers/campaigns_router.py:565-580). The tracker stores one
    `json.dumps(body)` per submission, separated by newlines; the reader turns
    every `}\n{` into `},{`, wraps the result in brackets and decodes it as
    one JSON array. Decoding (`json.loads`) is a parameter. */
module CapturedData {
  import opened Wrappers
  import opened Text
  import Json
  import Results

  const Seam: string := "}\n{"

  /** `"[" + captured_data.replace("}\n{", "},{") + "]"`. */
  function FixedText(log: string): string {
    "[" + Replace(log, Seam, "},{") + "]"
  }

  /** The JSON text of an array whose items have the given serialisations,
      separated by `","`. */
  function ArrayOf(docs: seq<string>): string {
    "[" + Join(docs, ",") + "]"
  }

  /** One serialised object: braces at both ends and no raw newline. */
  predicate IsObjectText(s: string) {
    |s| >= 2 && s[0] == '{' && s[|s| - 1] == '}' && '\n' !in s
  }

  lemma NoSeamInside(s: string)
    requires '\n' !in s
    ensures !Contains(s, Seam)
  {
    forall i | 0 <= i <= |s| - |Seam|
      ensures !OccursAt(s, Seam, i)
    {
      assert s[i + 1] in s;
      assert s[i..i + |Seam|][1] == s[i + 1];
    }
  }

  /** `Replace` moves past a first character that cannot start a seam. */
  lemma ReplaceHeadNoMatch(s: string)
    requires s != [] && s[0] != '}'
    ensures Replace(s, Seam, "},{") == [s[0]] + Replace(s[1..], Seam, "},{")
  {
    if |s| >= |Seam| {
      assert s[..|Seam|][0] != Seam[0];
    }
  }

  /** A seam has a newline in its second place. */
  lemma NoSeamWithoutNewline(s: string, i: int)
    requires 0 <= i && i + 1 < |s| && s[i + 1] != '\n'
    ensures !OccursAt(s, Seam, i)
  {
    if i <= |s| - |Seam| {
      assert s[i..i + |Seam|][1] == s[i + 1];
    }
  }

  /** No seam starts inside a serialised object that lost its closing brace. */
  lemma NoSeamBefore(a: string, tail: string)
    requires '\n' !in a && tail != [] && tail[0] != '\n'
    ensures forall i :: 0 <= i < |a| ==> !OccursAt(a + tail, Seam, i)
  {
    forall i | 0 <= i < |a|
      ensures !OccursAt(a + tail, Seam, i)
    {
      assert (a + tail)[i + 1] != '\n' by {
        if i + 1 < |a| {
          assert (a + tail)[i + 1] == a[i + 1];
          assert a[i + 1] in a;
        } else {
          assert (a + tail)[i + 1] == tail[0];
        }
      }
      NoSeamWithoutNewline(a + tail, i);
    }
  }

  /** The seam after a serialised object is the first one the rewrite meets,
      and the text after it starts over with its `{`. */
  lemma SeamAfterObject(s1: string, t: string)
    requires IsObjectText(s1) && t != [] && t[0] == '{'
    ensures Replace(s1 + "\n" + t, Seam, "},{") == s1 + "," + Replace(t, Seam, "},{")
  {
    var a := s1[..|s1| - 1];
    var tail := Seam + t[1..];
    assert s1 + "\n" + t == a + tail by {
      assert s1 == a + "}";
      assert t == "{" + t[1..];
    }
    assert '\n' !in a by {
      forall c | c in a
        ensures c in s1
      {
      }
    }
    NoSeamBefore(a, tail);
    ReplaceSkip(a, tail, Seam, "},{");
    assert tail[..|Seam|] == Seam;
    assert tail[|Seam|..] == t[1..];
    ReplaceHeadNoMatch(t);
    assert a + "},{" + Replace(t[1..], Seam, "},{") == (a + "}") + "," + ([t[0]] + Replace(t[1..], Seam, "},{"));
  }

  /** The seam rewrite turns a newline-joined run of serialised objects into
      the same objects joined by commas. */
  lemma {:induction false} FixJoinedObjects(segs: seq<string>)
    requires |segs| >= 1
    requires forall i :: 0 <= i < |segs| ==> IsObjectText(segs[i])
    ensures Replace(Join(segs, "\n"), Seam, "},{") == Join(segs, ",")
  {
    if |segs| == 1 {
      NoSeamInside(segs[0]);
      ReplaceAbsent(segs[0], Seam, "},{");
    } else {
      var rest := segs[1..];
      var t := Join(rest, "\n");
      JoinStartsWithFirst(rest, "\n");
      assert t[0] == '{' by {
        assert t[..|rest[0]|] == rest[0];
        assert t[..|rest[0]|][0] == t[0];
      }
      SeamAfterObject(segs[0], t);
      FixJoinedObjects(rest);
    }
  }

  /** `json.dumps` of each value. */
  function DumpAll(xs: seq<Json.Value>): (docs: seq<string>)
    ensures |docs| == |xs|
    ensures forall i :: 0 <= i < |docs| ==> '\n' !in docs[i]
  {
    seq(|xs|, i requires 0 <= i < |xs| => Json.Dumps(xs[i]))
  }

  /** The text handed to `json.loads` for a log of dumped objects is the JSON
      array of those objects. */
  lemma LogIsArrayText(xs: seq<Json.Value>)
    requires |xs| >= 1
    requires forall i :: 0 <= i < |xs| ==> xs[i].Object?
    ensures FixedText(Join(DumpAll(xs), "\n")) == ArrayOf(DumpAll(xs))
  {
    var docs := DumpAll(xs);
    forall i | 0 <= i < |docs|
      ensures IsObjectText(docs[i])
    {
      Json.DumpsHasNoNewline(xs[i]);
    }
    FixJoinedObjects(docs);
  }

  // ---------------------------------------------------------------------
  // the credential lists

  /** `f"{value}"` for a decoded JSON value (nested arrays and objects are
      shown in their JSON form). */
  function Display(v: Json.Value): string {
    match v
    case Null => "None"
    case Bool(b) => if b then "True" else "False"
    case Int(i) => IntToString(i)
    case Str(s) => s
    case _ => Json.Dumps(v)
  }

  /** `value not in [None, "", "null"]`, where a missing `value` and JSON
      `null` both read as `None`. */
  predicate Shown(value: Option<Json.Value>) {
    value.Some? && value.value != Json.Null && value.value != Json.Str("") && value.value != Json.Str("null")
  }

  /** The entry one form field contributes: `key: value` when the value is
      shown, nothing otherwise. A field that is not an object has no `.get`
      and the read fails. */
  function FieldEntry(key: string, field: Json.Value): (r: Result<seq<string>>)
    ensures r.Ok? <==> field.Object?
    ensures r.Ok? ==> |r.value| <= 1
  {
    if !field.Object? then Fail(500, "captured field is not an object")
    else
      var value := Json.Get(field.members, "value");
      if Shown(value) then Ok([key + ": " + Display(value.value)]) else Ok([])
  }

  /** The entries of the fields of one submission, in order. */
  function FieldEntries(members: seq<(string, Json.Value)>): (r: Result<seq<string>>)
    ensures r.Ok? <==> forall i :: 0 <= i < |members| ==> members[i].1.Object?
    ensures r.Ok? ==> |r.value| <= |members|
  {
    if members == [] then Ok([])
    else
      var n := |members|;
      var init := FieldEntries(members[..n - 1]);
      var last := FieldEntry(members[n - 1].0, members[n - 1].1);
      assert forall i :: 0 <= i < n - 1 ==> members[..n - 1][i] == members[i];
      if init.Fail? then init
      else if last.Fail? then last
      else Ok(init.value + last.value)
  }

  /** The credential list of one parsed submission: its `fields` object
      (an empty one when absent). */
  function SubmissionEntries(item: Json.Value): Result<seq<string>> {
    if !item.Object? then Fail(500, "captured submission is not an object")
    else
      var fields := Json.Get(item.members, "fields").GetOr(Json.Object([]));
      if !fields.Object? then Fail(500, "captured fields are not an object")
      else FieldEntries(fields.members)
  }

  /** One credential list per submission, in order. */
  function AllEntries(items: seq<Json.Value>): (r: Result<seq<seq<string>>>)
    ensures r.Ok? ==> |r.value| == |items|
  {
    if items == [] then Ok([])
    else
      var n := |items|;
      var init := AllEntries(items[..n - 1]);
      var last := SubmissionEntries(items[n - 1]);
      if init.Fail? then init
      else if last.Fail? then Fail(last.code, last.detail)
      else Ok(init.value + [last.value])
  }

  /** What the reader returns for the decoded array (a decoding failure is an
      unhandled error, so a 500). */
  function Credentials(parsed: Option<Json.Value>): Result<seq<seq<string>>> {
    match parsed
    case None => Fail(500, "captured data is not valid JSON")
    case Some(Array(items)) => AllEntries(items)
    case Some(_) => Fail(500, "captured data is not a JSON array")
  }

  /** Once a prefix of the fields fails, the whole object fails the same way. */
  lemma {:induction false} FieldEntriesFailPrefix(members: seq<(string, Json.Value)>, k: nat)
    requires k <= |members| && FieldEntries(members[..k]).Fail?
    ensures FieldEntries(members) == FieldEntries(members[..k])
    decreases |members| - k
  {
    if k < |members| {
      assert members[..k + 1][..k] == members[..k];
      FieldEntriesFailPrefix(members, k + 1);
    } else {
      assert members[..k] == members;
    }
  }

  /** Once a prefix of the submissions fails, the whole log fails the same way. */
  lemma {:induction false} AllEntriesFailPrefix(items: seq<Json.Value>, k: nat)
    requires k <= |items| && AllEntries(items[..k]).Fail?
    ensures AllEntries(items) == AllEntries(items[..k])
    decreases |items| - k
  {
    if k < |items| {
      assert items[..k + 1][..k] == items[..k];
      AllEntriesFailPrefix(items, k + 1);
    } else {
      assert items[..k] == items;
    }
  }

  /** The inner loop of `parse_captured_data`: the entries of one `fields`
      object. */
  method FieldCredentials(members: seq<(string, Json.Value)>) returns (r: Result<seq<string>>)
    ensures r == FieldEntries(members)
  {
    var creds: seq<string> := [];
    var j := 0;
    while j < |members|
      invariant 0 <= j <= |members|
      invariant FieldEntries(members[..j]) == Ok(creds)
    {
      assert members[..j + 1][..j] == members[..j];
      var (key, field) := members[j];
      if !field.Object? {
        FieldEntriesFailPrefix(members, j + 1);
        return Fail(500, "captured field is not an object");
      }
      var value := Json.Get(field.members, "value");
      ghost var entry := FieldEntry(key, field);
      assert FieldEntries(members[..j + 1]) == Ok(creds + entry.value);
      if Shown(value) {
        creds := creds + [key + ": " + Display(value.value)];
      } else {
        assert entry.value == [];
        assert creds + [] == creds;
      }
      j := j + 1;
    }
    assert members[..|members|] == members;
    r := Ok(creds);
  }

  /** The body of the outer loop of `parse_captured_data`: the credential
      list of one submission. */
  method SubmissionCredentials(item: Json.Value) returns (r: Result<seq<string>>)
    ensures r == SubmissionEntries(item)
  {
    if !item.Object? {
      return Fail(500, "captured submission is not an object");
    }
    var fields := Json.Get(item.members, "fields").GetOr(Json.Object([]));
    if !fields.Object? {
      return Fail(500, "captured fields are not an object");
    }
    r := FieldCredentials(fields.members);
  }

  /** The dict `{"credentials": creds_list}` the reader returns, which the
      results endpoint shows as a row's `captured_data`. */
  datatype CapturedView = CapturedView(credentials: seq<seq<string>>)

  /** `parse_captured_data`: decode the fixed-up log, then collect one
      credential list per submission under the `credentials` key. */
  method ParseCapturedData(capturedData: string, loads: string -> Option<Json.Value>)
    returns (r: Result<CapturedView>)
    ensures var c := Credentials(loads(FixedText(capturedData)));
      (r.Ok? <==> c.Ok?)
      && (r.Ok? ==> r.value == CapturedView(c.value))
      && (r.Fail? ==> r.code == c.code && r.detail == c.detail)
  {
    var parsed := loads(FixedText(capturedData));
    if parsed.None? {
      return Fail(500, "captured data is not valid JSON");
    }
    if !parsed.value.Array? {
      return Fail(500, "captured data is not a JSON array");
    }
    var items := parsed.value.items;
    var credsList: seq<seq<string>> := [];
    var i := 0;
    while i < |items|
      invariant 0 <= i <= |items|
      invariant AllEntries(items[..i]) == Ok(credsList)
    {
      assert items[..i + 1][..i] == items[..i];
      var creds := SubmissionCredentials(items[i]);
      if creds.Fail? {
        AllEntriesFailPrefix(items, i + 1);
        return Fail(creds.code, creds.detail);
      }
      credsList := credsList + [creds.value];
      i := i + 1;
    }
    assert items[..|items|] == items;
    r := Ok(CapturedView(credsList));
  }

  /** A field whose value is shown contributes exactly `key: value`; one
      whose value is missing, null, empty or "null" contributes nothing. */
  lemma FieldEntryShown(key: string, members: seq<(string, Json.Value)>)
    ensures var r := FieldEntry(key, Json.Object(members));
      r.Ok? && (r.value == [] <==> !Shown(Json.Get(members, "value")))
      && (Shown(Json.Get(members, "value")) ==>
            r.value == [key + ": " + Display(Json.Get(members, "value").value)])
  {
  }

  /** The submissions a row received, read back through the log: each body
      stored by the tracker comes back as its own credential list, in order,
      provided `loads` decodes the JSON text of an array of objects to that
      array. */
  lemma {:induction false} SubmissionsReadBack(
    row: Results.CampaignResult, bodies: seq<Json.Value>, times: seq<Results.Time>,
    loads: string -> Option<Json.Value>)
    requires !Results.Truthy(row.capturedData)
    requires |bodies| >= 1 && |times| == |bodies|
    requires forall i :: 0 <= i < |bodies| ==> bodies[i].Object?
    requires loads(ArrayOf(DumpAll(bodies))) == Some(Json.Array(bodies))
    ensures var subs := seq(|bodies|, i requires 0 <= i < |bodies| => (Json.Dumps(bodies[i]), times[i]));
      Results.SubmittedAll(row, subs).capturedData.Some?
      && Credentials(loads(FixedText(Results.SubmittedAll(row, subs).capturedData.value)))
         == AllEntries(bodies)
  {
    var subs := seq(|bodies|, i requires 0 <= i < |bodies| => (Json.Dumps(bodies[i]), times[i]));
    forall i | 0 <= i < |subs|
      ensures subs[i].0 != []
    {
    }
    Results.SubmittedAllCaptures(row, subs);
    assert Results.Entries(subs) == DumpAll(bodies);
    LogIsArrayText(bodies);
  }
}
