/** The section parser applied to an AI provider's reply when a template is
    generated (routers/email_template_router.py:168-199, 230-260, 311-343).
    The reply is read line by line: "Subject:" lines set the subject,
    "HTML:" and "Text:" lines switch section, and other non-empty lines are
    appended to the current section. The OpenAI and Anthropic copies fall
    back to the whole reply only when nothing was parsed; the DeepSeek copy
    falls back field by field. */
module AiResponse {
  import opened Wrappers
  import opened Text

  datatype Section = Preamble | HtmlPart | TextPart

  /** The parser's variables: `subject`, `html_content`, `text_content`,
      `current_section`. */
  datatype ParseState = ParseState(subject: string, html: string, text: string, section: Section)

  const Initial: ParseState := ParseState("", "", "", Preamble)
  const DefaultSubject: string := "Important Message"

  // ---------------------------------------------------------------------
  // one line

  /** `s.split(c, 1)[1]`: the text after the first `c`, if there is one. */
  function AfterFirst(s: string, c: char): (r: Option<string>)
    ensures r.Some? ==> |r.value| < |s|
  {
    if s == [] then None
    else if s[0] == c then Some(s[1..])
    else AfterFirst(s[1..], c)
  }

  lemma {:induction false} AfterFirstAt(s: string, c: char, k: nat)
    requires k < |s| && s[k] == c
    requires forall i :: 0 <= i < k ==> s[i] != c
    ensures AfterFirst(s, c) == Some(s[k + 1..])
  {
    if k > 0 {
      AfterFirstAt(s[1..], c, k - 1);
    }
  }

  predicate IsSubjectLine(line: string) {
    LowerStartsWith(line, "subject:")
  }

  /** On a "subject:" line the first ':' is the one after "subject". */
  lemma SubjectColon(line: string)
    requires IsSubjectLine(line)
    ensures AfterFirst(line, ':') == Some(line[8..])
  {
    var low := Lower(line);
    assert low[..8] == "subject:";
    forall i | 0 <= i < 7
      ensures line[i] != ':'
    {
      assert low[i] == AsciiLower(line[i]) && low[i] != ':';
    }
    assert AsciiLower(line[7]) == ':';
    AfterFirstAt(line, ':', 7);
  }

  /** The subject a "subject:" line carries: the text after its first ':',
      stripped. */
  function SubjectOf(line: string): string
    requires IsSubjectLine(line)
  {
    SubjectColon(line);
    Strip(AfterFirst(line, ':').value)
  }

  /** One iteration of the parsing loop, on the raw line. */
  function Step(st: ParseState, raw: string): ParseState {
    var line := Strip(raw);
    if IsSubjectLine(line) then st.(subject := SubjectOf(line))
    else if LowerStartsWith(line, "html:") then st.(section := HtmlPart)
    else if LowerStartsWith(line, "text:") then st.(section := TextPart)
    else if line != [] && st.section == HtmlPart then st.(html := st.html + line + "\n")
    else if line != [] && st.section == TextPart then st.(text := st.text + line + "\n")
    else st
  }

  /** The loop over all lines, from state `st`. */
  function Fold(st: ParseState, lines: seq<string>): ParseState
    decreases |lines|
  {
    if lines == [] then st
    else Step(Fold(st, lines[..|lines| - 1]), lines[|lines| - 1])
  }

  lemma {:induction false} FoldAppend(st: ParseState, a: seq<string>, b: seq<string>)
    ensures Fold(st, a + b) == Fold(Fold(st, a), b)
    decreases |b|
  {
    if b != [] {
      assert (a + b)[..|a + b| - 1] == a + b[..|b| - 1];
      FoldAppend(st, a, b[..|b| - 1]);
    } else {
      assert a + b == a;
    }
  }

  // ---------------------------------------------------------------------
  // what the parse yields

  /** Lines that are not "subject:" lines leave the subject alone. */
  lemma {:induction false} NoSubjectLine(st: ParseState, lines: seq<string>)
    requires forall i :: 0 <= i < |lines| ==> !IsSubjectLine(Strip(lines[i]))
    ensures Fold(st, lines).subject == st.subject
    decreases |lines|
  {
    if lines != [] {
      var init := lines[..|lines| - 1];
      forall i | 0 <= i < |init|
        ensures !IsSubjectLine(Strip(init[i]))
      {
        assert init[i] == lines[i];
      }
      NoSubjectLine(st, init);
      assert Fold(st, lines) == Step(Fold(st, init), lines[|lines| - 1]);
      StepKeepsSubject(Fold(st, init), lines[|lines| - 1]);
    }
  }

  lemma StepSubject(st: ParseState, raw: string)
    requires IsSubjectLine(Strip(raw))
    ensures Step(st, raw).subject == SubjectOf(Strip(raw))
  {
  }

  lemma StepKeepsSubject(st: ParseState, raw: string)
    requires !IsSubjectLine(Strip(raw))
    ensures Step(st, raw).subject == st.subject
  {
  }

  /** The subject comes from the last "subject:" line: later ones overwrite
      earlier ones. */
  lemma {:induction false} LastSubjectWins(st: ParseState, lines: seq<string>, i: nat)
    requires i < |lines| && IsSubjectLine(Strip(lines[i]))
    requires forall j :: i < j < |lines| ==> !IsSubjectLine(Strip(lines[j]))
    ensures Fold(st, lines).subject == SubjectOf(Strip(lines[i]))
    decreases |lines|
  {
    var n := |lines|;
    var init := lines[..n - 1];
    if i == n - 1 {
      assert Fold(st, lines) == Step(Fold(st, init), lines[i]);
      StepSubject(Fold(st, init), lines[i]);
    } else {
      SubjectsBefore(lines, init, i);
      LastSubjectWins(st, init, i);
      assert Fold(st, lines) == Step(Fold(st, init), lines[n - 1]);
      StepKeepsSubject(Fold(st, init), lines[n - 1]);
    }
  }

  lemma SubjectsBefore(lines: seq<string>, init: seq<string>, i: nat)
    requires i < |lines| - 1 && init == lines[..|lines| - 1] && IsSubjectLine(Strip(lines[i]))
    requires forall j :: i < j < |lines| ==> !IsSubjectLine(Strip(lines[j]))
    ensures IsSubjectLine(Strip(init[i]))
    ensures forall j :: i < j < |init| ==> !IsSubjectLine(Strip(init[j]))
    ensures !IsSubjectLine(Strip(lines[|lines| - 1]))
  {
    assert init[i] == lines[i];
    forall j | i < j < |init|
      ensures !IsSubjectLine(Strip(init[j]))
    {
      assert init[j] == lines[j];
    }
  }

  predicate IsHeader(raw: string) {
    var line := Strip(raw);
    !IsSubjectLine(line) && (LowerStartsWith(line, "html:") || LowerStartsWith(line, "text:"))
  }

  lemma {:induction false} PreambleOnlySetsSubject(lines: seq<string>)
    requires forall i :: 0 <= i < |lines| ==> !IsHeader(lines[i])
    ensures Fold(Initial, lines).(subject := "") == Initial
    decreases |lines|
  {
    if lines != [] {
      var init := lines[..|lines| - 1];
      forall i | 0 <= i < |init|
        ensures !IsHeader(init[i])
      {
        assert init[i] == lines[i];
      }
      PreambleOnlySetsSubject(init);
      assert Fold(Initial, lines) == Step(Fold(Initial, init), lines[|lines| - 1]);
      PreambleStep(Fold(Initial, init), lines[|lines| - 1]);
    }
  }

  lemma PreambleStep(st: ParseState, raw: string)
    requires st.(subject := "") == Initial && !IsHeader(raw)
    ensures Step(st, raw).(subject := "") == Initial
  {
  }

  /** The subject never influences the sections. */
  lemma {:induction false} SubjectDoesNotSteer(st: ParseState, s: string, lines: seq<string>)
    ensures Fold(st.(subject := s), lines).(subject := "") == Fold(st, lines).(subject := "")
    decreases |lines|
  {
    if lines != [] {
      var init := lines[..|lines| - 1];
      var raw := lines[|lines| - 1];
      SubjectDoesNotSteer(st, s, init);
      assert Fold(st.(subject := s), lines) == Step(Fold(st.(subject := s), init), raw);
      assert Fold(st, lines) == Step(Fold(st, init), raw);
      StepIgnoresSubject(Fold(st.(subject := s), init), Fold(st, init), raw);
    }
  }

  lemma StepIgnoresSubject(a: ParseState, b: ParseState, raw: string)
    requires a.(subject := "") == b.(subject := "")
    ensures Step(a, raw).(subject := "") == Step(b, raw).(subject := "")
  {
  }

  /** Lines before the first "HTML:" or "Text:" header are dropped: a
      preamble without headers changes nothing but (possibly) the subject. */
  lemma PreambleDropped(pre: seq<string>, rest: seq<string>)
    requires forall i :: 0 <= i < |pre| ==> !IsHeader(pre[i])
    ensures Fold(Initial, pre + rest).html == Fold(Initial, rest).html
    ensures Fold(Initial, pre + rest).text == Fold(Initial, rest).text
    ensures Fold(Initial, pre + rest).section == Fold(Initial, rest).section
  {
    FoldAppend(Initial, pre, rest);
    PreambleOnlySetsSubject(pre);
    var s := Fold(Initial, pre).subject;
    assert Fold(Initial, pre) == Initial.(subject := s);
    SubjectDoesNotSteer(Initial, s, rest);
  }

  /** The text on a header line itself is discarded, and a body line is
      appended, with a newline, to the section in force. */
  lemma HeaderAndBodyLines(st: ParseState, raw: string)
    ensures IsHeader(raw) ==> Step(st, raw).html == st.html && Step(st, raw).text == st.text
    ensures !IsHeader(raw) && !IsSubjectLine(Strip(raw)) && Strip(raw) != [] && st.section == HtmlPart ==>
      Step(st, raw) == st.(html := st.html + Strip(raw) + "\n")
    ensures st.section == Preamble && !IsHeader(raw) ==>
      Step(st, raw).html == st.html && Step(st, raw).text == st.text && Step(st, raw).section == Preamble
  {
  }

  /** The loop as the handlers write it. */
  method ParseSections(lines: seq<string>) returns (subject: string, html: string, text: string)
    ensures ParseState(subject, html, text, Fold(Initial, lines).section) == Fold(Initial, lines)
  {
    subject, html, text := "", "", "";
    var section := Preamble;
    for i := 0 to |lines|
      invariant ParseState(subject, html, text, section) == Fold(Initial, lines[..i])
    {
      assert lines[..i + 1][..i] == lines[..i];
      var line := Strip(lines[i]);
      if LowerStartsWith(line, "subject:") {
        SubjectColon(line);
        subject := Strip(AfterFirst(line, ':').value);
      } else if LowerStartsWith(line, "html:") {
        section := HtmlPart;
      } else if LowerStartsWith(line, "text:") {
        section := TextPart;
      } else if line != [] {
        if section == HtmlPart {
          html := html + line + "\n";
        } else if section == TextPart {
          text := text + line + "\n";
        }
      }
    }
    assert lines[..|lines|] == lines;
  }

  // ---------------------------------------------------------------------
  // line splitting

  /** The separators `str.splitlines()` breaks at. */
  predicate IsLineBreak(c: char) {
    c == '\n' || c == '\r' || c == '\U{0B}' || c == '\U{0C}' || '\U{1C}' <= c <= '\U{1E}'
    || c == '\U{85}' || c == '\U{2028}' || c == '\U{2029}'
  }

  /** The pieces between line-break characters. `splitlines()` differs only
      in empty pieces (it keeps "\r\n" together and drops a trailing empty
      line), and the parser skips empty lines. */
  function BreakLines(s: string): (r: seq<string>)
    ensures |r| >= 1
    ensures forall i, j :: 0 <= i < |r| && 0 <= j < |r[i]| ==> !IsLineBreak(r[i][j])
    decreases |s|
  {
    if s == [] then [""]
    else
      var rest := BreakLines(s[1..]);
      if IsLineBreak(s[0]) then [""] + rest
      else [[s[0]] + rest[0]] + rest[1..]
  }

  /** An empty piece is skipped by the parser. */
  lemma EmptyLineSkipped(st: ParseState)
    ensures Step(st, "") == st
  {
  }

  // ---------------------------------------------------------------------
  // the fallbacks and the returned dict

  /** The dict the generator returns; a part not requested is None. */
  datatype Generated = Generated(subject: string, html: Option<string>, text: Option<string>)

  function Requested(wanted: bool, part: string): Option<string> {
    if wanted then Some(part) else None
  }

  /** OpenAI and Anthropic (routers/email_template_router.py:188-198,
      249-259): the whole reply is used only when nothing at all was parsed. */
  function FinishAllOrNothing(content: string, st: ParseState, includeHtml: bool, includeText: bool): Generated {
    var nothing := st.subject == "" && st.html == "" && st.text == "";
    Generated(if st.subject == "" then DefaultSubject else st.subject,
              Requested(includeHtml, if nothing then content else st.html),
              Requested(includeText, if nothing then content else st.text))
  }

  /** DeepSeek (routers/email_template_router.py:331-341): each empty part
      falls back on its own. */
  function FinishPerField(content: string, st: ParseState, includeHtml: bool, includeText: bool): Generated {
    Generated(if st.subject == "" then DefaultSubject else st.subject,
              Requested(includeHtml, if st.html == "" then content else st.html),
              Requested(includeText, if st.text == "" then content else st.text))
  }

  /** The two fallbacks agree exactly when nothing was parsed, or when every
      requested part that came out empty would fall back to an empty reply. */
  lemma FallbacksAgree(content: string, st: ParseState, includeHtml: bool, includeText: bool)
    ensures FinishAllOrNothing(content, st, includeHtml, includeText) == FinishPerField(content, st, includeHtml, includeText)
      <==> (st.subject == "" && st.html == "" && st.text == "")
           || ((includeHtml && st.html == "" ==> content == "") && (includeText && st.text == "" ==> content == ""))
  {
  }

  /** Whatever the reply, the subject is never empty and exactly the requested
      parts are present. */
  lemma GeneratedShape(content: string, st: ParseState, includeHtml: bool, includeText: bool)
    ensures var g := FinishAllOrNothing(content, st, includeHtml, includeText);
      g.subject != "" && (g.html.Some? <==> includeHtml) && (g.text.Some? <==> includeText)
    ensures var g := FinishPerField(content, st, includeHtml, includeText);
      g.subject != "" && (g.html.Some? <==> includeHtml) && (g.text.Some? <==> includeText)
      && (includeHtml && content != "" ==> g.html.value != "")
      && (includeText && content != "" ==> g.text.value != "")
  {
  }

  /** `generate_openai_template` / `generate_anthropic_template` after the
      provider call: lines split on "\n". */
  method GenerateAllOrNothing(content: string, includeHtml: bool, includeText: bool) returns (g: Generated)
    ensures g == FinishAllOrNothing(content, Fold(Initial, Split(content, '\n')), includeHtml, includeText)
  {
    var subject, html, text := ParseSections(Split(content, '\n'));
    if subject == "" && html == "" && text == "" {
      if includeHtml {
        html := content;
      }
      if includeText {
        text := content;
      }
    }
    g := Generated(if subject == "" then DefaultSubject else subject,
                   if includeHtml then Some(html) else None,
                   if includeText then Some(text) else None);
  }

  /** `generate_deepseek_template` after the provider call: lines from
      `splitlines()`. */
  method GeneratePerField(content: string, includeHtml: bool, includeText: bool) returns (g: Generated)
    ensures g == FinishPerField(content, Fold(Initial, BreakLines(content)), includeHtml, includeText)
  {
    var subject, html, text := ParseSections(BreakLines(content));
    if subject == "" {
      subject := DefaultSubject;
    }
    if html == "" && includeHtml {
      html := content;
    }
    if text == "" && includeText {
      text := content;
    }
    g := Generated(subject, if includeHtml then Some(html) else None, if includeText then Some(text) else None);
  }
}
