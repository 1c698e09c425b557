/**
 * The news endpoint: it fetches the top story, asks the language model for a
 * titled summary, splits the model's answer on its "TITLE:" and "SUMMARY:"
 * markers, and formats the chat message. The two regular expressions of the
 * split are written out as scanners that follow the backtracking order of
 * ECMAScript regular expressions.
 */
module News {
  import opened Common
  import Text

  const TITLE_MARKER: string := "TITLE:"
  const SUMMARY_MARKER: string := "SUMMARY:"
  const NEWSPAPER: string := "\U{1F4F0}"
  const DEFAULT_TITLE: string := NEWSPAPER + " Latest Tech News"
  const APOLOGY: string :=
    "申し訳ございません。最新ニュースの取得中にエラーが発生しました。しばらく時間をおいてから再度お試しください。"
  const EXCERPT_LENGTH: nat := 500

  // ---------------------------------------------------------------------------
  // /TITLE:\s*(.+?)(?:\n|SUMMARY:)/i

  /** Where the lazy title capture may stop: before a newline or before "SUMMARY:" (any case). */
  predicate EndsTitle(s: string, e: nat)
  {
    (e < |s| && s[e] == '\n') || Text.MatchesAt(s, SUMMARY_MARKER, e, true)
  }

  /** `s[b..e]` is something `.+` can match without the `s` flag: not empty, no line terminator. */
  ghost predicate OnOneLine(s: string, b: nat, e: nat)
  {
    b < e <= |s| && forall k :: b <= k < e ==> !Text.IsLineTerminator(s[k])
  }

  ghost predicate WhiteSpaceBetween(s: string, a: nat, b: nat)
  {
    a <= b <= |s| && forall k :: a <= k < b ==> Text.IsWhiteSpace(s[k])
  }

  /** One way the title expression can match at `p`, capturing `s[b..e]`. */
  ghost predicate TitleMatch(s: string, p: nat, b: nat, e: nat)
  {
    && Text.MatchesAt(s, TITLE_MARKER, p, true)
    && WhiteSpaceBetween(s, p + |TITLE_MARKER|, b)
    && OnOneLine(s, b, e)
    && EndsTitle(s, e)
  }

  /** The length of the white-space run starting at `i`: what a greedy `\s*` takes first, the longest stretch there is. */
  function WhiteSpaceRun(s: string, i: nat): (n: nat)
    requires i <= |s|
    ensures WhiteSpaceBetween(s, i, i + n)
    ensures i + n < |s| ==> !Text.IsWhiteSpace(s[i + n])
    ensures forall b: nat :: WhiteSpaceBetween(s, i, b) ==> b <= i + n
    decreases |s| - i
  {
    if i < |s| && Text.IsWhiteSpace(s[i]) then 1 + WhiteSpaceRun(s, i + 1) else 0
  }

  /** The lazy `(.+?)` from `b`, having consumed `s[b..e-1]`: the shortest end `e' >= e` followed by a title terminator. */
  function LazyTitleEnd(s: string, b: nat, e: nat): (r: Option<nat>)
    requires b < e <= |s|
    requires forall k :: b <= k < e - 1 ==> !Text.IsLineTerminator(s[k])
    ensures r.Some? ==> e <= r.value && OnOneLine(s, b, r.value) && EndsTitle(s, r.value)
    ensures r.Some? ==> forall e': nat :: e <= e' < r.value ==> !EndsTitle(s, e')
    ensures r.None? ==> forall e': nat :: e <= e' && OnOneLine(s, b, e') ==> !EndsTitle(s, e')
    decreases |s| - e
  {
    if Text.IsLineTerminator(s[e - 1]) then None
    else if EndsTitle(s, e) then Some(e)
    else if e == |s| then None
    else LazyTitleEnd(s, b, e + 1)
  }

  /** The greedy `\s*` backtracking: try `k` white-space characters after the marker, then fewer. */
  function TitleAfterMarker(s: string, q: nat, k: nat): (r: Option<(nat, nat)>)
    requires WhiteSpaceBetween(s, q, q + k)
    requires forall b: nat, e: nat :: q + k < b && WhiteSpaceBetween(s, q, b) && OnOneLine(s, b, e) ==> !EndsTitle(s, e)
    ensures r.Some? ==> q <= r.value.0 <= q + k && WhiteSpaceBetween(s, q, r.value.0)
                        && OnOneLine(s, r.value.0, r.value.1) && EndsTitle(s, r.value.1)
    ensures r.Some? ==> forall b: nat, e: nat :: r.value.0 < b && WhiteSpaceBetween(s, q, b) && OnOneLine(s, b, e) ==> !EndsTitle(s, e)
    ensures r.Some? ==> forall e: nat :: e < r.value.1 && OnOneLine(s, r.value.0, e) ==> !EndsTitle(s, e)
    ensures r.None? ==> forall b: nat, e: nat :: WhiteSpaceBetween(s, q, b) && OnOneLine(s, b, e) ==> !EndsTitle(s, e)
    decreases k
  {
    var first := if q + k < |s| then LazyTitleEnd(s, q + k, q + k + 1) else None;
    if first.Some? then Some((q + k, first.value))
    else if k == 0 then None
    else TitleAfterMarker(s, q, k - 1)
  }

  /**
   * The title expression tried at `p` alone, as the bounds of its capture: the
   * one the regular expression engine finds first, with the longest white-space
   * prefix that admits a match and then the shortest capture.
   */
  function TitleAt(s: string, p: nat): (r: Option<(nat, nat)>)
    ensures r.Some? ==> TitleMatch(s, p, r.value.0, r.value.1)
    ensures r.Some? ==> forall b: nat, e: nat :: r.value.0 < b ==> !TitleMatch(s, p, b, e)
    ensures r.Some? ==> forall e: nat :: e < r.value.1 ==> !TitleMatch(s, p, r.value.0, e)
    ensures r.None? ==> forall b: nat, e: nat :: !TitleMatch(s, p, b, e)
  {
    if Text.MatchesAt(s, TITLE_MARKER, p, true) then
      var q := p + |TITLE_MARKER|;
      TitleAfterMarker(s, q, WhiteSpaceRun(s, q))
    else None
  }

  /** `summary.match(title expression)`: the leftmost position where the expression matches. */
  function FindTitle(s: string): (r: Option<nat>)
    ensures r.Some? ==> TitleAt(s, r.value).Some?
    ensures r.Some? ==> forall p: nat :: p < r.value ==> TitleAt(s, p).None?
    ensures r.None? ==> forall p: nat :: TitleAt(s, p).None?
  {
    var holds := (p: nat) => TitleAt(s, p).Some?;
    assert forall p: nat :: holds(p) == TitleAt(s, p).Some?;
    Text.FirstWhere(holds, 0, |s|)
  }

  // ---------------------------------------------------------------------------
  // /SUMMARY:\s*(.+)/is

  /** The summary expression matches at `p` exactly when the marker is followed by at least one character. */
  predicate SummaryMatch(s: string, p: nat)
  {
    Text.MatchesAt(s, SUMMARY_MARKER, p, true) && p + |SUMMARY_MARKER| < |s|
  }

  /**
   * Where the capture of the summary expression starts when the marker ends at
   * `q`: after the greedy `\s*`, giving back one character when the white space
   * runs to the end (`.+` needs one, and with the `s` flag `.` matches line
   * breaks too).
   */
  function SummaryStart(s: string, q: nat): (b: nat)
    requires q < |s|
    ensures q <= b < |s|
    ensures WhiteSpaceBetween(s, q, b)
  {
    var n := WhiteSpaceRun(s, q);
    if q + n < |s| then q + n else |s| - 1
  }

  /** The capture of the summary expression, trimmed, is the trimmed text after the marker. */
  lemma SummaryCaptureTrimmed(s: string, q: nat)
    requires q < |s|
    ensures Text.Trim(s[SummaryStart(s, q)..]) == Text.Trim(s[q..])
  {
    var b := SummaryStart(s, q);
    assert forall i :: q <= i < b ==> Text.IsWhiteSpace(s[i]);
    Text.TrimAfterWhiteSpace(s, q, b);
  }

  /** `summary.match(summary expression)`: the leftmost position where it matches. */
  function FindSummary(s: string): (r: Option<nat>)
    ensures r.Some? ==> SummaryMatch(s, r.value)
    ensures r.Some? ==> forall p: nat :: p < r.value ==> !SummaryMatch(s, p)
    ensures r.None? ==> forall p: nat :: !SummaryMatch(s, p)
  {
    var holds := (p: nat) => SummaryMatch(s, p);
    assert forall p: nat :: holds(p) == SummaryMatch(s, p);
    Text.FirstWhere(holds, 0, |s|)
  }

  // ---------------------------------------------------------------------------
  // The split and the message

  /** The headline: the trimmed capture, or the fixed default when the title expression matches nowhere. */
  function ExtractTitle(summary: string): (title: string)
    ensures (forall p: nat, b: nat, e: nat :: !TitleMatch(summary, p, b, e)) ==> title == DEFAULT_TITLE
    ensures forall k :: 0 <= k < |title| ==> !Text.IsLineTerminator(title[k])
  {
    match FindTitle(summary)
    case Some(p) =>
      var bounds := TitleAt(summary, p).value;
      var capture := summary[bounds.0..bounds.1];
      assert forall k :: 0 <= k < |capture| ==> !Text.IsLineTerminator(capture[k]) by {
        forall k | 0 <= k < |capture| ensures !Text.IsLineTerminator(capture[k]) {
          assert capture[k] == summary[bounds.0 + k];
        }
      }
      Text.TrimKeepsOneLine(capture);
      Text.Trim(capture)
    case None => DEFAULT_TITLE
  }

  /** Where a title match exists, the headline is the trimmed leftmost-first capture. */
  lemma TitleIsTrimmedCapture(summary: string, p: nat, b: nat, e: nat)
    requires TitleMatch(summary, p, b, e)
    requires forall p': nat, b': nat, e': nat :: p' < p ==> !TitleMatch(summary, p', b', e')
    requires forall b': nat, e': nat :: b < b' ==> !TitleMatch(summary, p, b', e')
    requires forall e': nat :: e' < e ==> !TitleMatch(summary, p, b, e')
    ensures ExtractTitle(summary) == Text.Trim(summary[b..e])
  {
    var at := TitleAt(summary, p);
    assert at.Some?;
    var found := FindTitle(summary);
    assert found.Some? && found.value <= p;
    if found.value < p {
      assert false;
    }
    assert found == Some(p);
    var bounds := at.value;
    assert TitleMatch(summary, p, bounds.0, bounds.1);
    assert bounds.0 == b;
    assert bounds.1 == e;
  }

  /** The body: the trimmed capture after the leftmost "SUMMARY:", or the whole answer untrimmed. */
  function ExtractContent(summary: string): string
  {
    match FindSummary(summary)
    case Some(p) => Text.Trim(summary[SummaryStart(summary, p + |SUMMARY_MARKER|)..])
    case None => summary
  }

  /** Without a "SUMMARY:" marker followed by text, the body is the answer as it came. */
  lemma ContentWithoutMarker(summary: string)
    requires forall p: nat :: !SummaryMatch(summary, p)
    ensures ExtractContent(summary) == summary
  {
    assert FindSummary(summary).None? by {
      var found := FindSummary(summary);
      if found.Some? {
        assert false;
      }
    }
  }

  /** The search for the summary marker stops at the leftmost match. */
  lemma FindSummaryIsLeftmost(summary: string, p: nat)
    requires SummaryMatch(summary, p)
    requires forall p': nat :: p' < p ==> !SummaryMatch(summary, p')
    ensures FindSummary(summary) == Some(p)
  {
    var found := FindSummary(summary);
    if found.value < p {
      assert false;
    }
  }

  /** The body once the leftmost marker is known. */
  lemma ContentAfterFoundMarker(summary: string, p: nat)
    requires FindSummary(summary) == Some(p)
    ensures ExtractContent(summary) == Text.Trim(summary[p + |SUMMARY_MARKER|..])
  {
    var q := p + |SUMMARY_MARKER|;
    SummaryCaptureTrimmed(summary, q);
  }

  /** With one, the body is the trimmed rest of the answer after the leftmost marker. */
  lemma ContentIsTrimmedRest(summary: string, p: nat)
    requires SummaryMatch(summary, p)
    requires forall p': nat :: p' < p ==> !SummaryMatch(summary, p')
    ensures ExtractContent(summary) == Text.Trim(summary[p + |SUMMARY_MARKER|..])
  {
    FindSummaryIsLeftmost(summary, p);
    ContentAfterFoundMarker(summary, p);
  }

  /** The chat message content built from the model's answer. */
  function FormatContent(summary: string): string
  {
    NEWSPAPER + " " + ExtractTitle(summary) + "\n\n" + ExtractContent(summary)
  }

  /** The layout of a message made of a one-line headline and a body. */
  lemma {:induction false} MessageLayout(title: string, body: string)
    requires forall k :: 0 <= k < |title| ==> !Text.IsLineTerminator(title[k])
    ensures var content := NEWSPAPER + " " + title + "\n\n" + body;
      var n := |NEWSPAPER| + 1 + |title|;
      && n + 2 <= |content|
      && (forall k :: 0 <= k < n ==> !Text.IsLineTerminator(content[k]))
      && content[n] == '\n' && content[n + 1] == '\n'
      && content[n + 2..] == body
      && content[..|NEWSPAPER| + 1] == NEWSPAPER + " "
      && content[|NEWSPAPER| + 1..n] == title
  {
    var head := NEWSPAPER + " " + title;
    var content := head + "\n\n" + body;
    assert content == head + ("\n\n" + body);
    forall k | 0 <= k < |head| ensures !Text.IsLineTerminator(content[k]) {
      assert content[k] == head[k];
      if k >= |NEWSPAPER| + 1 {
        assert head[k] == title[k - |NEWSPAPER| - 1];
      }
    }
  }

  /**
   * The message reads as a headline line and a body: its first line break comes
   * right after the headline, a blank line follows, and the rest is the body.
   */
  lemma HeadlineIsFirstLine(summary: string)
    ensures var content := FormatContent(summary);
      var n := |NEWSPAPER| + 1 + |ExtractTitle(summary)|;
      && n + 2 <= |content|
      && (forall k :: 0 <= k < n ==> !Text.IsLineTerminator(content[k]))
      && content[n] == '\n' && content[n + 1] == '\n'
      && content[n + 2..] == ExtractContent(summary)
      && content[..|NEWSPAPER| + 1] == NEWSPAPER + " "
      && content[|NEWSPAPER| + 1..n] == ExtractTitle(summary)
  {
    MessageLayout(ExtractTitle(summary), ExtractContent(summary));
  }

  // ---------------------------------------------------------------------------
  // The request flow of GET

  /** The fields of a Hacker News item the endpoint reads. */
  datatype Story = Story(title: string, text: Option<string>, itemType: string)

  /** What fetching and decoding a JSON resource gives: it threw, it was not ok, or its body. */
  datatype Fetched<+T> = FetchThrew | NotOk | Ok(body: T)

  /** The optional "Content:" line of the prompt: at most the first 500 characters of the story text. */
  function ContentLine(text: Option<string>): (line: string)
    ensures !(text.Some? && text.value != "") ==> line == ""
    ensures text.Some? && text.value != "" ==>
      exists excerpt :: line == "Content: " + excerpt
        && excerpt <= text.value
        && |excerpt| == if |text.value| < EXCERPT_LENGTH then |text.value| else EXCERPT_LENGTH
  {
    if text.Some? && text.value != "" then
      var excerpt := if |text.value| < EXCERPT_LENGTH then text.value else text.value[..EXCERPT_LENGTH];
      "Content: " + excerpt
    else ""
  }

  const PROMPT_OPENING: string :=
    "Hey! Can you help me understand this tech story from Hacker News? Here's what I found:\n\nTitle: "
  const PROMPT_REQUEST: string :=
    "\n\nPlease give me:\n"
    + "1. A catchy, specific title that captures the main point (like \"Google Launches New AI Tool\" instead of \"Latest Tech News\")\n"
    + "2. A friendly 2-3 sentence summary that explains what happened and why it's cool for developers\n\n"
    + "Make it sound like you're telling a friend about something interesting you just read!"

  /** The user message sent to the language model: the story's title and excerpt between fixed wording. */
  function SummaryPrompt(story: Story): string
  {
    PROMPT_OPENING + story.title + "\n" + ContentLine(story.text) + PROMPT_REQUEST
  }

  /**
   * The content of the message `GET` answers with. `topStories` is the fetch of the
   * top-story ids, `item` the fetch of an item by id, and `complete` the language
   * model as a function of the prompt (`None` when the call throws or returns no
   * content).
   */
  function NewsContent(topStories: Fetched<seq<int>>, item: int -> Fetched<Option<Story>>,
                       complete: string -> Option<string>): (content: string)
    ensures !topStories.Ok? || topStories.body == [] ==> content == APOLOGY
    ensures topStories.Ok? && topStories.body != [] ==>
      var fetched := item(topStories.body[0]);
      (!(fetched.Ok? && fetched.body.Some? && fetched.body.value.itemType == "story") ==> content == APOLOGY)
      && (fetched.Ok? && fetched.body.Some? && fetched.body.value.itemType == "story" ==>
            var answer := complete(SummaryPrompt(fetched.body.value));
            (answer.Some? && answer.value != "" ==> content == FormatContent(answer.value))
            && (!(answer.Some? && answer.value != "") ==> content == APOLOGY))
  {
    if !topStories.Ok? || topStories.body == [] then APOLOGY
    else
      match item(topStories.body[0])
      case Ok(Some(story)) =>
        if story.itemType != "story" then APOLOGY
        else
          (match complete(SummaryPrompt(story))
           case Some(summary) => if summary == "" then APOLOGY else FormatContent(summary)
           case None => APOLOGY)
      case _ => APOLOGY
  }

  /** Only the first id is looked up: items fetched for other ids make no difference. */
  lemma OnlyFirstStoryMatters(topStories: Fetched<seq<int>>, item1: int -> Fetched<Option<Story>>,
                              item2: int -> Fetched<Option<Story>>, complete: string -> Option<string>)
    requires topStories.Ok? && topStories.body != []
    requires item1(topStories.body[0]) == item2(topStories.body[0])
    ensures NewsContent(topStories, item1, complete) == NewsContent(topStories, item2, complete)
  {
  }
}
