/** The conversation actions: export as JSON, plain text or Markdown, the statistics, search,
    and lookup by index. The download itself is not modelled, only what would be downloaded. */
module ChatActions {
  import opened Text
  import opened Common
  import opened ChatContext
  import ChatUtils

  // ----- split with a one-character separator -----

  /** The index of the first `c` in `s`, or `|s|`. */
  function FirstIndex(s: string, c: char): (r: nat)
    ensures r <= |s|
    ensures r < |s| ==> s[r] == c
    ensures forall j :: 0 <= j < r ==> s[j] != c
  {
    if s == [] || s[0] == c then 0 else 1 + FirstIndex(s[1..], c)
  }

  /** `s.split(c)`: the pieces between the occurrences of `c`. */
  function SplitOn(s: string, c: char): (parts: seq<string>)
    ensures |parts| >= 1
    decreases |s|
  {
    var k := FirstIndex(s, c);
    if k == |s| then [s] else [s[..k]] + SplitOn(s[k + 1..], c)
  }

  /** There is one piece more than there are separators. */
  lemma {:induction false} SplitCount(s: string, c: char)
    ensures |SplitOn(s, c)| == multiset(s)[c] + 1
    decreases |s|
  {
    var k := FirstIndex(s, c);
    if k == |s| {
      assert c !in multiset(s);
    } else {
      SplitCount(s[k + 1..], c);
      assert s == s[..k] + [c] + s[k + 1..];
      assert multiset(s) == multiset(s[..k]) + multiset([c]) + multiset(s[k + 1..]);
      assert c !in multiset(s[..k]);
    }
  }

  /** Joining the pieces with the separator gives the string back. */
  lemma {:induction false} SplitJoin(s: string, c: char)
    ensures Join([c], SplitOn(s, c)) == s
    decreases |s|
  {
    var k := FirstIndex(s, c);
    if k < |s| {
      SplitJoin(s[k + 1..], c);
      assert SplitOn(s, c)[1..] == SplitOn(s[k + 1..], c);
      assert s == s[..k] + [c] + s[k + 1..];
    }
  }

  // ----- exportConversation -----

  datatype Content = Text(text: string) | JsonDump(messages: seq<Message>)

  datatype Exported = Exported(content: Content, filename: string, mimeType: string)

  datatype ExportResult = ExportOk(exported: Exported) | ExportError(message: string)

  /** `msg.sender.toUpperCase()`. */
  function UpperSender(s: Sender): string {
    match s
    case User => "USER"
    case Bot => "BOT"
  }

  /** One exported line per message: the upper-cased sender, bold in Markdown, then the text. */
  function ExportLine(m: Message, markdown: bool): (line: string)
    ensures !markdown ==> line == UpperSender(m.sender) + ": " + m.text
    ensures markdown ==> line == "**" + UpperSender(m.sender) + "**: " + m.text
  {
    if markdown then "**" + UpperSender(m.sender) + "**: " + m.text else UpperSender(m.sender) + ": " + m.text
  }

  function ExportLines(ms: seq<Message>, markdown: bool): (lines: seq<string>)
    ensures |lines| == |ms|
    ensures forall k :: 0 <= k < |ms| ==> lines[k] == ExportLine(ms[k], markdown)
  {
    if ms == [] then [] else [ExportLine(ms[0], markdown)] + ExportLines(ms[1..], markdown)
  }

  /** The date part of an ISO timestamp: everything before the first 'T'. */
  function DatePart(iso: string): string {
    SplitOn(iso, 'T')[0]
  }

  /** `exportConversation`, with the current time given as its ISO string. An empty
      conversation is refused before the format is looked at; a format other than the three
      is refused. */
  function Export(ms: seq<Message>, format: string, isoNow: string): (r: ExportResult)
    ensures ms == [] ==> r == ExportError("No messages to export")
    ensures ms != [] && format !in ["json", "txt", "md"] ==> r == ExportError("Unsupported export format")
    ensures ms != [] && format in ["json", "txt", "md"]
            ==> r.ExportOk? && r.exported.filename == "conversation-" + DatePart(isoNow) + "." + format
    ensures ms != [] && format == "json" ==> r == ExportOk(Exported(JsonDump(ms), r.exported.filename, "application/json"))
    ensures ms != [] && format == "txt"
            ==> r == ExportOk(Exported(Text(Join("\n\n", ExportLines(ms, false))), r.exported.filename, "text/plain"))
    ensures ms != [] && format == "md"
            ==> r == ExportOk(Exported(Text(Join("\n\n", ExportLines(ms, true))), r.exported.filename, "text/markdown"))
  {
    if |ms| == 0 then ExportError("No messages to export")
    else
      var date := DatePart(isoNow);
      if format == "json" then
        ExportOk(Exported(JsonDump(ms), "conversation-" + date + ".json", "application/json"))
      else if format == "txt" then
        ExportOk(Exported(Text(Join("\n\n", ExportLines(ms, false))), "conversation-" + date + ".txt", "text/plain"))
      else if format == "md" then
        ExportOk(Exported(Text(Join("\n\n", ExportLines(ms, true))), "conversation-" + date + ".md", "text/markdown"))
      else ExportError("Unsupported export format")
  }

  /** Every message's text appears in a text or Markdown export. */
  lemma ExportHoldsEveryText(ms: seq<Message>, markdown: bool, isoNow: string, k: nat)
    requires k < |ms|
    ensures var r := Export(ms, if markdown then "md" else "txt", isoNow);
            r.ExportOk? && r.exported.content.Text? && Contains(r.exported.content.text, ms[k].text)
  {
    var lines := ExportLines(ms, markdown);
    var content := Join("\n\n", lines);
    JoinContainsPart("\n\n", lines, k);
    var line := lines[k];
    var head := if markdown then "**" + UpperSender(ms[k].sender) + "**: " else UpperSender(ms[k].sender) + ": ";
    assert line == head + ms[k].text + [];
    ContainsSelf(ms[k].text);
    ContainsExtend(head, ms[k].text, [], ms[k].text);
    ContainsTransitive(content, line, ms[k].text);
  }

  // ----- getConversationStats -----

  datatype Stats = Stats(totalMessages: nat, userMessages: nat, botMessages: nat,
                         totalWords: nat, averageWordsPerMessage: nat)

  /** The sum of `text.split(" ").length` over the messages. */
  function TotalWords(ms: seq<Message>): (n: nat)
    ensures n >= |ms|
  {
    if ms == [] then 0 else |SplitOn(ms[0].text, ' ')| + TotalWords(ms[1..])
  }

  /** Every message contributes one word more than it has spaces. */
  lemma {:induction false} TotalWordsCountsSpaces(ms: seq<Message>)
    ensures TotalWords(ms) == |ms| + SpaceTotal(ms)
  {
    if ms != [] {
      SplitCount(ms[0].text, ' ');
      TotalWordsCountsSpaces(ms[1..]);
    }
  }

  function SpaceTotal(ms: seq<Message>): nat {
    if ms == [] then 0 else multiset(ms[0].text)[' '] + SpaceTotal(ms[1..])
  }

  /** `Math.round(total / n)` for a positive `n`: the nearest whole number, halves rounded up. */
  function RoundedMean(total: nat, n: nat): (m: nat)
    requires n > 0
    ensures 2 * m * n <= 2 * total + n < 2 * m * n + 2 * n
  {
    (2 * total + n) / (2 * n)
  }

  /** `getConversationStats`, without the duration. */
  function ConversationStats(ms: seq<Message>): (s: Stats)
    ensures s.totalMessages == |ms|
    ensures s.userMessages + s.botMessages == s.totalMessages
    ensures s.totalWords >= s.totalMessages
    ensures ms == [] ==> s.averageWordsPerMessage == 0
    ensures ms != [] ==> 2 * s.averageWordsPerMessage * |ms| <= 2 * s.totalWords + |ms|
                         < 2 * s.averageWordsPerMessage * |ms| + 2 * |ms|
  {
    ChatUtils.CountsAddUp(ms);
    var total := TotalWords(ms);
    Stats(|ms|, ChatUtils.CountFrom(ms, User), ChatUtils.CountFrom(ms, Bot), total,
          if |ms| > 0 then RoundedMean(total, |ms|) else 0)
  }

  // ----- searchMessages -----

  /** A message matches when its lower-cased text contains the lower-cased query. */
  predicate Matches(m: Message, query: string) {
    Contains(Lower(m.text), Lower(query))
  }

  function Filter(ms: seq<Message>, query: string): (r: seq<Message>)
    ensures |r| <= |ms|
    ensures forall k :: 0 <= k < |r| ==> r[k] in ms && Matches(r[k], query)
    ensures forall k :: 0 <= k < |ms| && Matches(ms[k], query) ==> ms[k] in r
  {
    if ms == [] then []
    else (if Matches(ms[0], query) then [ms[0]] else []) + Filter(ms[1..], query)
  }

  /** The filter keeps the order of the conversation. */
  lemma {:induction false} FilterAppend(a: seq<Message>, b: seq<Message>, query: string)
    ensures Filter(a + b, query) == Filter(a, query) + Filter(b, query)
  {
    if a == [] {
      assert a + b == b;
    } else {
      assert (a + b)[1..] == a[1..] + b;
      FilterAppend(a[1..], b, query);
    }
  }

  /** `searchMessages`: a blank query gives the whole conversation; otherwise the result holds
      the matching messages and only those. */
  function Search(ms: seq<Message>, query: string): (r: seq<Message>)
    ensures AllSpace(query) ==> r == ms
    ensures !AllSpace(query) ==> r == Filter(ms, query)
  {
    TrimEmptyIff(query);
    if Trim(query) == "" then ms else Filter(ms, query)
  }

  /** A message whose text contains the query verbatim is found. */
  lemma SearchFindsVerbatim(ms: seq<Message>, query: string, k: nat)
    requires k < |ms| && !AllSpace(query) && Contains(ms[k].text, query)
    ensures ms[k] in Search(ms, query)
  {
    var i :| 0 <= i <= |ms[k].text| - |query| && OccursAt(ms[k].text, query, i);
    assert Lower(ms[k].text)[i..i + |query|] == Lower(query);
    assert OccursAt(Lower(ms[k].text), Lower(query), i);
  }

  // ----- getMessageById -----

  /** `messages[index]`: the message at the index, or nothing when the index is out of range. */
  function MessageAt(ms: seq<Message>, index: int): (r: Option<Message>)
    ensures 0 <= index < |ms| ==> r == Some(ms[index])
    ensures !(0 <= index < |ms|) ==> r.None?
  {
    if 0 <= index < |ms| then Some(ms[index]) else None
  }
}
