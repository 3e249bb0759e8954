/** Helpers for chat messages: validation, truncation, word counts and reading time, the
    conversation summary, and the relative rendering of a message's age. */
module ChatUtils {
  import opened Text
  import opened Common
  import opened ChatContext

  // ----- validateMessage -----

  const MaxMessageLength: nat := 4000
  const EmptyMessageError: string := "Message cannot be empty"
  const TooLongError: string := "Message is too long (max 4000 characters)"

  datatype Validation = Validation(isValid: bool, error: Option<string>)

  /** `validateMessage`: a blank message is rejected first, then one longer than 4000
      characters; everything else is valid and carries no error. */
  function ValidateMessage(message: string): (r: Validation)
    ensures r.isValid <==> !AllSpace(message) && |message| <= MaxMessageLength
    ensures AllSpace(message) ==> r.error == Some(EmptyMessageError)
    ensures !AllSpace(message) && |message| > MaxMessageLength ==> r.error == Some(TooLongError)
    ensures r.isValid ==> r.error.None?
    ensures !r.isValid ==> r.error.Some?
  {
    TrimEmptyIff(message);
    if message == "" || |Trim(message)| == 0 then Validation(false, Some(EmptyMessageError))
    else if |message| > MaxMessageLength then Validation(false, Some(TooLongError))
    else Validation(true, None)
  }

  // ----- truncateMessage -----

  const DefaultTruncateLength: int := 100

  /** `truncateMessage`: a message that fits is returned as it is; a longer one keeps its first
      `maxLength` characters (none when `maxLength` is negative, as `substring` clamps) and
      gets "..." appended. */
  function TruncateMessage(message: string, maxLength: int): (r: string)
    ensures |message| <= maxLength ==> r == message
    ensures 0 <= maxLength < |message| ==> |r| == maxLength + 3 && r[..maxLength] == message[..maxLength]
                                           && r[maxLength..] == "..."
    ensures maxLength < 0 ==> r == "..."
  {
    if |message| <= maxLength then message
    else
      var end := if maxLength < 0 then 0 else maxLength;
      message[..end] + "..."
  }

  // ----- getMessageWordCount, estimateReadingTime -----

  /** The index of the first white-space character at or after `i`, or `|t|`. */
  function NextSpace(t: string, i: nat): (r: nat)
    requires i <= |t|
    ensures i <= r <= |t|
    ensures forall m :: i <= m < r ==> !IsSpace(t[m])
    ensures r < |t| ==> IsSpace(t[r])
    decreases |t| - i
  {
    if i == |t| || IsSpace(t[i]) then i else NextSpace(t, i + 1)
  }

  /** The index of the first character at or after `i` that is not white space, or `|t|`. */
  function SkipSpace(t: string, i: nat): (r: nat)
    requires i <= |t|
    ensures i <= r <= |t|
    ensures forall m :: i <= m < r ==> IsSpace(t[m])
    ensures r < |t| ==> !IsSpace(t[r])
    decreases |t| - i
  {
    if i == |t| || !IsSpace(t[i]) then i else SkipSpace(t, i + 1)
  }

  /** `t.slice(i).split(/\s+/)`: the pieces between maximal runs of white space. */
  function SplitOnSpaceFrom(t: string, i: nat): (pieces: seq<string>)
    requires i <= |t|
    ensures |pieces| >= 1
    decreases |t| - i
  {
    var k := NextSpace(t, i);
    if k == |t| then [t[i..]] else [t[i..k]] + SplitOnSpaceFrom(t, SkipSpace(t, k + 1))
  }

  predicate NoSpace(p: string) {
    forall m :: 0 <= m < |p| ==> !IsSpace(p[m])
  }

  /** No piece holds white space. */
  lemma {:induction false} PiecesHaveNoSpace(t: string, i: nat)
    requires i <= |t|
    ensures forall k :: 0 <= k < |SplitOnSpaceFrom(t, i)| ==> NoSpace(SplitOnSpaceFrom(t, i)[k])
    decreases |t| - i
  {
    var k := NextSpace(t, i);
    var ps := SplitOnSpaceFrom(t, i);
    assert NoSpace(t[i..k]) by {
      forall m | 0 <= m < k - i ensures !IsSpace(t[i..k][m]) {
        assert t[i..k][m] == t[i + m];
      }
    }
    if k < |t| {
      PiecesHaveNoSpace(t, SkipSpace(t, k + 1));
      assert ps[1..] == SplitOnSpaceFrom(t, SkipSpace(t, k + 1));
      forall j | 1 <= j < |ps| ensures NoSpace(ps[j]) {
        assert ps[j] == ps[1..][j - 1];
      }
    }
  }

  /** From a position that is not white space, in a string whose last character is not white
      space, every piece is non-empty. */
  lemma {:induction false} PiecesNonEmpty(t: string, i: nat)
    requires i < |t| && !IsSpace(t[i]) && !IsSpace(t[|t| - 1])
    ensures forall k :: 0 <= k < |SplitOnSpaceFrom(t, i)| ==> SplitOnSpaceFrom(t, i)[k] != ""
    decreases |t| - i
  {
    var k := NextSpace(t, i);
    var ps := SplitOnSpaceFrom(t, i);
    assert k > i;
    if k < |t| {
      var j := SkipSpace(t, k + 1);
      assert j < |t|;
      PiecesNonEmpty(t, j);
      assert ps[1..] == SplitOnSpaceFrom(t, j);
      forall n | 1 <= n < |ps| ensures ps[n] != "" {
        assert ps[n] == ps[1..][n - 1];
      }
    }
  }

  /** The words of a message: the pieces of its trimmed text. */
  function Words(message: string): seq<string> {
    SplitOnSpaceFrom(Trim(message), 0)
  }

  /** `getMessageWordCount`. */
  function WordCount(message: string): (n: nat)
    ensures n >= 1
  {
    |Words(message)|
  }

  /** The words are non-empty runs without white space, except that a blank message counts as
      the one empty word. */
  lemma WordsAreWords(message: string)
    ensures forall k :: 0 <= k < |Words(message)| ==> NoSpace(Words(message)[k])
    ensures AllSpace(message) ==> Words(message) == [""]
    ensures !AllSpace(message) ==> forall k :: 0 <= k < |Words(message)| ==> Words(message)[k] != ""
  {
    var t := Trim(message);
    PiecesHaveNoSpace(t, 0);
    TrimEmptyIff(message);
    TrimIsSlice(message);
    if t != "" {
      PiecesNonEmpty(t, 0);
    }
  }

  const WordsPerMinute: nat := 200

  /** `estimateReadingTime`: `Math.ceil(words / 200)`, the fewest whole minutes that cover the
      words; never less than one. */
  function ReadingTime(message: string): (minutes: nat)
    ensures minutes >= 1
    ensures (minutes - 1) * WordsPerMinute < WordCount(message) <= minutes * WordsPerMinute
  {
    (WordCount(message) + WordsPerMinute - 1) / WordsPerMinute
  }

  // ----- getConversationSummary -----

  /** The number of messages from `s`. */
  function CountFrom(ms: seq<Message>, s: Sender): (n: nat)
    ensures n <= |ms|
  {
    if ms == [] then 0 else (if ms[0].sender == s then 1 else 0) + CountFrom(ms[1..], s)
  }

  /** Every message is from the user or the bot, so the two counts add up to the total. */
  lemma {:induction false} CountsAddUp(ms: seq<Message>)
    ensures CountFrom(ms, User) + CountFrom(ms, Bot) == |ms|
  {
    if ms != [] {
      CountsAddUp(ms[1..]);
    }
  }

  const NoMessagesSummary: string := "No messages yet"
  const MessagesOpen: string := " messages ("
  const FromYou: string := " from you, "
  const FromAI: string := " from AI)"

  /** `getConversationSummary`: "No messages yet" exactly for the empty conversation, else
      the total and the counts per sender. */
  function Summary(ms: seq<Message>): (r: string)
    ensures ms == [] <==> r == NoMessagesSummary
  {
    if |ms| == 0 then NoMessagesSummary
    else
      var r := NatToString(|ms|) + MessagesOpen + (NatToString(CountFrom(ms, User)) + FromYou)
               + (NatToString(CountFrom(ms, Bot)) + FromAI);
      assert IsDigit(r[0]) && !IsDigit(NoMessagesSummary[0]);
      r
  }

  /** A non-empty conversation's summary starts with its length, which reads back, and
      reports the number of user and bot messages, which add up to that length. */
  lemma SummaryReportsCounts(ms: seq<Message>)
    requires ms != []
    ensures var r := Summary(ms); var t := NatToString(|ms|);
      && |t| <= |r| && r[..|t|] == t && ParseDigits(t) == |ms|
      && Contains(r, NatToString(CountFrom(ms, User)) + FromYou)
      && Contains(r, NatToString(CountFrom(ms, Bot)) + FromAI)
      && CountFrom(ms, User) + CountFrom(ms, Bot) == |ms|
  {
    var t := NatToString(|ms|);
    var u := NatToString(CountFrom(ms, User)) + FromYou;
    var b := NatToString(CountFrom(ms, Bot)) + FromAI;
    SummaryParts(ms);
    PartsReported(t + MessagesOpen, u, b);
    assert (t + MessagesOpen + u + b)[..|t|] == t;
    ParseNatToString(|ms|);
    CountsAddUp(ms);
  }

  /** The summary of a non-empty conversation, cut into the head, the user part and the bot part. */
  lemma SummaryParts(ms: seq<Message>)
    requires ms != []
    ensures Summary(ms) == NatToString(|ms|) + MessagesOpen + (NatToString(CountFrom(ms, User)) + FromYou)
                           + (NatToString(CountFrom(ms, Bot)) + FromAI)
  {
  }

  lemma PartsReported(head: string, u: string, b: string)
    ensures Contains(head + u + b, u) && Contains(head + u + b, b)
  {
    ContainsSelf(u);
    ContainsExtend(head, u, b, u);
    ContainsSelf(b);
    ContainsExtend(head + u, b, [], b);
    assert head + u + b + [] == head + u + b;
  }

  // ----- formatTimestamp -----

  /** A relative rendering, or the locale date which is not modelled. */
  datatype Formatted = Relative(text: string) | LocaleDate(at: Time)

  const MsPerMinute: int := 60000

  /** The whole minutes from `t` to `now`, rounded down. */
  function MinutesBetween(t: Time, now: Time): int {
    (now - t) / MsPerMinute
  }

  /** `formatTimestamp`, with the current time given: the age in whole minutes falls in one
      bucket, under a minute, under an hour, under a day or under a week, and the count in
      the bucket's unit is rounded down. */
  function FormatTimestamp(timestamp: Option<Time>, now: Time): (r: Formatted)
    ensures timestamp.None? ==> r == Relative("")
    ensures timestamp.Some? ==>
              var m := MinutesBetween(timestamp.value, now);
              && (m < 1 ==> r == Relative("Just now"))
              && (1 <= m < 60 ==> r == Relative(NatToString(m) + "m ago"))
              && (60 <= m < 24 * 60 ==> r == Relative(NatToString(m / 60) + "h ago"))
              && (24 * 60 <= m < 7 * 24 * 60 ==> r == Relative(NatToString(m / (24 * 60)) + "d ago"))
              && (7 * 24 * 60 <= m ==> r == LocaleDate(timestamp.value))
  {
    if timestamp.None? then Relative("")
    else
      var minutes := MinutesBetween(timestamp.value, now);
      if minutes < 1 then Relative("Just now")
      else if minutes < 60 then Relative(NatToString(minutes) + "m ago")
      else
        var hours := minutes / 60;
        if hours < 24 then Relative(NatToString(hours) + "h ago")
        else
          var days := hours / 24;
          DaysOfMinutes(minutes);
          if days < 7 then Relative(NatToString(days) + "d ago")
          else LocaleDate(timestamp.value)
  }

  /** Rounding down to hours and then to days is rounding down to days. */
  lemma DaysOfMinutes(m: nat)
    ensures m / 60 / 24 == m / (24 * 60)
    ensures m / 60 < 24 <==> m < 24 * 60
    ensures m / 60 / 24 < 7 <==> m < 7 * 24 * 60
  {
    var h := m / 60;
    var d := h / 24;
    assert m == 60 * h + m % 60;
    assert h == 24 * d + h % 24;
    assert m == 1440 * d + (60 * (h % 24) + m % 60);
    assert 0 <= 60 * (h % 24) + m % 60 < 1440;
  }

  /** Under an hour, the number in the rendering reads back as the age in minutes. */
  lemma MinutesReadBack(t: Time, now: Time)
    requires 1 <= MinutesBetween(t, now) < 60
    ensures var s := FormatTimestamp(Some(t), now).text;
      |s| > 5 && AllDigits(s[..|s| - 5]) && ParseDigits(s[..|s| - 5]) == MinutesBetween(t, now)
  {
    var m := MinutesBetween(t, now);
    var s := FormatTimestamp(Some(t), now).text;
    assert s[..|s| - 5] == NatToString(m);
    ParseNatToString(m);
  }
}
