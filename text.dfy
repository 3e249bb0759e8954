/** String helpers shared by the model: JavaScript's notion of white space and `trim`,
    substring search (`includes`), `join`, decimal rendering of counts, and the
    per-character lower-casing used for case-insensitive comparisons. */
module Text {

  /** The characters that ECMAScript's `String.prototype.trim` and the regular-expression
      class `\s` treat as white space (WhiteSpace and LineTerminator). */
  predicate IsSpace(c: char) {
    ('\t' <= c <= '\r') || c == ' ' || c == '\U{00A0}' || c == '\U{1680}'
    || ('\U{2000}' <= c <= '\U{200A}') || c == '\U{2028}' || c == '\U{2029}'
    || c == '\U{202F}' || c == '\U{205F}' || c == '\U{3000}' || c == '\U{FEFF}'
  }

  predicate AllSpace(s: string) {
    forall i :: 0 <= i < |s| ==> IsSpace(s[i])
  }

  /** Neither end of `s` is white space. */
  predicate IsTrimmed(s: string) {
    s == [] || (!IsSpace(s[0]) && !IsSpace(s[|s| - 1]))
  }

  /** `s` with its leading white space removed. */
  function TrimStart(s: string): string {
    if |s| > 0 && IsSpace(s[0]) then TrimStart(s[1..]) else s
  }

  /** `TrimStart(s)` is a suffix of `s` that does not start with white space, and what it
      drops is all white space. */
  lemma {:induction false} TrimStartIsSuffix(s: string)
    ensures |TrimStart(s)| <= |s| && TrimStart(s) == s[|s| - |TrimStart(s)|..]
    ensures TrimStart(s) == [] || !IsSpace(TrimStart(s)[0])
    ensures AllSpace(s[..|s| - |TrimStart(s)|])
  {
    if |s| > 0 && IsSpace(s[0]) {
      TrimStartIsSuffix(s[1..]);
      var r := TrimStart(s);
      assert s[..|s| - |r|] == [s[0]] + s[1..][..|s| - 1 - |r|];
    }
  }

  /** `s` with its trailing white space removed. */
  function TrimEnd(s: string): string {
    if |s| > 0 && IsSpace(s[|s| - 1]) then TrimEnd(s[..|s| - 1]) else s
  }

  /** `TrimEnd(s)` is a prefix of `s` that does not end with white space, and what it
      drops is all white space. */
  lemma {:induction false} TrimEndIsPrefix(s: string)
    ensures |TrimEnd(s)| <= |s| && TrimEnd(s) == s[..|TrimEnd(s)|]
    ensures TrimEnd(s) == [] || !IsSpace(TrimEnd(s)[|TrimEnd(s)| - 1])
    ensures AllSpace(s[|TrimEnd(s)|..])
  {
    if |s| > 0 && IsSpace(s[|s| - 1]) {
      TrimEndIsPrefix(s[..|s| - 1]);
      var r := TrimEnd(s);
      assert s[|r|..] == s[..|s| - 1][|r|..] + [s[|s| - 1]];
    }
  }

  /** JavaScript's `s.trim()`. */
  function Trim(s: string): string {
    TrimEnd(TrimStart(s))
  }

  /** The number of leading white-space characters that `Trim` drops. */
  function TrimOffset(s: string): int {
    |s| - |TrimStart(s)|
  }

  /** `Trim(s)` is the slice of `s` left after dropping white space at both ends,
      and it is itself trimmed. */
  lemma TrimIsSlice(s: string)
    ensures 0 <= TrimOffset(s) <= TrimOffset(s) + |Trim(s)| <= |s|
    ensures Trim(s) == s[TrimOffset(s)..TrimOffset(s) + |Trim(s)|]
    ensures AllSpace(s[..TrimOffset(s)]) && AllSpace(s[TrimOffset(s) + |Trim(s)|..])
    ensures IsTrimmed(Trim(s))
  {
    var a := TrimStart(s);
    var r := TrimEnd(a);
    TrimStartIsSuffix(s);
    TrimEndIsPrefix(a);
    var o := TrimOffset(s);
    assert a == s[o..];
    assert s[o + |r|..] == a[|r|..];
    if r != [] {
      assert r[0] == a[0];
    }
  }

  /** Trimming a trimmed string changes nothing. */
  lemma TrimTrimmed(s: string)
    requires IsTrimmed(s)
    ensures Trim(s) == s
  {
  }

  /** A string trims to the empty string exactly when it is all white space. */
  lemma TrimEmptyIff(s: string)
    ensures Trim(s) == [] <==> AllSpace(s)
  {
    TrimIsSlice(s);
    var o := TrimOffset(s);
    if Trim(s) == [] {
      forall i | 0 <= i < |s| ensures IsSpace(s[i]) {
        if i < o {
          assert s[i] == s[..o][i];
        } else {
          assert s[i] == s[o..][i - o];
        }
      }
    } else {
      assert s[o] == Trim(s)[0];
    }
  }

  /** `t` occurs in `s` as a contiguous substring (JavaScript's `s.includes(t)`). */
  predicate Contains(s: string, t: string) {
    exists i | 0 <= i <= |s| - |t| :: OccursAt(s, t, i)
  }

  /** `t` occurs in `s` starting at index `i`. */
  predicate OccursAt(s: string, t: string, i: int) {
    0 <= i <= |s| - |t| && s[i..i + |t|] == t
  }

  lemma ContainsSelf(s: string)
    ensures Contains(s, s)
  {
    assert OccursAt(s, s, 0);
  }

  /** An occurrence of `t` in `s` is still one after text is added on either side. */
  lemma ContainsExtend(p: string, s: string, q: string, t: string)
    requires Contains(s, t)
    ensures Contains(p + s + q, t)
  {
    var i :| 0 <= i <= |s| - |t| && OccursAt(s, t, i);
    assert s[i..i + |t|] == t;
    assert (p + s + q)[|p| + i..|p| + i + |t|] == s[i..i + |t|];
    assert OccursAt(p + s + q, t, |p| + i);
  }

  /** A string cannot contain `t` when it lacks one of `t`'s characters. */
  lemma NotContainsMissingChar(s: string, t: string, c: char)
    requires c in t && c !in s
    ensures !Contains(s, t)
  {
    forall i | 0 <= i <= |s| - |t| ensures !OccursAt(s, t, i) {
      var m :| 0 <= m < |t| && t[m] == c;
      assert s[i..i + |t|][m] != c;
    }
  }

  /** A non-empty trimmed string found in `s` is still found in `Trim(s)`: trimming only
      drops white space, and the occurrence neither starts nor ends with white space. */
  lemma ContainsTrim(s: string, t: string)
    requires t != [] && IsTrimmed(t) && Contains(s, t)
    ensures Contains(Trim(s), t)
  {
    TrimIsSlice(s);
    var o := TrimOffset(s);
    var r := Trim(s);
    forall j | 0 <= j < o ensures IsSpace(s[j]) {
      assert s[j] == s[..o][j];
    }
    forall j | o + |r| <= j < |s| ensures IsSpace(s[j]) {
      assert s[j] == s[o + |r|..][j - o - |r|];
    }
    ContainsInCore(s, t, o, o + |r|);
  }

  /** The occurrence of a non-empty trimmed `t` lies inside the part of `s` between
      white-space margins. */
  lemma ContainsInCore(s: string, t: string, lo: nat, hi: nat)
    requires lo <= hi <= |s|
    requires forall j :: 0 <= j < lo ==> IsSpace(s[j])
    requires forall j :: hi <= j < |s| ==> IsSpace(s[j])
    requires t != [] && IsTrimmed(t) && Contains(s, t)
    ensures Contains(s[lo..hi], t)
  {
    var i :| 0 <= i <= |s| - |t| && OccursAt(s, t, i);
    assert s[i..i + |t|] == t;
    assert !IsSpace(s[i]) by { assert s[i] == t[0]; }
    assert !IsSpace(s[i + |t| - 1]) by { assert s[i + |t| - 1] == t[|t| - 1]; }
    assert lo <= i && i + |t| <= hi;
    var core := s[lo..hi];
    forall m | 0 <= m < |t| ensures core[i - lo + m] == t[m] {
      assert core[i - lo + m] == s[i + m];
      assert t[m] == s[i..i + |t|][m];
    }
    assert core[i - lo..i - lo + |t|] == t;
    assert OccursAt(core, t, i - lo);
  }

  /** Containment is transitive. */
  lemma ContainsTransitive(s: string, u: string, t: string)
    requires Contains(s, u) && Contains(u, t)
    ensures Contains(s, t)
  {
    var i :| 0 <= i <= |s| - |u| && OccursAt(s, u, i);
    var j :| 0 <= j <= |u| - |t| && OccursAt(u, t, j);
    forall m | 0 <= m < |t| ensures s[i + j + m] == t[m] {
      assert s[i + j + m] == s[i..i + |u|][j + m];
      assert t[m] == u[j..j + |t|][m];
    }
    assert s[i + j..i + j + |t|] == t;
    assert OccursAt(s, t, i + j);
  }

  /** JavaScript's `parts.join(sep)`. */
  function Join(sep: string, parts: seq<string>): string
  {
    if |parts| == 0 then ""
    else if |parts| == 1 then parts[0]
    else parts[0] + sep + Join(sep, parts[1..])
  }

  /** Every part can be found in the joined string. */
  lemma {:induction false} JoinContainsPart(sep: string, parts: seq<string>, k: nat)
    requires k < |parts|
    ensures Contains(Join(sep, parts), parts[k])
  {
    if |parts| == 1 {
      ContainsSelf(parts[0]);
      assert Join(sep, parts) == parts[0] + [] + [];
    } else if k == 0 {
      ContainsSelf(parts[0]);
      ContainsExtend([], parts[0], sep + Join(sep, parts[1..]), parts[0]);
      assert [] + parts[0] + (sep + Join(sep, parts[1..])) == Join(sep, parts);
    } else {
      JoinContainsPart(sep, parts[1..], k - 1);
      ContainsExtend(parts[0] + sep, Join(sep, parts[1..]), [], parts[k]);
      assert (parts[0] + sep) + Join(sep, parts[1..]) + [] == Join(sep, parts);
    }
  }

  predicate IsDigit(c: char) {
    '0' <= c <= '9'
  }

  predicate AllDigits(s: string) {
    forall i :: 0 <= i < |s| ==> IsDigit(s[i])
  }

  function DigitChar(d: nat): (c: char)
    requires d < 10
    ensures IsDigit(c)
  {
    ('0' as int + d) as char
  }

  /** The decimal rendering of `n`, as JavaScript renders a count in a template literal. */
  function NatToString(n: nat): (r: string)
    ensures |r| >= 1 && AllDigits(r)
  {
    if n < 10 then [DigitChar(n)] else NatToString(n / 10) + [DigitChar(n % 10)]
  }

  /** The value of a string of decimal digits. */
  function ParseDigits(s: string): nat
    requires AllDigits(s)
  {
    if s == [] then 0 else ParseDigits(s[..|s| - 1]) * 10 + (s[|s| - 1] as int - '0' as int)
  }

  /** Reading the decimal rendering back gives the number: the rendering loses nothing. */
  lemma {:induction false} ParseNatToString(n: nat)
    ensures ParseDigits(NatToString(n)) == n
  {
    if n >= 10 {
      var r := NatToString(n);
      assert r[..|r| - 1] == NatToString(n / 10);
      ParseNatToString(n / 10);
    }
  }

  /** Distinct numbers have distinct renderings. */
  lemma NatToStringInjective(m: nat, n: nat)
    requires NatToString(m) == NatToString(n)
    ensures m == n
  {
    ParseNatToString(m);
    ParseNatToString(n);
  }

  /** JavaScript's `toLowerCase` on one character, for the ASCII letters. */
  function LowerChar(c: char): char {
    if 'A' <= c <= 'Z' then (c as int + 32) as char else c
  }

  /** `s.toLowerCase()`, applied character by character. */
  function Lower(s: string): (r: string)
    ensures |r| == |s|
  {
    seq(|s|, i requires 0 <= i < |s| => LowerChar(s[i]))
  }
}

/** Values that cross the boundary of a request handler or a foreign call. */
module Common {

  datatype Option<T> = None | Some(value: T)

  /** A value thrown by JavaScript code: an `Error` object carrying its message, or anything else. */
  datatype Thrown = ErrorObject(message: string) | NonError

  /** `err.message || err.toString()` for an error with a message; other values' renderings
      are not modelled. */
  function ErrorDetails(e: Thrown): Option<string> {
    if e.ErrorObject? && e.message != "" then Some(e.message) else None
  }

  /** A JSON value as it arrives in a request body; `Absent` is a property that is not
      there (`undefined`). Numbers are modelled as integers. */
  datatype Field = Absent | Null | Bool(b: bool) | Num(n: int) | Str(s: string) | Arr(items: seq<Field>) | Obj

  /** JavaScript truthiness of a request value. */
  predicate Truthy(f: Field) {
    match f
    case Absent => false
    case Null => false
    case Bool(b) => b
    case Num(n) => n != 0
    case Str(s) => s != ""
    case Arr(_) => true
    case Obj => true
  }

  /** Who wrote a chat message. */
  datatype Sender = User | Bot

  /** The sender as it is spelled in stored and transmitted messages. */
  function SenderName(s: Sender): string {
    match s
    case User => "user"
    case Bot => "bot"
  }

  /** JavaScript's `a || b` where `a` is an optional string: an absent or empty `a` gives `b`. */
  function OrElse(a: Option<string>, b: string): (r: string)
    ensures a.Some? && a.value != "" ==> r == a.value
    ensures (a.None? || a.value == "") ==> r == b
  {
    if a.Some? && a.value != "" then a.value else b
  }

  /** A message of the conversation history as the chat routes receive it. */
  datatype ChatMessage = ChatMessage(sender: string, text: string)

  /** A LangChain chat message: a human turn or an AI turn. */
  datatype LcMessage = Human(content: string) | AI(content: string)

  /** `convertToLangChainMessages`: a message whose sender is "user" becomes a human turn,
      every other message an AI turn. */
  function ToLangChain(history: seq<ChatMessage>): (r: seq<LcMessage>)
    ensures |r| == |history|
    ensures forall k :: 0 <= k < |r| ==> r[k].content == history[k].text && (r[k].Human? <==> history[k].sender == "user")
  {
    if history == [] then []
    else
      var m := history[0];
      [if m.sender == "user" then Human(m.text) else AI(m.text)] + ToLangChain(history[1..])
  }

  /** The cross mark and the opening of the bold label that every failure reply starts with. */
  const FailureMark: string := "\U{274C} **"

  /** The reply both adapters give for a failure they do not recognise. */
  const GenericFailureReply: string :=
    FailureMark + "Error**" + ": Something went wrong while processing your request. Please try again later."
}
