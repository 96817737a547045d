/** The deterministic parts of functions/gpt.js: budget bucketing
    (`mapBudgetToRange`), the all-empty fallback of
    `extractPreferencesFromMessage`, and the history formatting and reply
    fallbacks of `processMessageWithGPT`. */
module Gpt {
  import opened Values
  import opened Llm

  // ---------------------------------------------------------------------------
  // mapBudgetToRange

  const UpTo30 := "Up to £30"
  const From30To60 := "£30-60"
  const From60To100 := "£60-100"
  const Over100 := "£100+"

  predicate IsDigit(c: char) { '0' <= c <= '9' }

  predicate AllDigits(s: string) { forall k :: 0 <= k < |s| ==> IsDigit(s[k]) }

  /** Length of the run of digits that starts at `i`. */
  function RunLen(s: string, i: nat): (n: nat)
    requires i <= |s|
    ensures i + n <= |s|
    ensures forall k :: i <= k < i + n ==> IsDigit(s[k])
    ensures i + n < |s| ==> !IsDigit(s[i + n])
    decreases |s| - i
  {
    if i < |s| && IsDigit(s[i]) then 1 + RunLen(s, i + 1) else 0
  }

  /** `parseInt(digits, 10)`. */
  function DecimalValue(digits: string): nat
    requires AllDigits(digits)
  {
    if digits == [] then 0
    else DecimalValue(digits[..|digits| - 1]) * 10 + (digits[|digits| - 1] - '0') as nat
  }

  /** The two groups of a match of `/(\d+)-(\d+)/`. */
  datatype RangeMatch = RangeMatch(lower: string, upper: string)

  /** The regular expression matches at `i`: greedy `\d+` cannot give back a
      digit and still be followed by `-`, so the first group is the whole run
      of digits at `i`, and the second is the whole run after the `-`. */
  function MatchAt(s: string, i: nat): (r: Option<RangeMatch>)
    requires i <= |s|
    ensures r.Some? <==>
      && RunLen(s, i) > 0 && i + RunLen(s, i) + 1 < |s|
      && s[i + RunLen(s, i)] == '-' && IsDigit(s[i + RunLen(s, i) + 1])
    ensures r.Some? ==> r.value.lower == s[i..i + RunLen(s, i)]
    ensures r.Some? ==> var j := i + RunLen(s, i) + 1; r.value.upper == s[j..j + RunLen(s, j)]
    ensures r.Some? ==> r.value.lower != [] && AllDigits(r.value.lower)
    ensures r.Some? ==> r.value.upper != [] && AllDigits(r.value.upper)
  {
    var j := i + RunLen(s, i);
    if j > i && j + 1 < |s| && s[j] == '-' && IsDigit(s[j + 1]) then
      Some(RangeMatch(s[i..j], s[j + 1..j + 1 + RunLen(s, j + 1)]))
    else None
  }

  /** `s.match(/(\d+)-(\d+)/)` searching from `i`: the leftmost match. */
  function FirstRange(s: string, i: nat): (r: Option<RangeMatch>)
    requires i <= |s|
    ensures r.Some? ==>
      exists p :: i <= p < |s| && MatchAt(s, p) == r && forall q :: i <= q < p ==> MatchAt(s, q).None?
    ensures r.None? ==> forall p :: i <= p <= |s| ==> MatchAt(s, p).None?
    decreases |s| - i
  {
    if i == |s| then None
    else if MatchAt(s, i).Some? then MatchAt(s, i)
    else FirstRange(s, i + 1)
  }

  /** `budgetInput.replace(/[^0-9.]/g, "")`: the digits and dots, in order. */
  function Stripped(s: string): (t: string)
    ensures forall k :: 0 <= k < |t| ==> (IsDigit(t[k]) || t[k] == '.') && t[k] in s
  {
    if s == [] then []
    else if IsDigit(s[0]) || s[0] == '.' then [s[0]] + Stripped(s[1..])
    else Stripped(s[1..])
  }

  lemma {:induction false} StrippedConcat(a: string, b: string)
    ensures Stripped(a + b) == Stripped(a) + Stripped(b)
  {
    if a != [] {
      assert (a + b)[0] == a[0];
      assert (a + b)[1..] == a[1..] + b;
      StrippedConcat(a[1..], b);
    } else {
      assert a + b == b;
    }
  }

  lemma {:induction false} StrippedKeepsDigits(d: string)
    requires AllDigits(d)
    ensures Stripped(d) == d
  {
    if d != [] {
      StrippedKeepsDigits(d[1..]);
    }
  }

  lemma {:induction false} StrippedDropsText(x: string)
    requires forall k :: 0 <= k < |x| ==> !IsDigit(x[k]) && x[k] != '.'
    ensures Stripped(x) == []
  {
    if x != [] {
      StrippedDropsText(x[1..]);
    }
  }

  /** A non-negative decimal number, kept exactly enough to compare it with an
      integer: its integer part and whether its fractional part is non-zero. */
  datatype Amount = Amount(whole: nat, fractional: bool)

  /** `parseFloat(t)` for a text of digits and dots: the longest prefix of the
      form `digits[.digits]`; `None` (NaN) when that prefix has no digit. */
  function ParseAmount(t: string): (r: Option<Amount>)
    ensures r.None? <==> RunLen(t, 0) == 0 && !(2 <= |t| && t[0] == '.' && IsDigit(t[1]))
    ensures r.Some? ==> r.value.whole == DecimalValue(t[..RunLen(t, 0)])
    ensures r.Some? && (RunLen(t, 0) == |t| || t[RunLen(t, 0)] != '.') ==> !r.value.fractional
  {
    var w := RunLen(t, 0);
    var frac := if w < |t| && t[w] == '.' then t[w + 1..w + 1 + RunLen(t, w + 1)] else [];
    if w == 0 && frac == [] then None
    else Some(Amount(DecimalValue(t[..w]), exists k :: 0 <= k < |frac| && frac[k] != '0'))
  }

  /** `value <= bound` for an integer bound. */
  predicate AtMost(a: Amount, bound: nat) {
    a.whole < bound || (a.whole == bound && !a.fractional)
  }

  /** The if-chain shared by both branches: buckets are closed at the top. */
  function Bucket(a: Amount): (name: string)
    ensures name in {UpTo30, From30To60, From60To100, Over100}
    ensures name == UpTo30 <==> AtMost(a, 30)
    ensures name == From30To60 <==> !AtMost(a, 30) && AtMost(a, 60)
    ensures name == From60To100 <==> !AtMost(a, 60) && AtMost(a, 100)
    ensures name == Over100 <==> !AtMost(a, 100)
  {
    if AtMost(a, 30) then UpTo30
    else if AtMost(a, 60) then From30To60
    else if AtMost(a, 100) then From60To100
    else Over100
  }

  /** `mapBudgetToRange(budgetInput)`: the first `digits-digits` range decides
      by its upper bound; otherwise the number left after stripping everything
      but digits and dots; `""` when there is none. */
  function MapBudgetToRange(s: string): (name: string)
    ensures name in {UpTo30, From30To60, From60To100, Over100, ""}
  {
    match FirstRange(s, 0)
    case Some(m) => Bucket(Amount(DecimalValue(m.upper), false))
    case None =>
      match ParseAmount(Stripped(s))
      case None => ""
      case Some(a) => Bucket(a)
  }

  /** An order on the labels, cheapest first. */
  function Rank(name: string): nat {
    if name == UpTo30 then 0
    else if name == From30To60 then 1
    else if name == From60To100 then 2
    else 3
  }

  /** A larger amount never lands in a cheaper bucket. */
  lemma BucketMonotone(a: Amount, b: Amount)
    requires a.whole < b.whole || (a.whole == b.whole && (!a.fractional || b.fractional))
    ensures Rank(Bucket(a)) <= Rank(Bucket(b))
  {
  }

  /** The boundaries are inclusive at the top: 30, 60 and 100 stay in the lower
      bucket, and anything above 100 is `"£100+"`. */
  lemma BucketBoundaries(n: nat)
    ensures Bucket(Amount(n, false)) == UpTo30 <==> n <= 30
    ensures Bucket(Amount(n, false)) == From30To60 <==> 31 <= n <= 60
    ensures Bucket(Amount(n, false)) == From60To100 <==> 61 <= n <= 100
    ensures Bucket(Amount(n, false)) == Over100 <==> n >= 101
  {
  }

  lemma RunLenOfDigits(s: string, i: nat)
    requires i <= |s| && AllDigits(s[i..])
    ensures RunLen(s, i) == |s| - i
    decreases |s| - i
  {
    if i < |s| {
      assert s[i] == s[i..][0];
      assert s[i + 1..] == s[i..][1..];
      RunLenOfDigits(s, i + 1);
    }
  }

  lemma RunLenPrefix(s: string, i: nat, j: nat)
    requires i <= j < |s| && AllDigits(s[i..j]) && !IsDigit(s[j])
    ensures RunLen(s, i) == j - i
    decreases j - i
  {
    if i < j {
      assert s[i] == s[i..j][0];
      assert s[i + 1..j] == s[i..j][1..];
      RunLenPrefix(s, i + 1, j);
    }
  }

  /** No match can start before `n`, so the search from 0 is the search from `n`. */
  lemma PrefixSkipped(s: string, n: nat)
    requires n <= |s| && forall p :: 0 <= p < n ==> MatchAt(s, p).None?
    ensures FirstRange(s, 0) == FirstRange(s, n)
  {
    var i := 0;
    while i < n
      invariant 0 <= i <= n
      invariant FirstRange(s, 0) == FirstRange(s, i)
    {
      i := i + 1;
    }
  }

  /** A run of digits, a dash, and a run of digits ending at `e`: a match at `i`. */
  lemma MatchAtRange(s: string, i: nat, j: nat, e: nat)
    requires i < j && j + 1 < e <= |s| && AllDigits(s[i..j]) && s[j] == '-' && AllDigits(s[j + 1..e])
    requires e == |s| || !IsDigit(s[e])
    ensures MatchAt(s, i) == Some(RangeMatch(s[i..j], s[j + 1..e]))
  {
    RunLenPrefix(s, i, j);
    if e == |s| {
      assert s[j + 1..] == s[j + 1..e];
      RunLenOfDigits(s, j + 1);
    } else {
      RunLenPrefix(s, j + 1, e);
    }
    assert IsDigit(s[j + 1]) by { assert s[j + 1] == s[j + 1..e][0]; }
  }

  /** After a text without digits, the range `lower-upper` is the first match,
      whatever follows it, as long as the upper bound is not cut short. */
  lemma {:induction false} RangeAfterText(prefix: string, lower: string, upper: string, suffix: string)
    requires forall k :: 0 <= k < |prefix| ==> !IsDigit(prefix[k])
    requires lower != [] && AllDigits(lower) && upper != [] && AllDigits(upper)
    requires suffix == [] || !IsDigit(suffix[0])
    ensures FirstRange(prefix + lower + "-" + upper + suffix, 0) == Some(RangeMatch(lower, upper))
  {
    var s := prefix + lower + "-" + upper + suffix;
    var i := |prefix|;
    var j := i + |lower|;
    var e := j + 1 + |upper|;
    assert s[i..j] == lower;
    assert s[j + 1..e] == upper;
    assert s[j] == '-';
    assert e < |s| ==> s[e] == suffix[0];
    MatchAtRange(s, i, j, e);
    forall p | 0 <= p < i ensures MatchAt(s, p).None? {
      assert s[p] == prefix[p];
    }
    PrefixSkipped(s, i);
  }

  /** After a text without digits, only the upper bound of the first range
      decides the bucket, whatever the lower bound and whatever follows,
      later ranges and numbers included. */
  lemma RangeUpperBoundDecides(prefix: string, lower: string, upper: string, suffix: string)
    requires forall k :: 0 <= k < |prefix| ==> !IsDigit(prefix[k])
    requires lower != [] && AllDigits(lower) && upper != [] && AllDigits(upper)
    requires suffix == [] || !IsDigit(suffix[0])
    ensures MapBudgetToRange(prefix + lower + "-" + upper + suffix) == Bucket(Amount(DecimalValue(upper), false))
  {
    RangeAfterText(prefix, lower, upper, suffix);
  }

  /** A range followed by text: its upper bound decides. */
  lemma RangeThenText()
    ensures MapBudgetToRange("30-60 quid") == From30To60
  {
    SmallValues();
    assert "30-60 quid" == "" + "30" + "-" + "60" + " quid";
    RangeUpperBoundDecides("", "30", "60", " quid");
  }

  /** Two ranges: the first one decides, the second is never looked at. */
  lemma TwoRanges()
    ensures MapBudgetToRange("10-20 or 70-80") == UpTo30
  {
    assert DecimalValue("20") == 20 by {
      assert "20"[..1] == "2" && "2"[..0] == "";
    }
    assert "10-20 or 70-80" == "" + "10" + "-" + "20" + " or 70-80";
    RangeUpperBoundDecides("", "10", "20", " or 70-80");
  }

  /** Without any `-`, no range is found. */
  lemma NoRangeWithoutDash(s: string, i: nat)
    requires i <= |s| && forall k :: 0 <= k < |s| ==> s[k] != '-'
    ensures FirstRange(s, i).None?
    decreases |s| - i
  {
    if i < |s| {
      NoRangeWithoutDash(s, i + 1);
    }
  }

  /** A whole number among text without digits, dots or dashes is read as that number. */
  lemma {:induction false} SingleAmountDecides(prefix: string, digits: string, suffix: string)
    requires forall k :: 0 <= k < |prefix| ==> !IsDigit(prefix[k]) && prefix[k] != '.' && prefix[k] != '-'
    requires forall k :: 0 <= k < |suffix| ==> !IsDigit(suffix[k]) && suffix[k] != '.' && suffix[k] != '-'
    requires digits != [] && AllDigits(digits)
    ensures MapBudgetToRange(prefix + digits + suffix) == Bucket(Amount(DecimalValue(digits), false))
  {
    var s := prefix + digits + suffix;
    NoDashInside(prefix, digits, suffix);
    NoRangeWithoutDash(s, 0);
    StrippedAround(prefix, digits, suffix);
    RunLenOfDigits(digits, 0);
    assert digits[..|digits|] == digits;
  }

  lemma NoDashInside(prefix: string, digits: string, suffix: string)
    requires forall k :: 0 <= k < |prefix| ==> prefix[k] != '-'
    requires forall k :: 0 <= k < |suffix| ==> suffix[k] != '-'
    requires AllDigits(digits)
    ensures forall k :: 0 <= k < |prefix + digits + suffix| ==> (prefix + digits + suffix)[k] != '-'
  {
    var s := prefix + digits + suffix;
    forall k | 0 <= k < |s| ensures s[k] != '-' {
      if k < |prefix| { assert s[k] == prefix[k]; }
      else if k < |prefix| + |digits| { assert s[k] == digits[k - |prefix|]; }
      else { assert s[k] == suffix[k - |prefix| - |digits|]; }
    }
  }

  lemma StrippedAround(prefix: string, digits: string, suffix: string)
    requires forall k :: 0 <= k < |prefix| ==> !IsDigit(prefix[k]) && prefix[k] != '.'
    requires forall k :: 0 <= k < |suffix| ==> !IsDigit(suffix[k]) && suffix[k] != '.'
    requires AllDigits(digits)
    ensures Stripped(prefix + digits + suffix) == digits
  {
    StrippedConcat(prefix + digits, suffix);
    StrippedConcat(prefix, digits);
    StrippedDropsText(prefix);
    StrippedKeepsDigits(digits);
    StrippedDropsText(suffix);
  }

  /** An input with no digit at all has neither a range nor a number: `""`. */
  lemma NoDigitsGivesEmpty(s: string)
    requires forall k :: 0 <= k < |s| ==> !IsDigit(s[k])
    ensures MapBudgetToRange(s) == ""
  {
    var t := Stripped(s);
    assert FirstRange(s, 0).None? by {
      forall p | 0 <= p <= |s| ensures MatchAt(s, p).None? {
        assert RunLen(s, p) == 0;
      }
      NoMatchNoRange(s, 0);
    }
    if 0 < |t| {
      assert t[0] == '.';
      assert RunLen(t, 0) == 0;
      assert 1 < |t| ==> t[1] == '.';
      assert RunLen(t, 1) == 0;
    }
  }

  lemma NoMatchNoRange(s: string, i: nat)
    requires i <= |s| && forall p :: i <= p <= |s| ==> MatchAt(s, p).None?
    ensures FirstRange(s, i).None?
    decreases |s| - i
  {
    if i < |s| {
      NoMatchNoRange(s, i + 1);
    }
  }

  lemma SmallValues()
    ensures DecimalValue("30") == 30 && DecimalValue("60") == 60
    ensures DecimalValue("100") == 100 && DecimalValue("101") == 101
  {
    assert "30"[..1] == "3" && "3"[..0] == "";
    assert "60"[..1] == "6";
    assert "100"[..2] == "10" && "10"[..1] == "1" && "1"[..0] == "";
    assert "101"[..2] == "10";
  }

  /** Three of the four labels map to themselves. */
  lemma LowestLabelIsFixed()
    ensures MapBudgetToRange(UpTo30) == UpTo30
  {
    SmallValues();
    assert UpTo30 == "Up to £" + "30" + "";
    SingleAmountDecides("Up to £", "30", "");
  }

  lemma SecondLabelIsFixed()
    ensures MapBudgetToRange(From30To60) == From30To60
  {
    SmallValues();
    var s := "£" + "30" + "-" + "60";
    assert s == From30To60;
    LabelRange("30", "60");
    assert MapBudgetToRange(s) == From30To60;
  }

  lemma ThirdLabelIsFixed()
    ensures MapBudgetToRange(From60To100) == From60To100
  {
    SmallValues();
    var s := "£" + "60" + "-" + "100";
    assert s == From60To100;
    LabelRange("60", "100");
    assert MapBudgetToRange(s) == From60To100;
  }

  /** The label `£lower-upper` is read as the range `lower-upper`. */
  lemma LabelRange(lower: string, upper: string)
    requires lower != [] && AllDigits(lower) && upper != [] && AllDigits(upper)
    ensures MapBudgetToRange("£" + lower + "-" + upper) == Bucket(Amount(DecimalValue(upper), false))
  {
    assert "£" + lower + "-" + upper + "" == "£" + lower + "-" + upper;
    RangeUpperBoundDecides("£", lower, upper, "");
  }

  /** `"£100+"` strips to 100, which is `"£60-100"`: the mapping is not
      idempotent on its own outputs. */
  lemma TopLabelIsNotFixed()
    ensures MapBudgetToRange(Over100) == From60To100
  {
    SmallValues();
    assert Over100 == "£" + "100" + "+";
    SingleAmountDecides("£", "100", "+");
  }

  /** A bare whole number is read as that number. */
  lemma BareNumber(digits: string)
    requires digits != [] && AllDigits(digits)
    ensures MapBudgetToRange(digits) == Bucket(Amount(DecimalValue(digits), false))
  {
    assert digits == "" + digits + "";
    SingleAmountDecides("", digits, "");
  }

  /** Bare numbers at the boundaries: 30 and 60 close their buckets ... */
  lemma LowerBoundaryExamples()
    ensures MapBudgetToRange("30") == UpTo30
    ensures MapBudgetToRange("60") == From30To60
  {
    SmallValues();
    BareNumber("30");
    BareNumber("60");
  }

  /** ... and so does 100, while 101 opens the top one. */
  lemma UpperBoundaryExamples()
    ensures MapBudgetToRange("100") == From60To100
    ensures MapBudgetToRange("101") == Over100
  {
    SmallValues();
    BareNumber("100");
    BareNumber("101");
  }

  // ---------------------------------------------------------------------------
  // extractPreferencesFromMessage

  /** The object returned when the reply is unusable. */
  const NoPreferences: Object :=
    map["gender" := Str(""), "music_preferences" := Arr([]), "budget" := Str(""), "vibe" := Arr([])]

  /** `extractPreferencesFromMessage`, with the model's reply and `JSON.parse`
      as parameters. */
  function ExtractPreferences(reply: LlmReply, parse: string -> Option<Object>): (prefs: Object)
    ensures reply.Threw? ==> prefs == NoPreferences
    ensures reply.Replied? && !Braced(Trim(reply.content)) ==> prefs == NoPreferences
    ensures reply.Replied? && Braced(Trim(reply.content)) && parse(Trim(reply.content)).None? ==> prefs == NoPreferences
    ensures reply.Replied? && Braced(Trim(reply.content)) && parse(Trim(reply.content)).Some? ==>
      prefs == parse(Trim(reply.content)).value
  {
    ParseOr(reply, parse, NoPreferences)
  }

  // ---------------------------------------------------------------------------
  // processMessageWithGPT

  /** A stored history message: its `sender` and `content` properties. */
  datatype HistoryItem = HistoryItem(sender: Option<Value>, content: Option<Value>)

  datatype ChatTurn = ChatTurn(role: string, content: Option<Value>)

  /** The messages given to the model: the history, each with role `"user"`
      exactly when its sender is `"user"` and `"assistant"` otherwise, then the
      new message as the user's. */
  function FormatHistory(history: seq<HistoryItem>, userMessage: string): (turns: seq<ChatTurn>)
    ensures |turns| == |history| + 1
    ensures forall i :: 0 <= i < |history| ==>
      && turns[i].content == history[i].content
      && turns[i].role in {"user", "assistant"}
      && (turns[i].role == "user" <==> history[i].sender == Some(Str("user")))
    ensures turns[|history|] == ChatTurn("user", Some(Str(userMessage)))
  {
    if history == [] then [ChatTurn("user", Some(Str(userMessage)))]
    else
      var h := history[0];
      [ChatTurn(if h.sender == Some(Str("user")) then "user" else "assistant", h.content)]
        + FormatHistory(history[1..], userMessage)
  }

  const CouldNotUnderstand := "Sorry, I couldn't understand your request. Could you rephrase it?"
  const ProcessingFailed := "An error occurred while processing your request. Please try again."

  /** `processMessageWithGPT`: the model's text, a fixed apology for an empty
      text, a fixed error message when the call throws. */
  function ProcessMessageWithGpt(history: seq<HistoryItem>, userMessage: string,
                                 model: seq<ChatTurn> -> LlmReply): (answer: string)
    ensures model(FormatHistory(history, userMessage)).Threw? ==> answer == ProcessingFailed
    ensures model(FormatHistory(history, userMessage)) == Replied("") ==> answer == CouldNotUnderstand
    ensures model(FormatHistory(history, userMessage)).Replied? && model(FormatHistory(history, userMessage)).content != "" ==>
      answer == model(FormatHistory(history, userMessage)).content
    ensures answer != "" && (answer == ProcessingFailed || answer == CouldNotUnderstand
                             || model(FormatHistory(history, userMessage)) == Replied(answer))
  {
    match model(FormatHistory(history, userMessage))
    case Threw => ProcessingFailed
    case Replied(content) => if content != "" then content else CouldNotUnderstand
  }
}
