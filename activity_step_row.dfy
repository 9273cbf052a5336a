/**
 * ActivityStepRow: the pure helpers behind a compact step row in the chat,
 * namely the icon and its colour for a (type, status) pair, and the elapsed
 * time written as "Ns" or "Mm Ss".
 */
module StepRow {
  import opened Optional
  import opened Activity

  /** The colour tags the row uses for its icon. */
  datatype Color = Purple | Green | Red | Blue

  function IconName(kind: StepType, status: Status): string
  {
    match kind
    case Thinking => "brain.head.profile"
    case ToolCall =>
      match status
      case Completed => "checkmark.circle"
      case Failed => "xmark.circle"
      case InProgress => "circle.dotted"
  }

  function IconColor(kind: StepType, status: Status): Color
  {
    match kind
    case Thinking => Purple
    case ToolCall =>
      match status
      case Completed => Green
      case Failed => Red
      case InProgress => Blue
  }

  /** A thinking step always shows the brain icon in purple, whatever its status. */
  lemma ThinkingIcon(status: Status)
    ensures IconName(Thinking, status) == "brain.head.profile"
    ensures IconColor(Thinking, status) == Purple
  {
  }

  /** A tool call shows its status: a check in green, a cross in red, a dotted circle in blue. */
  lemma ToolCallIcon()
    ensures IconName(ToolCall, Completed) == "checkmark.circle" && IconColor(ToolCall, Completed) == Green
    ensures IconName(ToolCall, Failed) == "xmark.circle" && IconColor(ToolCall, Failed) == Red
    ensures IconName(ToolCall, InProgress) == "circle.dotted" && IconColor(ToolCall, InProgress) == Blue
  {
  }

  /** The icon and the colour agree: the same icon always comes with the same colour. */
  lemma IconDeterminesColor(k1: StepType, s1: Status, k2: StepType, s2: Status)
    ensures IconName(k1, s1) == IconName(k2, s2) <==> IconColor(k1, s1) == IconColor(k2, s2)
  {
  }

  /** For a tool call, both the icon and the colour reveal the status. */
  lemma ToolCallIconRevealsStatus(s1: Status, s2: Status)
    ensures IconName(ToolCall, s1) == IconName(ToolCall, s2) ==> s1 == s2
    ensures IconColor(ToolCall, s1) == IconColor(ToolCall, s2) ==> s1 == s2
  {
  }

  // Decimal numerals, as Swift's string interpolation writes an Int.

  predicate IsDigit(c: char) {
    '0' <= c <= '9'
  }

  predicate AllDigits(s: string) {
    forall i :: 0 <= i < |s| ==> IsDigit(s[i])
  }

  function DigitChar(d: nat): (c: char)
    requires d < 10
    ensures IsDigit(c) && c as int - '0' as int == d
  {
    (d + '0' as int) as char
  }

  /** The decimal numeral of `n`, most significant digit first, no leading zeros. */
  function NatToString(n: nat): (s: string)
    ensures |s| >= 1 && AllDigits(s)
    ensures ParseDigits(s) == n
    ensures s[0] == '0' <==> n == 0
  {
    if n < 10 then [DigitChar(n)]
    else
      var s := NatToString(n / 10) + [DigitChar(n % 10)];
      assert s[..|s| - 1] == NatToString(n / 10);
      s
  }

  /** Swift's `"\(i)"` for an Int: a minus sign, then the digits. */
  function IntToString(i: int): string
  {
    if i < 0 then "-" + NatToString(-i) else NatToString(i)
  }

  /** The value of a string of decimal digits. */
  function ParseDigits(s: string): nat
    requires AllDigits(s)
  {
    if s == [] then 0 else ParseDigits(s[..|s| - 1]) * 10 + (s[|s| - 1] as int - '0' as int)
  }

  // formattedElapsed

  /** Whole minutes and the seconds left over, for a duration of a minute or more. */
  function MinutesAndSeconds(seconds: int): (p: (nat, nat))
    requires seconds >= 60
    ensures p.0 >= 1 && p.1 < 60
    ensures p.0 * 60 + p.1 == seconds
  {
    (seconds / 60, seconds % 60)
  }

  /** "Ns" under a minute (negative durations included), "Mm Ss" from a minute on. */
  function FormattedElapsed(seconds: int): string
  {
    if seconds < 60 then IntToString(seconds) + "s"
    else
      var p := MinutesAndSeconds(seconds);
      NatToString(p.0) + "m " + NatToString(p.1) + "s"
  }

  /** The row's elapsed text for `step` read at `now`. */
  function StepElapsedText(step: ActivityStep, now: int): string
  {
    FormattedElapsed(Elapsed(step, now))
  }

  /** The first position of `c` in `s`. */
  function FindChar(s: string, c: char): (r: Option<nat>)
    ensures r.Some? ==> r.value < |s| && s[r.value] == c && c !in s[..r.value]
    ensures r.None? <==> c !in s
  {
    if s == [] then None
    else if s[0] == c then Some(0)
    else match FindChar(s[1..], c)
      case None => None
      case Some(k) => Some(k + 1)
  }

  /** Reads back a duration written by FormattedElapsed. */
  function ParseElapsed(text: string): Option<int>
  {
    if text == [] || text[|text| - 1] != 's' then None else ParseBody(text[..|text| - 1])
  }

  /** The text before the closing "s": digits, a minus sign and digits, or minutes and seconds. */
  function ParseBody(body: string): Option<int>
  {
    if body != [] && AllDigits(body) then Some(ParseDigits(body) as int)
    else if |body| > 1 && body[0] == '-' && AllDigits(body[1..]) then Some(-(ParseDigits(body[1..]) as int))
    else match FindChar(body, 'm')
      case None => None
      case Some(k) => ParseMinuteParts(body[..k], body[k + 1..])
  }

  /** The minutes before the "m" and the " S" after it. */
  function ParseMinuteParts(minutes: string, rest: string): Option<int>
  {
    if minutes != [] && AllDigits(minutes) && |rest| > 1 && rest[0] == ' ' && AllDigits(rest[1..])
    then Some((ParseDigits(minutes) * 60 + ParseDigits(rest[1..])) as int)
    else None
  }

  lemma {:induction false} FindCharAfterDigits(digits: string, c: char, rest: string)
    requires AllDigits(digits) && !IsDigit(c)
    ensures FindChar(digits + [c] + rest, c) == Some(|digits|)
  {
    if digits != [] {
      assert (digits + [c] + rest)[1..] == digits[1..] + [c] + rest;
      FindCharAfterDigits(digits[1..], c, rest);
    }
  }

  lemma ParseClosing(body: string)
    ensures ParseElapsed(body + "s") == ParseBody(body)
  {
    assert (body + "s")[..|body|] == body;
  }

  lemma ParseNegative(d: string)
    requires d != [] && AllDigits(d)
    ensures ParseElapsed("-" + d + "s") == Some(-(ParseDigits(d) as int))
  {
    var body := "-" + d;
    ParseClosing(body);
    assert body[1..] == d;
    assert !IsDigit(body[0]);
  }

  lemma RoundTripNegative(seconds: int)
    requires seconds < 0
    ensures ParseElapsed(FormattedElapsed(seconds)) == Some(seconds)
  {
    var n: nat := -seconds;
    var d := NatToString(n);
    assert FormattedElapsed(seconds) == "-" + d + "s";
    ParseNegative(d);
  }

  lemma RoundTripUnderAMinute(seconds: int)
    requires 0 <= seconds < 60
    ensures ParseElapsed(FormattedElapsed(seconds)) == Some(seconds)
  {
    var text := FormattedElapsed(seconds);
    assert text[..|text| - 1] == NatToString(seconds);
  }

  lemma BodyMinutes(m: string, rest: string)
    requires m != [] && AllDigits(m)
    ensures ParseBody(m + ['m'] + rest) == ParseMinuteParts(m, rest)
  {
    var body := m + ['m'] + rest;
    assert body[|m|] == 'm';
    assert !AllDigits(body);
    assert body[0] == m[0];
    FindCharAfterDigits(m, 'm', rest);
    assert body[..|m|] == m;
    assert body[|m| + 1..] == rest;
  }

  lemma MinuteParts(m: string, s: string)
    requires m != [] && AllDigits(m) && s != [] && AllDigits(s)
    ensures ParseMinuteParts(m, " " + s) == Some((ParseDigits(m) * 60 + ParseDigits(s)) as int)
  {
    assert (" " + s)[1..] == s;
  }

  lemma MinutesTextShape(m: string, s: string)
    ensures m + "m " + s + "s" == (m + ['m'] + (" " + s)) + "s"
  {
  }

  lemma ParseMinutes(m: string, s: string)
    requires m != [] && AllDigits(m) && s != [] && AllDigits(s)
    ensures ParseElapsed(m + "m " + s + "s") == Some((ParseDigits(m) * 60 + ParseDigits(s)) as int)
  {
    MinutesTextShape(m, s);
    ParseClosing(m + ['m'] + (" " + s));
    BodyMinutes(m, " " + s);
    MinuteParts(m, s);
  }

  lemma RoundTripMinutes(seconds: int)
    requires seconds >= 60
    ensures ParseElapsed(FormattedElapsed(seconds)) == Some(seconds)
  {
    var p := MinutesAndSeconds(seconds);
    var m, s := NatToString(p.0), NatToString(p.1);
    assert FormattedElapsed(seconds) == m + "m " + s + "s";
    ParseMinutes(m, s);
  }

  /** The formatted text determines the duration: reading it back gives the input. */
  lemma FormattedElapsedRoundTrip(seconds: int)
    ensures ParseElapsed(FormattedElapsed(seconds)) == Some(seconds)
  {
    if seconds < 0 {
      RoundTripNegative(seconds);
    } else if seconds < 60 {
      RoundTripUnderAMinute(seconds);
    } else {
      RoundTripMinutes(seconds);
    }
  }

  /** Different durations never show the same text. */
  lemma FormattedElapsedInjective(a: int, b: int)
    requires FormattedElapsed(a) == FormattedElapsed(b)
    ensures a == b
  {
    FormattedElapsedRoundTrip(a);
    FormattedElapsedRoundTrip(b);
  }

  /** The "Mm Ss" form is used exactly from a minute on; shorter durations read "Ns". */
  lemma FormattedElapsedShape(seconds: int)
    ensures 'm' in FormattedElapsed(seconds) <==> seconds >= 60
    ensures seconds < 60 ==> FormattedElapsed(seconds) == IntToString(seconds) + "s"
  {
    var t := FormattedElapsed(seconds);
    if seconds < 60 {
      var d := NatToString(if seconds < 0 then -seconds else seconds);
      assert forall i :: 0 <= i < |d| ==> d[i] != 'm';
      assert forall i :: 0 <= i < |t| ==> t[i] != 'm' by {
        if seconds < 0 {
          assert t == "-" + d + "s";
          assert forall i :: 1 <= i < |t| - 1 ==> t[i] == d[i - 1];
        } else {
          assert t == d + "s";
          assert forall i :: 0 <= i < |t| - 1 ==> t[i] == d[i];
        }
      }
    } else {
      var p := MinutesAndSeconds(seconds);
      assert t[|NatToString(p.0)|] == 'm';
    }
  }

  /** A completed step's row shows the same elapsed text whenever it is drawn. */
  lemma CompletedRowTextStable(step: ActivityStep, now1: int, now2: int)
    requires step.completedAt.Some?
    ensures StepElapsedText(step, now1) == StepElapsedText(step, now2)
  {
  }
}
