/**
 * The server's pure notification helpers: the countdown text written to the database and
 * shown in pushes (`formatCountdown`), and the push title and body chosen for a status.
 */
module Notify {
  import opened Common

  // ---------------------------------------------------------------- decimal text

  predicate IsDigit(c: char) { '0' <= c <= '9' }

  predicate AllDigits(s: string) { forall i :: 0 <= i < |s| ==> IsDigit(s[i]) }

  function DigitChar(d: nat): (c: char)
    requires d < 10
    ensures IsDigit(c) && (c as int) - ('0' as int) == d
  {
    (('0' as int) + d) as char
  }

  /** The decimal text a template literal prints for a non-negative integer. */
  function Decimal(n: nat): (s: string)
    ensures |s| >= 1 && AllDigits(s)
    decreases n
  {
    if n < 10 then [DigitChar(n)] else Decimal(n / 10) + [DigitChar(n % 10)]
  }

  /** The number a run of decimal digits denotes. */
  function DigitsValue(s: string): nat
    requires AllDigits(s)
    decreases |s|
  {
    if s == [] then 0
    else DigitsValue(s[..|s| - 1]) * 10 + ((s[|s| - 1] as int) - ('0' as int))
  }

  lemma {:induction false} DecimalRoundTrip(n: nat)
    ensures DigitsValue(Decimal(n)) == n
    decreases n
  {
    if n >= 10 {
      DecimalRoundTrip(n / 10);
      var s := Decimal(n);
      assert s[..|s| - 1] == Decimal(n / 10);
    }
  }

  /** Length of the longest all-digit prefix of `t`. */
  function LeadingDigits(t: string): (i: nat)
    ensures i <= |t| && AllDigits(t[..i])
    ensures i < |t| ==> !IsDigit(t[i])
    decreases |t|
  {
    if t != [] && IsDigit(t[0]) then
      var i := 1 + LeadingDigits(t[1..]);
      assert t[..i] == [t[0]] + t[1..][..i - 1];
      i
    else 0
  }

  /** A digit prefix that stops at a non-digit (or at the end) is the longest one. */
  lemma {:induction false} LeadingDigitsAt(t: string, n: nat)
    requires n <= |t| && AllDigits(t[..n])
    requires n < |t| ==> !IsDigit(t[n])
    ensures LeadingDigits(t) == n
    decreases n
  {
    if n > 0 {
      assert t[..n][0] == t[0];
      assert t[1..][..n - 1] == t[..n][1..];
      LeadingDigitsAt(t[1..], n - 1);
    }
  }

  // ---------------------------------------------------------------- formatCountdown

  const MinutesWord: string := " phút "
  const SecondsWord: string := " giây"

  /** The text for a countdown split into minutes and seconds; the minutes part only when positive. */
  function Render(minutes: nat, seconds: nat): string {
    if minutes > 0 then Decimal(minutes) + MinutesWord + Decimal(seconds) + SecondsWord
    else Decimal(seconds) + SecondsWord
  }

  /** Reads back "S giây". */
  function ParseSeconds(u: string): Option<nat> {
    var j := LeadingDigits(u);
    if j > 0 && u[j..] == SecondsWord then Some(DigitsValue(u[..j])) else None
  }

  /** The leading digits of `t` are followed by the minutes word. */
  predicate HasMinutesPart(t: string) {
    var i := LeadingDigits(t);
    |t| - i >= |MinutesWord| && t[i..i + |MinutesWord|] == MinutesWord
  }

  /** Reads back a countdown text: "M phút S giây" or "S giây". */
  function ParseCountdown(t: string): Option<(nat, nat)> {
    var i := LeadingDigits(t);
    if i == 0 then None
    else if t[i..] == SecondsWord then Some((0, DigitsValue(t[..i])))
    else if HasMinutesPart(t) then
      match ParseSeconds(t[i + |MinutesWord|..])
      case Some(seconds) => Some((DigitsValue(t[..i]), seconds))
      case None => None
    else None
  }

  /** Every rendered countdown reads back as the minutes and seconds it was made from. */
  lemma {:induction false} ParseRender(minutes: nat, seconds: nat)
    ensures ParseCountdown(Render(minutes, seconds)) == Some((minutes, seconds))
    ensures HasMinutesPart(Render(minutes, seconds)) <==> minutes > 0
  {
    DecimalRoundTrip(seconds);
    if minutes > 0 {
      DecimalRoundTrip(minutes);
      ParseWithMinutes(Decimal(minutes), Decimal(seconds));
    } else {
      DigitsThenWord(Decimal(seconds), SecondsWord);
      assert |Render(minutes, seconds)| - |Decimal(seconds)| < |MinutesWord|;
    }
  }

  /** Digits followed by a word that starts with a space: the digits are the leading run. */
  lemma DigitsThenWord(d: string, word: string)
    requires |d| > 0 && AllDigits(d) && |word| > 0 && word[0] == ' '
    ensures LeadingDigits(d + word) == |d|
    ensures (d + word)[..|d|] == d && (d + word)[|d|..] == word
  {
    var t := d + word;
    assert t[..|d|] == d;
    LeadingDigitsAt(t, |d|);
    assert t[|d|..] == word;
  }

  /** Digits, the minutes word and a rest: the text has a minutes part and splits back at it. */
  lemma MinutesPartAt(dm: string, rest: string)
    requires |dm| > 0 && AllDigits(dm)
    ensures var t := dm + MinutesWord + rest;
      && LeadingDigits(t) == |dm| && t[..|dm|] == dm
      && t[|dm|..] != SecondsWord
      && HasMinutesPart(t)
      && t[|dm| + |MinutesWord|..] == rest
  {
    var tail := MinutesWord + rest;
    var t := dm + tail;
    assert dm + MinutesWord + rest == t;
    DigitsThenWord(dm, tail);
    var i := |dm|;
    assert t[i..] != SecondsWord by {
      assert t[i..][1] == tail[1] != SecondsWord[1];
    }
    assert t[i..i + |MinutesWord|] == MinutesWord by {
      assert t[i..i + |MinutesWord|] == tail[..|MinutesWord|];
    }
    assert t[i + |MinutesWord|..] == rest;
  }

  lemma ParseWithMinutes(dm: string, ds: string)
    requires |dm| > 0 && AllDigits(dm) && |ds| > 0 && AllDigits(ds)
    ensures ParseCountdown(dm + MinutesWord + ds + SecondsWord) == Some((DigitsValue(dm), DigitsValue(ds)))
    ensures HasMinutesPart(dm + MinutesWord + ds + SecondsWord)
  {
    var rest := ds + SecondsWord;
    var t := dm + MinutesWord + rest;
    assert t == dm + MinutesWord + ds + SecondsWord;
    MinutesPartAt(dm, rest);
    DigitsThenWord(ds, SecondsWord);
    assert ParseSeconds(rest) == Some(DigitsValue(ds));
  }

  /**
   * `Math.floor(s / 60)` and `Math.round(s % 60)` for a non-negative countdown `s`: for such `s`
   * JavaScript's `%` is `s - 60 * floor(s / 60)`, and `Math.round` rounds halves up.
   */
  function CountdownFields(seconds: real): (r: (nat, nat))
    requires seconds >= 0.0
    ensures 60.0 * (r.0 as real) <= seconds < 60.0 * (r.0 as real + 1.0)
    ensures (r.1 as real) - 0.5 <= seconds - 60.0 * (r.0 as real) < (r.1 as real) + 0.5
    ensures r.1 <= 60
  {
    var minutes := (seconds / 60.0).Floor;
    var remainder := seconds - 60.0 * (minutes as real);
    (minutes, (remainder + 0.5).Floor)
  }

  /**
   * `formatCountdown`: no text for a missing, NaN or negative countdown (`None` stands for
   * null, undefined and NaN); otherwise a text that reads back as its minutes and seconds.
   */
  function FormatCountdown(seconds: Option<real>): (r: Option<string>)
    ensures r.None? <==> seconds.None? || seconds.value < 0.0
    ensures r.Some? ==> ParseCountdown(r.value) == Some(CountdownFields(seconds.value))
    ensures r.Some? ==> (HasMinutesPart(r.value) <==> CountdownFields(seconds.value).0 > 0)
  {
    if seconds.None? || seconds.value < 0.0 then None
    else
      var fields := CountdownFields(seconds.value);
      ParseRender(fields.0, fields.1);
      Some(Render(fields.0, fields.1))
  }

  /** For whole seconds: `s / 60` minutes and `s % 60` seconds, with a minutes part iff s >= 60. */
  lemma {:induction false} WholeSecondsCountdown(s: nat)
    ensures FormatCountdown(Some(s as real)) ==
      Some(if s >= 60 then Decimal(s / 60) + MinutesWord + Decimal(s % 60) + SecondsWord
           else Decimal(s) + SecondsWord)
  {
    var q, r := s / 60, s % 60;
    assert (s as real) / 60.0 == (q as real) + (r as real) / 60.0;
    assert ((s as real) / 60.0).Floor == q;
    assert (s as real) - 60.0 * (q as real) == r as real;
    assert ((r as real) + 0.5).Floor == r;
    assert CountdownFields(s as real) == (q, r);
  }

  /** Rounding happens after the split, so the seconds part can read 60 (119.6 s is "1 phút 60 giây"). */
  lemma RoundedSecondsCanReachSixty()
    ensures CountdownFields(119.6) == (1, 60)
  {
    assert (119.6 / 60.0).Floor == 1;
    assert (59.6 + 0.5).Floor == 60;
  }

  // ---------------------------------------------------------------- titles and bodies

  const NormalTitle: string := "✅ Tình hình ổn định"
  const WarningTitle: string := "⚠️ Cảnh báo Lũ"
  const HighTitle: string := "🔶 Cảnh báo Lũ Cao"
  const DangerTitle: string := "🚨 BÁO ĐỘNG NGUY HIỂM"
  const FallbackTitle: string := "Cảnh báo: "

  /**
   * `getNotificationTitle`: a fixed title per known status, otherwise the status after a prefix.
   * The prefix marks exactly the unknown statuses, and the status can be read back after it.
   */
  function NotificationTitle(status: string): (title: string)
    ensures FallbackTitle <= title <==> !IsStatus(status)
    ensures !IsStatus(status) ==> title[|FallbackTitle|..] == status
  {
    var title :=
      if status == Normal then NormalTitle
      else if status == Warning then WarningTitle
      else if status == High then HighTitle
      else if status == Danger then DangerTitle
      else FallbackTitle + status;
    assert IsStatus(status) ==> title[0] != FallbackTitle[0];
    title
  }

  /** Different statuses never share a title, so a title identifies its status. */
  lemma TitleInjective(a: string, b: string)
    requires NotificationTitle(a) == NotificationTitle(b)
    ensures a == b
  {
    var ta := NotificationTitle(a);
    assert ta[0] == NormalTitle[0] <==> a == Normal;
    assert ta[0] == WarningTitle[0] <==> a == Warning;
    assert ta[0] == HighTitle[0] <==> a == High;
    assert ta[0] == DangerTitle[0] <==> a == Danger;
    assert ta[0] == NotificationTitle(b)[0];
    if !IsStatus(a) {
      assert a == ta[|FallbackTitle|..];
      assert b == NotificationTitle(b)[|FallbackTitle|..];
    }
  }

  // Each sentence is split at its first stop so that the verifier can read its first characters.
  const NormalMessage: string := "Tình hình lũ hiện tại ổn định." + " Tiếp tục theo dõi."
  const WarningMessage: string := "Mực nước đang tăng." + " Chuẩn bị sẵn sàng các biện pháp phòng ngừa."
  const HighMessage: string := "Mực nước đang tăng nhanh." + " Sẵn sàng sơ tán nếu cần thiết."
  const DangerMessage: string := "LŨ ĐANG Ở MỨC NGUY HIỂM!" + " CẦN SƠ TÁN NGAY LẬP TỨC!"
  const StatusPrefix: string := "Trạng thái: "

  /**
   * The opening sentence of a status push: a fixed sentence per known status, otherwise the
   * status after a prefix that marks exactly the unknown statuses.
   */
  function BaseMessage(status: string): (message: string)
    ensures StatusPrefix <= message <==> !IsStatus(status)
    ensures !IsStatus(status) ==> message[|StatusPrefix|..] == status
  {
    if status == Normal then
      assert NormalMessage[1] != StatusPrefix[1];
      NormalMessage
    else if status == Warning then
      assert WarningMessage[0] != StatusPrefix[0];
      WarningMessage
    else if status == High then
      assert HighMessage[0] != StatusPrefix[0];
      HighMessage
    else if status == Danger then
      assert DangerMessage[0] != StatusPrefix[0];
      DangerMessage
    else StatusPrefix + status
  }

  const CountdownLead: string := " Lũ dự kiến đến Điểm A sau khoảng "
  const EvacuateSuffix: string := " HÃY DI CHUYỂN ĐẾN NƠI AN TOÀN NGAY!"

  predicate EndsWith(s: string, suffix: string) {
    |suffix| <= |s| && s[|s| - |suffix|..] == suffix
  }

  /**
   * What `getNotificationBody` appends to the base message: the countdown sentence only when the
   * countdown formats (it is not negative) and the status is not normal, followed by the
   * evacuation call only when in addition the countdown is under 300 seconds.
   */
  function CountdownTail(status: string, countdown: real): (tail: string)
    ensures tail == [] <==> countdown < 0.0 || status == Normal
    ensures tail != [] ==> CountdownLead + FormatCountdown(Some(countdown)).value <= tail
    ensures EndsWith(tail, EvacuateSuffix) <==> 0.0 <= countdown < 300.0 && status != Normal
  {
    var formatted := FormatCountdown(Some(countdown));
    if formatted.Some? && status != Normal then
      var sentence := CountdownLead + formatted.value + ".";
      if countdown < 300.0 then sentence + EvacuateSuffix
      else
        assert sentence[|sentence| - 1] != EvacuateSuffix[|EvacuateSuffix| - 1];
        sentence
    else []
  }

  /** `getNotificationBody`: the base message for the status followed by the countdown tail. */
  function NotificationBody(status: string, countdown: real): (body: string)
    ensures BaseMessage(status) <= body
    ensures body[|BaseMessage(status)|..] == CountdownTail(status, countdown)
  {
    var base := BaseMessage(status);
    var body := base + CountdownTail(status, countdown);
    assert body[|base|..] == CountdownTail(status, countdown);
    body
  }
}
