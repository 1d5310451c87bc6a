/**
 * getBusinessStatus: find the first `H:MM-H:MM` in an opening-hours text and
 * place the current time of day against that window. The current time is a
 * parameter.
 */
module BusinessHours {
  import opened Wrappers
  import opened JsValues
  import opened Digits

  /** The four labels, each with the text shown to the user. */
  datatype Status = HoursUnknown | Open | ClosingSoon | Closed {
    /** One of the four texts getBusinessStatus returns. */
    function Label(): (s: string)
      ensures s in {"营业时间未知", "营业中", "即将打烊", "已打烊"}
    {
      match this
      case HoursUnknown => "营业时间未知"
      case Open => "营业中"
      case ClosingSoon => "即将打烊"
      case Closed => "已打烊"
    }
  }

  /** Distinct statuses show distinct texts, so the text identifies the status. */
  lemma LabelIdentifiesStatus(a: Status, b: Status)
    ensures a.Label() == b.Label() <==> a == b
  {
  }

  /** The hour and minute that `new Date()` reports. */
  datatype TimeOfDay = TimeOfDay(hour: int, minute: int)

  /** The four captured numbers of a match, as `parseInt` reads them. */
  datatype Window = Window(openHour: nat, openMinute: nat, closeHour: nat, closeMinute: nat) {
    function Opening(): int { openHour * 60 + openMinute }
    function Closing(): int { closeHour * 60 + closeMinute }
  }

  function MinuteOfDay(t: TimeOfDay): int {
    t.hour * 60 + t.minute
  }

  /**
   * `(\d{1,2}):(\d{2})-(\d{1,2}):(\d{2})` matches at offset i with h1 digits
   * in the opening hour and h2 in the closing hour. The match is
   * h1 + h2 + 7 characters long.
   */
  predicate Shape(s: string, i: nat, h1: nat, h2: nat) {
    && 1 <= h1 <= 2 && 1 <= h2 <= 2
    && i + h1 + h2 + 7 <= |s|
    && AllDigits(s[i..i + h1])
    && s[i + h1] == ':'
    && AllDigits(s[i + h1 + 1..i + h1 + 3])
    && s[i + h1 + 3] == '-'
    && AllDigits(s[i + h1 + 4..i + h1 + 4 + h2])
    && s[i + h1 + 4 + h2] == ':'
    && AllDigits(s[i + h1 + 5 + h2..i + h1 + 7 + h2])
  }

  /** The four capture groups of a match, converted with `parseInt`. */
  function Captures(s: string, i: nat, h1: nat, h2: nat): Window
    requires Shape(s, i, h1, h2)
  {
    Window(Value(s[i..i + h1]), Value(s[i + h1 + 1..i + h1 + 3]),
           Value(s[i + h1 + 4..i + h1 + 4 + h2]), Value(s[i + h1 + 5 + h2..i + h1 + 7 + h2]))
  }

  /** At one offset at most one choice of hour widths fits: a digit is never a colon. */
  lemma ShapeUnique(s: string, i: nat, h1: nat, h2: nat, g1: nat, g2: nat)
    requires Shape(s, i, h1, h2) && Shape(s, i, g1, g2)
    ensures h1 == g1 && h2 == g2
  {
  }

  /**
   * The pattern tried at offset i, the greedy `\d{1,2}` taking two digits
   * before one.
   */
  function MatchAt(s: string, i: nat): Option<Window> {
    if Shape(s, i, 2, 2) then Some(Captures(s, i, 2, 2))
    else if Shape(s, i, 2, 1) then Some(Captures(s, i, 2, 1))
    else if Shape(s, i, 1, 2) then Some(Captures(s, i, 1, 2))
    else if Shape(s, i, 1, 1) then Some(Captures(s, i, 1, 1))
    else None
  }

  /** MatchAt yields the captures of the one shape that fits at i, and nothing when none fits. */
  lemma MatchAtFits(s: string, i: nat)
    ensures MatchAt(s, i).Some? ==> exists h1, h2 :: Shape(s, i, h1, h2)
    ensures forall h1, h2 :: Shape(s, i, h1, h2) ==> MatchAt(s, i) == Some(Captures(s, i, h1, h2))
  {
  }

  /** The first offset from i on where the pattern matches, and its captures. */
  function FindFrom(s: string, i: nat): Option<Window>
    requires i <= |s|
    decreases |s| - i
  {
    if MatchAt(s, i).Some? then MatchAt(s, i)
    else if i == |s| then None
    else FindFrom(s, i + 1)
  }

  /** FindFrom is the leftmost match: none exactly when no offset matches, else the first one. */
  lemma {:induction false} FindFromLeftmost(s: string, i: nat)
    requires i <= |s|
    ensures FindFrom(s, i).None? <==> forall j :: i <= j <= |s| ==> MatchAt(s, j).None?
    ensures FindFrom(s, i).Some? ==>
      exists j :: i <= j <= |s| && FindFrom(s, i) == MatchAt(s, j) && forall k :: i <= k < j ==> MatchAt(s, k).None?
    decreases |s| - i
  {
    if MatchAt(s, i).None? && i < |s| {
      FindFromLeftmost(s, i + 1);
      if FindFrom(s, i).Some? {
        var j :| i + 1 <= j <= |s| && FindFrom(s, i + 1) == MatchAt(s, j)
                 && forall k :: i + 1 <= k < j ==> MatchAt(s, k).None?;
        assert forall k :: i <= k < j ==> MatchAt(s, k).None?;
      }
    }
  }

  /** `opentime.match(...)`: the leftmost match in the whole text. */
  function FindWindow(s: string): (r: Option<Window>)
    ensures r.None? <==> forall j :: 0 <= j <= |s| ==> MatchAt(s, j).None?
    ensures r.Some? ==> exists j :: 0 <= j <= |s| && r == MatchAt(s, j) && forall k :: 0 <= k < j ==> MatchAt(s, k).None?
  {
    FindFromLeftmost(s, 0);
    FindFrom(s, 0)
  }

  /** Where the current minute lies against a window. */
  function WindowStatus(w: Window, now: TimeOfDay): (r: Status)
    ensures r != HoursUnknown
    ensures r == Open <==> w.Opening() <= MinuteOfDay(now) < w.Closing() - 60
    ensures r == ClosingSoon <==> w.Closing() - 60 <= MinuteOfDay(now) < w.Closing() && w.Opening() <= MinuteOfDay(now)
    ensures r == Closed <==> MinuteOfDay(now) < w.Opening() || w.Closing() <= MinuteOfDay(now)
  {
    var current := MinuteOfDay(now);
    if current >= w.Opening() && current < w.Closing() then
      if current >= w.Closing() - 60 then ClosingSoon else Open
    else Closed
  }

  /** getBusinessStatus(opentime) at the time `now`. */
  function GetBusinessStatus(opentime: Option<string>, now: TimeOfDay): (r: Status)
    ensures r == HoursUnknown <==> !Truthy(opentime) || FindWindow(opentime.value).None?
    ensures r != HoursUnknown ==> r == WindowStatus(FindWindow(opentime.value).value, now)
  {
    if !Truthy(opentime) then HoursUnknown
    else
      match FindWindow(opentime.value)
      case None => HoursUnknown
      case Some(w) => WindowStatus(w, now)
  }

  /**
   * A window whose closing time is not after its opening time (one running
   * past midnight, say "22:00-02:00") reads as closed at every time of day.
   */
  lemma OvernightAlwaysClosed(w: Window, now: TimeOfDay)
    requires w.Closing() <= w.Opening()
    ensures WindowStatus(w, now) == Closed
  {
  }

  /** Absent text, an empty text, and a text with no window all read as unknown. */
  lemma UnknownWithoutWindow(now: TimeOfDay)
    ensures GetBusinessStatus(None, now) == HoursUnknown
    ensures GetBusinessStatus(Some(""), now) == HoursUnknown
    ensures GetBusinessStatus(Some("garbage"), now) == HoursUnknown
  {
  }

  /** Examples: "10:00-22:00" read at three times of day. */
  lemma {:induction false} TenToTen()
    ensures GetBusinessStatus(Some("10:00-22:00"), TimeOfDay(10, 30)) == Open
    ensures GetBusinessStatus(Some("10:00-22:00"), TimeOfDay(21, 30)) == ClosingSoon
    ensures GetBusinessStatus(Some("10:00-22:00"), TimeOfDay(23, 0)) == Closed
  {
    var s := "10:00-22:00";
    assert Shape(s, 0, 2, 2) by {
      assert s[0..2] == "10" && s[3..5] == "00" && s[6..8] == "22" && s[9..11] == "00";
    }
    ValueShort(s[0..2]);
    ValueShort(s[3..5]);
    ValueShort(s[6..8]);
    ValueShort(s[9..11]);
    assert FindWindow(s) == Some(Window(10, 0, 22, 0));
  }

  /** With two windows in the text the first one decides: 08:45 is near the end of 07:30-09:00. */
  lemma {:induction false} FirstWindowDecides()
    ensures GetBusinessStatus(Some("am 07:30-09:00 pm 17:00-22:00"), TimeOfDay(8, 45)) == ClosingSoon
  {
    var s := "am 07:30-09:00 pm 17:00-22:00";
    FirstWindowOfTwo(s);
    assert WindowStatus(Window(7, 30, 9, 0), TimeOfDay(8, 45)) == ClosingSoon;
  }

  lemma {:induction false} FirstWindowOfTwo(s: string)
    requires s == "am 07:30-09:00 pm 17:00-22:00"
    ensures FindWindow(s) == Some(Window(7, 30, 9, 0))
  {
    TwoWindowsText(s);
    NoMatchAtLetter(s, 0);
    NoMatchAtLetter(s, 1);
    NoMatchAtLetter(s, 2);
    assert Shape(s, 3, 2, 2);
    ValueShort(s[3..5]);
    ValueShort(s[6..8]);
    ValueShort(s[9..11]);
    ValueShort(s[12..14]);
    assert MatchAt(s, 3) == Some(Window(7, 30, 9, 0));
    assert FindFrom(s, 2) == FindFrom(s, 3);
    assert FindFrom(s, 1) == FindFrom(s, 2);
    assert FindFrom(s, 0) == FindFrom(s, 1);
  }

  lemma TwoWindowsText(s: string)
    requires s == "am 07:30-09:00 pm 17:00-22:00"
    ensures |s| == 29 && s[0] == 'a' && s[1] == 'm' && s[2] == ' '
    ensures s[3..5] == "07" && s[5] == ':' && s[6..8] == "30" && s[8] == '-'
    ensures s[9..11] == "09" && s[11] == ':' && s[12..14] == "00"
  {
    assert s[3] == '0' && s[4] == '7' && s[6] == '3' && s[7] == '0';
    assert s[9] == '0' && s[10] == '9' && s[12] == '0' && s[13] == '0';
  }

  /** No match starts at a character that is not a digit. */
  lemma NoMatchAtLetter(s: string, i: nat)
    requires i < |s| && !IsDigit(s[i])
    ensures MatchAt(s, i).None?
  {
  }
}
