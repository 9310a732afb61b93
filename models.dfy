/**
 * The parts of tracking/models.py with behaviour: the `Visitor` record and the
 * constraints its table enforces, `_time_on_site`, `VisitorManager.active`,
 * and the fixed table of UI event codes.
 * Times are whole seconds since an arbitrary epoch.
 */
module Models {
  import opened Wrappers
  import opened Text

  /**
   * A `Visitor` row. `pk` is `None` until the row is first saved; `user` is the
   * id of the logged-in user, `None` for an anonymous visitor.
   */
  datatype Visitor = Visitor(
    pk: Option<nat>,
    sessionKey: string,
    ipAddress: string,
    user: Option<nat>,
    userAgent: string,
    referrer: string,
    url: string,
    pageViews: nat,
    sessionStart: Option<int>,
    lastUpdate: Option<int>,
    tid: string)

  // The `max_length` of each character column.
  const SessionKeyMaxLength: nat := 40
  const IpAddressMaxLength: nat := 20
  const UserAgentMaxLength: nat := 255
  const ReferrerMaxLength: nat := 255
  const UrlMaxLength: nat := 255
  const TidMaxLength: nat := 50

  /** `Visitor(session_key=..., ip_address=..., tid=...)`: all other fields at their defaults. */
  function NewVisitor(sessionKey: string, ipAddress: string, tid: string): Visitor
  {
    Visitor(None, sessionKey, ipAddress, None, "", "", "", 0, None, None, tid)
  }

  /** The column constraints a row must meet to be stored: widths and NOT NULL. */
  predicate FitsSchema(v: Visitor)
  {
    && |v.sessionKey| <= SessionKeyMaxLength
    && |v.ipAddress| <= IpAddressMaxLength
    && |v.userAgent| <= UserAgentMaxLength
    && |v.referrer| <= ReferrerMaxLength
    && |v.url| <= UrlMaxLength
    && |v.tid| <= TidMaxLength
    && v.sessionStart.Some?
    && v.lastUpdate.Some?
  }

  /** `unique_together = ('session_key', 'ip_address')`. */
  ghost predicate UniqueTogether(vs: map<nat, Visitor>)
  {
    forall a, b ::
      (a in vs && b in vs && vs[a].sessionKey == vs[b].sessionKey && vs[a].ipAddress == vs[b].ipAddress)
      ==> a == b
  }

  /** Hours, minutes and seconds of a duration. */
  datatype Hms = Hms(hours: nat, minutes: nat, seconds: nat)

  /** `timedelta.seconds`: the seconds of a duration once whole days are taken out. */
  function DaySeconds(delta: int): (r: nat)
    ensures r < 86400
    ensures exists days :: delta == days * 86400 + r
  {
    var r := delta % 86400;
    assert delta == (delta / 86400) * 86400 + r;
    r
  }

  /** The integer arithmetic of `_time_on_site` (floor division, as in Python 2). */
  function Split(delta: int): (r: Hms)
    ensures r.hours < 24 && r.minutes < 60 && r.seconds < 60
    ensures r.hours * 3600 + r.minutes * 60 + r.seconds == DaySeconds(delta)
  {
    var seconds := DaySeconds(delta);
    var hours := seconds / 3600;
    var rest := seconds - hours * 3600;
    var minutes := rest / 60;
    Hms(hours, minutes, rest - minutes * 60)
  }

  /** `'%i:%02i:%02i' % (hours, minutes, seconds)`. */
  function FormatHms(h: Hms): string
    requires h.minutes < 60 && h.seconds < 60
  {
    Decimal(h.hours) + ":" + Pad2(h.minutes) + ":" + Pad2(h.seconds)
  }

  /** Reads `h:mm:ss` back: hours of any width, then two digits, then two digits. */
  function ParseHms(s: string): Option<Hms>
  {
    if |s| < 7 || s[|s| - 3] != ':' || s[|s| - 6] != ':' then None
    else
      var h := DecimalValue(s[..|s| - 6]);
      var m := DecimalValue(s[|s| - 5..|s| - 3]);
      var sec := DecimalValue(s[|s| - 2..]);
      if h.Some? && m.Some? && sec.Some? then Some(Hms(h.value, m.value, sec.value)) else None
  }

  /** The text `_time_on_site` shows reads back as the same hours, minutes and seconds. */
  lemma ParseFormatRoundTrip(h: Hms)
    requires h.minutes < 60 && h.seconds < 60
    ensures ParseHms(FormatHms(h)) == Some(h)
  {
    var d := Decimal(h.hours);
    var s := FormatHms(h);
    DecimalRoundTrip(h.hours);
    assert s[..|s| - 6] == d;
    assert s[|s| - 5..|s| - 3] == Pad2(h.minutes);
    assert s[|s| - 2..] == Pad2(h.seconds);
  }

  /**
   * A text that reads as `h:mm:ss` within range, with no leading zero in the
   * hours, is exactly the `'%i:%02i:%02i'` text of its components.
   */
  lemma HmsTextIsFormatted(s: string)
    requires ParseHms(s).Some? && NoLeadingZero(s[..|s| - 6])
    requires ParseHms(s).value.minutes < 60 && ParseHms(s).value.seconds < 60
    ensures s == FormatHms(ParseHms(s).value)
  {
    var h := ParseHms(s).value;
    var hours, mm, ss := s[..|s| - 6], s[|s| - 5..|s| - 3], s[|s| - 2..];
    CanonicalDecimal(hours);
    TwoDigits(mm);
    TwoDigits(ss);
    assert s == hours + [':'] + mm + [':'] + ss;
  }

  /** What `_time_on_site` returns or raises. */
  datatype Shown = Shown(text: string) | TypeError

  /**
   * `Visitor._time_on_site`: "unknown" without a session start; otherwise the
   * seconds part of `last_update - session_start` as `h:mm:ss`, which needs
   * `last_update` (`None - datetime` raises `TypeError`).
   */
  function TimeOnSite(v: Visitor): (r: Shown)
    ensures v.sessionStart.None? ==> r == Shown("unknown")
    ensures v.sessionStart.Some? && v.lastUpdate.None? ==> r == TypeError
    ensures v.sessionStart.Some? && v.lastUpdate.Some? ==>
      && r.Shown?
      && ParseHms(r.text).Some?
      && var h := ParseHms(r.text).value;
      && h.hours < 24 && h.minutes < 60 && h.seconds < 60
      && h.hours * 3600 + h.minutes * 60 + h.seconds
         == DaySeconds(v.lastUpdate.value - v.sessionStart.value)
      && NoLeadingZero(r.text[..|r.text| - 6])
  {
    if v.sessionStart.None? then Shown("unknown")
    else if v.lastUpdate.None? then TypeError
    else
      var h := Split(v.lastUpdate.value - v.sessionStart.value);
      ParseFormatRoundTrip(h);
      var text := FormatHms(h);
      assert text[..|text| - 6] == Decimal(h.hours);
      Shown(text)
  }

  /** `timeout or utils.get_timeout()`: `None` and `0` both fall back to the default. */
  function EffectiveTimeout(timeout: Option<int>, defaultTimeout: int): int
  {
    if timeout.None? || timeout.value == 0 then defaultTimeout else timeout.value
  }

  /** Seen at or after `cutoff` (`last_update__gte`; a NULL `last_update` never matches). */
  predicate SeenSince(v: Visitor, cutoff: int)
  {
    v.lastUpdate.Some? && v.lastUpdate.value >= cutoff
  }

  /** `VisitorManager.active(timeout)`: the visitors seen within the last `timeout` minutes. */
  function Active(vs: map<nat, Visitor>, timeout: Option<int>, defaultTimeout: int, now: int)
    : (r: map<nat, Visitor>)
    ensures forall id :: id in r <==>
      id in vs && SeenSince(vs[id], now - EffectiveTimeout(timeout, defaultTimeout) * 60)
    ensures forall id :: id in r ==> r[id] == vs[id]
  {
    var cutoff := now - EffectiveTimeout(timeout, defaultTimeout) * 60;
    map id | id in vs && SeenSince(vs[id], cutoff) :: vs[id]
  }

  /** `TrackingEvent.EVENT_CHOICES`: the UI event codes and their labels. */
  const EventChoices: seq<(string, string)> := [
    ("click", "Click"),
    ("hover", "Hover"),
    ("scroll", "Scroll"),
    ("focus", "Focus"),
    ("submit", "Submit"),
    ("change", "Change")
  ]
}
