/** `get_time_integer` of server/app/utils/time.py: a GTFS "H:M:S" clock
    time as a number of seconds. */
module TimeUtils {
  import opened Wrappers
  import opened Strings

  /** Splits at every ':'; anything but exactly three fields, or a field that
      is not an integer, is the ValueError Python raises. The hour is not
      capped, as GTFS lets a service day run past 24:00:00. */
  function GetTimeInteger(time: string): (r: Result<int>)
    ensures |Split(time, ':')| != 3 ==> r.Err?
    ensures r.Ok? <==>
      |Split(time, ':')| == 3 &&
      (forall i :: 0 <= i < 3 ==> ParseInt(Split(time, ':')[i]).Some?)
  {
    var parts := Split(time, ':');
    if |parts| != 3 then Err(ValueError(time))
    else
      var hours, minutes, seconds := ParseInt(parts[0]), ParseInt(parts[1]), ParseInt(parts[2]);
      if hours.None? || minutes.None? || seconds.None? then Err(ValueError(time))
      else Ok(hours.value * 3600 + minutes.value * 60 + seconds.value)
  }

  predicate IsField(s: string) {
    s != [] && AllDigits(s)
  }

  /** Three digit fields joined by ':' read back as 3600·H + 60·M + S. */
  lemma {:induction false} TimeOfFields(h: string, m: string, s: string)
    requires IsField(h) && IsField(m) && IsField(s)
    ensures GetTimeInteger(h + ":" + m + ":" + s)
      == Ok(3600 * DigitsValue(h) + 60 * DigitsValue(m) + DigitsValue(s))
  {
    var parts := [h, m, s];
    forall i | 0 <= i < 3 ensures ':' !in parts[i] {
      if ':' in parts[i] {
        var k :| 0 <= k < |parts[i]| && parts[i][k] == ':';
      }
    }
    assert parts[1..] == [m, s] && parts[1..][1..] == [s];
    assert Join(parts[1..], ':') == m + [':'] + s;
    assert Join(parts, ':') == h + ":" + m + ":" + s;
    SplitJoin(parts, ':');
  }

  /** A time with digit fields is never negative. */
  lemma {:induction false} TimeOfFieldsNonNegative(h: string, m: string, s: string)
    requires IsField(h) && IsField(m) && IsField(s)
    ensures GetTimeInteger(h + ":" + m + ":" + s).Ok?
    ensures GetTimeInteger(h + ":" + m + ":" + s).value >= 0
  {
    TimeOfFields(h, m, s);
  }

  /** With minutes and seconds below 60, two times that read as the same
      number of seconds have the same hours, minutes and seconds. */
  lemma {:induction false} TimeOfFieldsInjective(h: string, m: string, s: string, h': string, m': string, s': string)
    requires IsField(h) && IsField(m) && IsField(s)
    requires IsField(h') && IsField(m') && IsField(s')
    requires DigitsValue(m) < 60 && DigitsValue(s) < 60
    requires DigitsValue(m') < 60 && DigitsValue(s') < 60
    requires GetTimeInteger(h + ":" + m + ":" + s) == GetTimeInteger(h' + ":" + m' + ":" + s')
    ensures DigitsValue(h) == DigitsValue(h')
    ensures DigitsValue(m) == DigitsValue(m')
    ensures DigitsValue(s) == DigitsValue(s')
  {
    var t, t' := h + ":" + m + ":" + s, h' + ":" + m' + ":" + s';
    TimeOfFields(h, m, s);
    TimeOfFields(h', m', s');
    assert GetTimeInteger(t).value == GetTimeInteger(t').value;
    ClockInjective(DigitsValue(h), DigitsValue(m), DigitsValue(s),
                   DigitsValue(h'), DigitsValue(m'), DigitsValue(s'));
  }

  lemma {:induction false} ClockInjective(h: nat, m: nat, s: nat, h': nat, m': nat, s': nat)
    requires m < 60 && s < 60 && m' < 60 && s' < 60
    requires 3600 * h + 60 * m + s == 3600 * h' + 60 * m' + s'
    ensures h == h' && m == m' && s == s'
  {
  }

  /** An arrival after midnight of the service day keeps counting hours. */
  lemma {:induction false} TimePastMidnight()
    ensures GetTimeInteger("25:10:00") == Ok(90600)
  {
    assert "25"[..1] == "2" && "10"[..1] == "1" && "00"[..1] == "0";
    assert DigitsValue("25") == 25 && DigitsValue("10") == 10 && DigitsValue("00") == 0;
    TimeOfFields("25", "10", "00");
    assert "25" + ":" + "10" + ":" + "00" == "25:10:00";
  }
}
