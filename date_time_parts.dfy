/** The date and time pickers: a local `YYYY-MM-DDTHH:MM:00` value split into
    a date field and an `HH:MM` time field, and joined back when both are set. */
module DateTimeParts {
  import opened Builtins

  /** `value ? value.slice(0, 10) : ""`. */
  function DatePart(value: string): (d: string)
    ensures |d| <= 10
    ensures value == "" ==> d == ""
  {
    if value == "" then "" else Slice(value, 0, 10)
  }

  /** `value ? value.slice(11, 16) : ""`. */
  function TimePart(value: string): (t: string)
    ensures |t| <= 5
    ensures value == "" ==> t == ""
  {
    if value == "" then "" else Slice(value, 11, 16)
  }

  /** `emitIfComplete`: the joined value when both parts are set, else `""`. */
  function Emit(date: string, time: string): (v: string)
    ensures date != "" && time != "" ==> |v| == |date| + |time| + 4
    ensures date != "" && time != "" ==>
              v[..|date|] == date && v[|date|] == 'T'
              && v[|date| + 1..|date| + 1 + |time|] == time && v[|date| + 1 + |time|..] == ":00"
    ensures date == "" || time == "" ==> v == ""
  {
    if date != "" && time != "" then date + "T" + time + ":00" else ""
  }

  /** A full local date-time value as the row emits it. */
  predicate IsLocalDateTime(v: string)
  {
    |v| == 19 && v[10] == 'T' && v[16..] == ":00"
  }

  /** Splitting an emitted value gives back the date and time it was built from. */
  lemma SplitAfterEmit(date: string, time: string)
    requires |date| == 10 && |time| == 5
    ensures IsLocalDateTime(Emit(date, time))
    ensures DatePart(Emit(date, time)) == date && TimePart(Emit(date, time)) == time
  {
    var v := Emit(date, time);
    assert v == date + "T" + time + ":00";
    assert DatePart(v) == v[0..10] == date;
    assert TimePart(v) == v[11..16] == time;
  }

  /** Joining the parts of a full value gives back the value. */
  lemma EmitAfterSplit(v: string)
    requires IsLocalDateTime(v)
    ensures Emit(DatePart(v), TimePart(v)) == v
  {
    assert DatePart(v) == v[..10] && TimePart(v) == v[11..16];
    assert v == v[..10] + [v[10]] + v[11..16] + v[16..];
  }

  /** `hourPart`: `value ? value.slice(0, 2) : ""`. */
  function HourPart(time: string): (h: string)
    ensures |h| <= 2
    ensures time == "" ==> h == ""
  {
    if time == "" then "" else Slice(time, 0, 2)
  }

  /** `minutePart`: `value ? value.slice(3, 5) : ""`. */
  function MinutePart(time: string): (m: string)
    ensures |m| <= 2
    ensures time == "" ==> m == ""
  {
    if time == "" then "" else Slice(time, 3, 5)
  }

  /** `minutePart || "00"` and `hourPart || "00"`. */
  function OrZero(part: string): string
  {
    if part == "" then "00" else part
  }

  /** `handleHour(h)`: the chosen hour with the existing minutes, or `00`. */
  function HandleHour(time: string, hour: string): (next: string)
    ensures |hour| == 2 ==> HourPart(next) == hour && MinutePart(next) == OrZero(MinutePart(time))
  {
    var next := hour + ":" + OrZero(MinutePart(time));
    assert |hour| == 2 ==> Slice(next, 0, 2) == hour && Slice(next, 3, 5) == OrZero(MinutePart(time));
    next
  }

  /** `handleMinute(m)`: the existing hour, or `00`, with the chosen minutes.
      The hour part reads back unchanged when the current time is empty or
      has a full two-character hour. */
  function HandleMinute(time: string, minute: string): (next: string)
    ensures |minute| == 2 && (time == "" || |time| >= 2) ==>
              MinutePart(next) == minute && HourPart(next) == OrZero(HourPart(time))
  {
    var next := OrZero(HourPart(time)) + ":" + minute;
    assert |minute| == 2 && (time == "" || |time| >= 2) ==>
             Slice(next, 3, 5) == minute && Slice(next, 0, 2) == OrZero(HourPart(time));
    next
  }

  /** The two-digit form of `n`: `String(n).padStart(2, "0")`. */
  function TwoDigits(n: nat): string
  {
    PadStart(NatToString(n), 2, '0')
  }

  lemma TwoDigitsOf(n: nat)
    requires n < 100
    ensures TwoDigits(n) == [DigitChar(n / 10), DigitChar(n % 10)]
  {
    if n >= 10 {
      assert NatToString(n / 10) == [DigitChar(n / 10)];
    }
  }

  /** The `hours` table. */
  function Hours(): (hs: seq<string>)
    ensures |hs| == 24
  {
    seq(24, i requires 0 <= i < 24 => TwoDigits(i))
  }

  /** The hour options are "00" to "23" in order: two digits each, the
      i-th one spelling i, and no option repeated. */
  lemma HoursTable()
    ensures forall i :: 0 <= i < 24 ==> Hours()[i] == [DigitChar(i / 10), DigitChar(i % 10)]
    ensures forall i :: 0 <= i < 24 ==> |Hours()[i]| == 2 && IsDigits(Hours()[i])
    ensures forall i, j :: 0 <= i < j < 24 ==> Hours()[i] != Hours()[j]
  {
    forall i | 0 <= i < 24
      ensures Hours()[i] == [DigitChar(i / 10), DigitChar(i % 10)]
    {
      TwoDigitsOf(i);
    }
    forall i, j | 0 <= i < j < 24
      ensures Hours()[i] != Hours()[j]
    {
      assert i / 10 != j / 10 || i % 10 != j % 10;
    }
  }

  /** The `defaultMinutes` table. */
  const DefaultMinutes: seq<string> := ["00", "15", "30", "45"]

  /** Every default minute option is two digits, so choosing it reads back
      as the chosen minute. */
  lemma MinuteOptions(time: string, m: string)
    requires m in DefaultMinutes && (time == "" || |time| >= 2)
    ensures |m| == 2 && IsDigits(m)
    ensures MinutePart(HandleMinute(time, m)) == m
  {
  }

  /** A date/time row: the two local fields and the values it reports to
      its parent through `onChange`. */
  class DateTimeRow {
    /** The `value` prop last received from the parent. */
    var value: string
    var localDate: string
    var localTime: string
    /** Every value passed to `onChange`, in order. */
    var emitted: seq<string>

    /** Mounting with a value: the local fields start as its slices. In the
        admin page's copy, a new `value` remounts the row (it is keyed by
        the value), which has the same effect as `Resync`. */
    constructor (value: string)
      ensures this.value == value && localDate == DatePart(value) && localTime == TimePart(value)
      ensures emitted == []
    {
      this.value := value;
      localDate := DatePart(value);
      localTime := TimePart(value);
      emitted := [];
    }

    /** The effect on a change of `value`: both local fields follow it. */
    method Resync(v: string)
      modifies this
      ensures value == v && localDate == DatePart(v) && localTime == TimePart(v)
      ensures emitted == old(emitted)
    {
      value := v;
      localDate := DatePart(v);
      localTime := TimePart(v);
    }

    /** The date input changed. */
    method ChangeDate(d: string)
      modifies this
      ensures localDate == d && localTime == old(localTime) && value == old(value)
      ensures emitted == old(emitted) + [Emit(d, old(localTime))]
    {
      localDate := d;
      emitted := emitted + [Emit(d, localTime)];
    }

    /** The time select reported a new time. */
    method ChangeTime(t: string)
      modifies this
      ensures localTime == t && localDate == old(localDate) && value == old(value)
      ensures emitted == old(emitted) + [Emit(old(localDate), t)]
    {
      localTime := t;
      emitted := emitted + [Emit(localDate, t)];
    }

    /** The hour select changed. */
    method ChooseHour(h: string)
      modifies this
      ensures localTime == HandleHour(old(localTime), h) && localDate == old(localDate)
      ensures emitted == old(emitted) + [Emit(old(localDate), localTime)]
      ensures |h| == 2 ==> HourPart(localTime) == h && MinutePart(localTime) == OrZero(MinutePart(old(localTime)))
    {
      ChangeTime(HandleHour(localTime, h));
    }

    /** The minute select changed. */
    method ChooseMinute(m: string)
      modifies this
      ensures localTime == HandleMinute(old(localTime), m) && localDate == old(localDate)
      ensures emitted == old(emitted) + [Emit(old(localDate), localTime)]
    {
      ChangeTime(HandleMinute(localTime, m));
    }
  }
}
